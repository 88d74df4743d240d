// Login polls that may overlap, even polls of one attempt: each poll has a number
// of its own, and a clock that ticks with every step says what came first.
module Overlaps {
  import opened Basics
  import opened Logins

  datatype Progress = At(stage: Stage) | Ended(result: Result)

  /** A poll, with what it met and when. */
  datatype Poll = Poll(
    id: string,
    progress: Progress,
    fetchedAt: Option<nat>,
    checked: Option<int>,
    answer: Option<Answer>,
    counted: Option<nat>,      // the count of failures its own made
    countedAt: Option<nat>,
    deletedAt: Option<nat>
  )

  /** An attempt from its start to the first time a poll deletes it. */
  datatype Attempt = Attempt(login: Login, startedAt: nat, endedAt: Option<nat>)

  datatype Registry = Registry(shared: Shared, attempts: map<string, Attempt>, polls: map<nat, Poll>, clock: nat)

  const EMPTY: Registry := Registry(Shared(map[], map[]), map[], map[], 0)

  datatype Happening = Starts(id: string, login: Login) | Begins(poll: nat, of: string) | Takes(poll: nat, act: Act)

  function Failures(s: Shared, id: string): nat {
    if id in s.errors then s.errors[id] else 0
  }

  /** after: what the step leaves behind. */
  function Noted(q: Poll, act: Act, after: Shared, clock: nat): Poll {
    match act
    case Fetch => q.(fetchedAt := Some(clock))
    case CheckTime(now) => q.(checked := Some(now))
    case Respond(a) => q.(answer := Some(a))
    case Count => q.(counted := Some(Failures(after, q.id)), countedAt := Some(clock))
    case Delete => q.(deletedAt := Some(clock))
    case _ => q
  }

  function Progressed(after: After): Progress {
    match after
    case Goes(stage) => At(stage)
    case Returns(r) => Ended(r)
  }

  function TakeStep(s: Shared, q: Poll, act: Act, clock: nat): Option<(Shared, Poll)> {
    if q.progress.Ended? then None
    else
      match Perform(s, q.id, q.progress.stage, act)
      case None => None
      case Some((t, after)) => Some((t, Noted(q, act, t, clock).(progress := Progressed(after))))
  }

  function Ending(attempts: map<string, Attempt>, id: string, act: Act, clock: nat): map<string, Attempt> {
    if act.Delete? && id in attempts && attempts[id].endedAt.None? then
      attempts[id := attempts[id].(endedAt := Some(clock))]
    else attempts
  }

  /** Attempt ids are fresh; nothing keeps a second poll of an attempt from beginning. */
  function Advance(r: Registry, h: Happening): Option<Registry> {
    match h
    case Starts(id, login) =>
      if id in r.attempts then None
      else
        Some(r.(shared := r.shared.(pending := r.shared.pending[id := login]),
                attempts := r.attempts[id := Attempt(login, r.clock, None)], clock := r.clock + 1))
    case Begins(p, id) =>
      if p in r.polls then None
      else
        var q := Poll(id, At(Begun), None, None, None, None, None, None);
        Some(r.(polls := r.polls[p := q], clock := r.clock + 1))
    case Takes(p, act) =>
      if p !in r.polls then None
      else
        match TakeStep(r.shared, r.polls[p], act, r.clock)
        case None => None
        case Some((s, q)) =>
          Some(Registry(s, Ending(r.attempts, q.id, act, r.clock), r.polls[p := q], r.clock + 1))
  }

  ghost predicate IsRun(rs: seq<Registry>, hs: seq<Happening>) {
    && |rs| == |hs| + 1
    && forall i :: 0 <= i < |hs| ==> Advance(rs[i], hs[i]) == Some(rs[i + 1])
  }

  // ---- what every run keeps ----

  /** The poll fetched between its attempt's start and the first delete. */
  predicate Found(attempts: map<string, Attempt>, q: Poll) {
    && q.fetchedAt.Some? && q.id in attempts
    && attempts[q.id].startedAt < q.fetchedAt.value
    && (attempts[q.id].endedAt.Some? ==> q.fetchedAt.value < attempts[q.id].endedAt.value)
  }

  predicate InTime(attempts: map<string, Attempt>, q: Poll) {
    q.id in attempts && q.checked.Some? && q.checked.value <= attempts[q.id].login.deadline
  }

  predicate Fails(a: Answer) {
    a.TransportFailure? || a.Unreadable?
  }

  /** The result a poll must come to by what it met. */
  function Met(attempts: map<string, Attempt>, q: Poll): Option<Result> {
    if q.fetchedAt.None? then None
    else if !Found(attempts, q) then Some(Unknown)
    else if q.checked.None? then None
    else if !InTime(attempts, q) then Some(TimedOut)
    else
      match q.answer
      case None => Some(Unbuildable)
      case Some(Token(access, refresh)) => Some(Succeeded(access, refresh))
      case Some(NotFound) => Some(StillPending(false))
      case Some(a) =>
        if !Fails(a) then Some(Refused)
        else if q.counted.None? then None
        else if q.counted.value >= MAX_NETWORK_ERRORS then Some(NetworkFailed)
        else Some(StillPending(true))
  }

  predicate Gone(q: Poll) {
    match q.progress
    case At(Clearing(r)) => r.Terminal()
    case Ended(r) => r.Terminal()
    case At(_) => false
  }

  /** How far a poll has come shows in what it has met. */
  predicate StageInv(attempts: map<string, Attempt>, q: Poll) {
    match q.progress
    case At(Begun) => q.fetchedAt.None? && q.checked.None? && q.answer.None? && q.counted.None?
    case At(Fetched(login)) =>
      && Found(attempts, q) && login == attempts[q.id].login
      && q.checked.None? && q.answer.None? && q.counted.None?
    case At(Requesting) => Found(attempts, q) && InTime(attempts, q) && q.answer.None? && q.counted.None?
    case At(Failing) =>
      Found(attempts, q) && InTime(attempts, q) && q.answer.Some? && Fails(q.answer.value) && q.counted.None?
    case At(Deleting(r)) => Found(attempts, q) && Met(attempts, q) == Some(r) && r.Terminal()
    case At(Clearing(r)) =>
      Found(attempts, q) && Met(attempts, q) == Some(r) && (r.Terminal() || r == StillPending(false))
    case Ended(r) => q.fetchedAt.Some? && Met(attempts, q) == Some(r)
  }

  predicate PollInv(attempts: map<string, Attempt>, clock: nat, q: Poll) {
    && StageInv(attempts, q)
    && (q.fetchedAt.Some? ==> q.fetchedAt.value < clock)
    && (q.checked.None? ==> q.answer.None?)
    && (q.answer.Some? ==> Found(attempts, q) && InTime(attempts, q))
    && (q.counted.Some? ==> q.answer.Some? && Fails(q.answer.value))
    && (q.counted.Some? <==> q.countedAt.Some?)
    && (q.countedAt.Some? ==> q.countedAt.value < clock)
    && (q.deletedAt.Some? <==> Gone(q))
    && (q.deletedAt.Some? ==>
          && q.id in attempts && attempts[q.id].endedAt.Some?
          && attempts[q.id].endedAt.value <= q.deletedAt.value < clock)
  }

  predicate Past(a: Attempt, clock: nat) {
    a.startedAt < clock && (a.endedAt.Some? ==> a.endedAt.value < clock)
  }

  /** What is pending under an id is the attempt started there, until it is deleted. */
  predicate Tracks(s: Shared, attempts: map<string, Attempt>, clock: nat, id: string) {
    && (id in s.pending <==> id in attempts && attempts[id].endedAt.None?)
    && (id in s.pending ==> s.pending[id] == attempts[id].login)
    && (id in attempts ==> Past(attempts[id], clock))
  }

  ghost predicate Inv(r: Registry) {
    && (forall id: string :: Tracks(r.shared, r.attempts, r.clock, id))
    && (forall p :: p in r.polls ==> PollInv(r.attempts, r.clock, r.polls[p]))
  }

  /** Time passes, and other polls go on. */
  lemma OthersKeepPollInv(attempts: map<string, Attempt>, id: string, act: Act, clock: nat, q: Poll)
    requires PollInv(attempts, clock, q)
    ensures PollInv(Ending(attempts, id, act, clock), clock + 1, q)
  {
  }

  lemma StartKeepsPollInv(attempts: map<string, Attempt>, id: string, login: Login, clock: nat, q: Poll)
    requires PollInv(attempts, clock, q) && id !in attempts
    ensures PollInv(attempts[id := Attempt(login, clock, None)], clock + 1, q)
  {
  }

  lemma EarlyStepKeepsPollInv(s: Shared, attempts: map<string, Attempt>, clock: nat, q: Poll, act: Act)
    requires PollInv(attempts, clock, q) && Tracks(s, attempts, clock, q.id) && TakeStep(s, q, act, clock).Some?
    requires q.progress.stage.Begun? || q.progress.stage.Fetched? || q.progress.stage.Requesting?
    ensures PollInv(attempts, clock + 1, TakeStep(s, q, act, clock).value.1)
  {
    match q.progress.stage {
      case Begun =>
      case Fetched(_) =>
      case Requesting =>
    }
  }

  lemma LateStepKeepsPollInv(s: Shared, attempts: map<string, Attempt>, clock: nat, q: Poll, act: Act)
    requires PollInv(attempts, clock, q) && Tracks(s, attempts, clock, q.id) && TakeStep(s, q, act, clock).Some?
    requires q.progress.stage.Failing? || q.progress.stage.Deleting? || q.progress.stage.Clearing?
    ensures PollInv(Ending(attempts, q.id, act, clock), clock + 1, TakeStep(s, q, act, clock).value.1)
  {
    match q.progress.stage {
      case Failing =>
      case Deleting(_) =>
      case Clearing(_) =>
    }
  }

  lemma TakingKeepsTracks(s: Shared, attempts: map<string, Attempt>, clock: nat, q: Poll, act: Act, id: string)
    requires PollInv(attempts, clock, q) && TakeStep(s, q, act, clock).Some?
    requires Tracks(s, attempts, clock, q.id) && Tracks(s, attempts, clock, id)
    ensures Tracks(TakeStep(s, q, act, clock).value.0, Ending(attempts, q.id, act, clock), clock + 1, id)
  {
  }

  lemma TakingKeepsPollInv(r: Registry, p: nat, act: Act)
    requires Inv(r) && Advance(r, Takes(p, act)).Some?
    ensures var t := Advance(r, Takes(p, act)).value; PollInv(t.attempts, t.clock, t.polls[p])
  {
    var q := r.polls[p];
    assert PollInv(r.attempts, r.clock, q) && Tracks(r.shared, r.attempts, r.clock, q.id);
    if q.progress.stage.Begun? || q.progress.stage.Fetched? || q.progress.stage.Requesting? {
      EarlyStepKeepsPollInv(r.shared, r.attempts, r.clock, q, act);
    } else {
      LateStepKeepsPollInv(r.shared, r.attempts, r.clock, q, act);
    }
  }

  lemma AdvanceKeepsTracks(r: Registry, h: Happening, id: string)
    requires Inv(r) && Advance(r, h).Some?
    ensures var t := Advance(r, h).value; Tracks(t.shared, t.attempts, t.clock, id)
  {
    assert Tracks(r.shared, r.attempts, r.clock, id);
    if h.Takes? {
      var q := r.polls[h.poll];
      assert PollInv(r.attempts, r.clock, q) && Tracks(r.shared, r.attempts, r.clock, q.id);
      TakingKeepsTracks(r.shared, r.attempts, r.clock, q, h.act, id);
    }
  }

  /** What a step by another poll, or a beginning, leaves of this one. */
  lemma OthersLeavePoll(r: Registry, h: Happening, p: nat)
    requires Advance(r, h).Some? && p in r.polls && (h.Takes? ==> h.poll != p)
    ensures var t := Advance(r, h).value;
      && t.clock == r.clock + 1 && p in t.polls && t.polls[p] == r.polls[p]
      && (h.Takes? ==> h.poll in r.polls && t.attempts == Ending(r.attempts, r.polls[h.poll].id, h.act, r.clock))
      && (h.Begins? ==> t.attempts == r.attempts)
      && (h.Starts? ==> h.id !in r.attempts && t.attempts == r.attempts[h.id := Attempt(h.login, r.clock, None)])
  {
  }

  lemma KeptPollInv(r: Registry, h: Happening, p: nat)
    requires p in r.polls && PollInv(r.attempts, r.clock, r.polls[p]) && Advance(r, h).Some?
    requires h.Takes? ==> h.poll != p
    ensures var t := Advance(r, h).value; PollInv(t.attempts, t.clock, t.polls[p])
  {
    OthersLeavePoll(r, h, p);
    match h {
      case Starts(id, login) => StartKeepsPollInv(r.attempts, id, login, r.clock, r.polls[p]);
      case Begins(_, _) => OthersKeepPollInv(r.attempts, "", Fetch, r.clock, r.polls[p]);
      case Takes(q, act) => OthersKeepPollInv(r.attempts, r.polls[q].id, act, r.clock, r.polls[p]);
    }
  }

  lemma AdvanceKeepsPollInv(r: Registry, h: Happening, p: nat)
    requires Inv(r) && Advance(r, h).Some? && p in Advance(r, h).value.polls
    ensures var t := Advance(r, h).value; PollInv(t.attempts, t.clock, t.polls[p])
  {
    if p !in r.polls {
      assert h.Begins?;
    } else if h.Takes? && h.poll == p {
      TakingKeepsPollInv(r, p, h.act);
    } else {
      KeptPollInv(r, h, p);
    }
  }

  lemma AdvanceKeepsInv(r: Registry, h: Happening)
    requires Inv(r) && Advance(r, h).Some?
    ensures Inv(Advance(r, h).value)
  {
    var t := Advance(r, h).value;
    forall p | p in t.polls ensures PollInv(t.attempts, t.clock, t.polls[p]) {
      AdvanceKeepsPollInv(r, h, p);
    }
    forall id: string ensures Tracks(t.shared, t.attempts, t.clock, id) {
      AdvanceKeepsTracks(r, h, id);
    }
  }

  lemma {:induction false} RunKeepsInv(rs: seq<Registry>, hs: seq<Happening>, i: nat)
    requires IsRun(rs, hs) && rs[0] == EMPTY && i < |rs|
    ensures Inv(rs[i])
  {
    if i > 0 {
      RunKeepsInv(rs, hs, i - 1);
      assert Advance(rs[i - 1], hs[i - 1]) == Some(rs[i]);
      AdvanceKeepsInv(rs[i - 1], hs[i - 1]);
    }
  }

  // ---- when a poll succeeds, and when two do ----

  /** In every run, polls overlapping as they like: a poll that has returned succeeded exactly when it was
      answered with a token, it is answered only when it asked in time about an attempt it had found, and
      it knows no such attempt exactly when it fetched before the start or after the first delete. */
  lemma PollsSucceedExactly(rs: seq<Registry>, hs: seq<Happening>, i: nat, p: nat)
    requires IsRun(rs, hs) && rs[0] == EMPTY && i < |rs|
    requires p in rs[i].polls && rs[i].polls[p].progress.Ended?
    ensures var (q, attempts) := (rs[i].polls[p], rs[i].attempts);
      && (q.progress.result.Succeeded? <==> q.answer.Some? && q.answer.value.Token?)
      && (q.progress.result.Succeeded? ==>
            q.answer == Some(Token(q.progress.result.access, q.progress.result.refresh)))
      && (q.answer.Some? ==> Found(attempts, q) && InTime(attempts, q))
      && (q.progress.result == Unknown <==> !Found(attempts, q))
  {
    RunKeepsInv(rs, hs, i);
    assert PollInv(rs[i].attempts, rs[i].clock, rs[i].polls[p]);
  }

  /** How every other poll ends: it knows of no attempt, is late, cannot ask, is refused, is told to wait,
      or fails; of failures the third counted since a poll last cleared the count ends the attempt. */
  lemma PollsEndExactly(rs: seq<Registry>, hs: seq<Happening>, i: nat, p: nat)
    requires IsRun(rs, hs) && rs[0] == EMPTY && i < |rs|
    requires p in rs[i].polls && rs[i].polls[p].progress.Ended?
    ensures var (q, attempts) := (rs[i].polls[p], rs[i].attempts);
      var r := q.progress.result;
      && (r == TimedOut <==> Found(attempts, q) && q.checked.Some? && q.checked.value > attempts[q.id].login.deadline)
      && (r == Unbuildable <==> Found(attempts, q) && InTime(attempts, q) && q.answer.None?)
      && (r == Refused <==> q.answer in {Some(OtherStatus), Some(Garbled), Some(NoToken)})
      && (r == StillPending(false) <==> q.answer == Some(NotFound))
      && (r == NetworkFailed || r == StillPending(true) <==> q.answer in {Some(TransportFailure), Some(Unreadable)})
      && (r == NetworkFailed <==> q.counted.Some? && q.counted.value >= MAX_NETWORK_ERRORS)
  {
    RunKeepsInv(rs, hs, i);
    assert PollInv(rs[i].attempts, rs[i].clock, rs[i].polls[p]);
  }

  /** Two polls of one attempt both succeed only if each had fetched before either deleted; so a poll that
      fetches after another's delete never succeeds beside it. */
  lemma SecondSuccessNeedsOverlap(rs: seq<Registry>, hs: seq<Happening>, i: nat, p: nat, q: nat)
    requires IsRun(rs, hs) && rs[0] == EMPTY && i < |rs|
    requires p in rs[i].polls && rs[i].polls[p].progress.Ended? && rs[i].polls[p].progress.result.Succeeded?
    requires q in rs[i].polls && rs[i].polls[q].progress.Ended? && rs[i].polls[q].progress.result.Succeeded?
    requires rs[i].polls[p].id == rs[i].polls[q].id
    ensures var (a, b) := (rs[i].polls[p], rs[i].polls[q]);
      && a.fetchedAt.Some? && a.deletedAt.Some? && b.fetchedAt.Some? && b.deletedAt.Some?
      && a.fetchedAt.value < b.deletedAt.value && b.fetchedAt.value < a.deletedAt.value
      && InTime(rs[i].attempts, a) && InTime(rs[i].attempts, b)
  {
    RunKeepsInv(rs, hs, i);
    assert PollInv(rs[i].attempts, rs[i].clock, rs[i].polls[p]);
    assert PollInv(rs[i].attempts, rs[i].clock, rs[i].polls[q]);
  }

  /** One poll asks in time; then it is given a token and finishes.  No other poll is touched. */
  lemma Asks(r: Registry, id: string, p: nat, now: int) returns (rs: seq<Registry>, hs: seq<Happening>)
    requires id in r.shared.pending && now <= r.shared.pending[id].deadline && p !in r.polls
    ensures IsRun(rs, hs) && rs[0] == r && rs[|hs|].shared == r.shared
    ensures p in rs[|hs|].polls && rs[|hs|].polls == r.polls[p := rs[|hs|].polls[p]]
    ensures rs[|hs|].polls[p].id == id && rs[|hs|].polls[p].progress == At(Requesting)
  {
    var r1 := Advance(r, Begins(p, id)).value;
    var r2 := Advance(r1, Takes(p, Fetch)).value;
    var r3 := Advance(r2, Takes(p, CheckTime(now))).value;
    rs, hs := [r, r1, r2, r3], [Begins(p, id), Takes(p, Fetch), Takes(p, CheckTime(now))];
  }

  lemma Finishes(r: Registry, p: nat, t: Answer) returns (rs: seq<Registry>, hs: seq<Happening>)
    requires p in r.polls && r.polls[p].progress == At(Requesting) && t.Token?
    ensures IsRun(rs, hs) && rs[0] == r
    ensures p in rs[|hs|].polls && rs[|hs|].polls == r.polls[p := rs[|hs|].polls[p]]
    ensures rs[|hs|].polls[p].id == r.polls[p].id
    ensures rs[|hs|].polls[p].progress == Ended(Succeeded(t.access, t.refresh))
    ensures rs[|hs|].shared == Over(r.shared, r.polls[p].id)
  {
    var r1 := Advance(r, Takes(p, Respond(t))).value;
    var r2 := Advance(r1, Takes(p, Delete)).value;
    var r3 := Advance(r2, Takes(p, Clear)).value;
    rs, hs := [r, r1, r2, r3], [Takes(p, Respond(t)), Takes(p, Delete), Takes(p, Clear)];
  }

  lemma Joined(rs: seq<Registry>, hs: seq<Happening>, more: seq<Registry>, rest: seq<Happening>)
    requires IsRun(rs, hs) && IsRun(more, rest) && rs[|hs|] == more[0]
    ensures IsRun(rs + more[1..], hs + rest)
    ensures (rs + more[1..])[0] == rs[0] && (rs + more[1..])[|hs + rest|] == more[|rest|]
  {
  }

  /** And from every state in which an attempt is pending and not yet late, two polls that have both asked
      before either is answered can both succeed. */
  lemma BothMaySucceed(r: Registry, id: string, p: nat, q: nat, now: int, t: Answer, u: Answer)
    returns (rs: seq<Registry>, hs: seq<Happening>)
    requires id in r.shared.pending && now <= r.shared.pending[id].deadline
    requires p != q && p !in r.polls && q !in r.polls && t.Token? && u.Token?
    ensures IsRun(rs, hs) && rs[0] == r
    ensures var polls := rs[|hs|].polls;
      && p in polls && polls[p].id == id && polls[p].progress == Ended(Succeeded(t.access, t.refresh))
      && q in polls && polls[q].id == id && polls[q].progress == Ended(Succeeded(u.access, u.refresh))
  {
    rs, hs := Asks(r, id, p, now);
    var rs1, hs1 := Asks(rs[|hs|], id, q, now);
    Joined(rs, hs, rs1, hs1);
    rs, hs := rs + rs1[1..], hs + hs1;
    rs1, hs1 := Finishes(rs[|hs|], p, t);
    Joined(rs, hs, rs1, hs1);
    rs, hs := rs + rs1[1..], hs + hs1;
    rs1, hs1 := Finishes(rs[|hs|], q, u);
    Joined(rs, hs, rs1, hs1);
    rs, hs := rs + rs1[1..], hs + hs1;
  }

  // ---- what becomes of the failure counts ----

  /** A step by some poll of the attempt. */
  predicate Does(r: Registry, h: Happening, id: string, act: Act) {
    h.Takes? && h.act == act && h.poll in r.polls && r.polls[h.poll].id == id
  }

  /** Failures of an attempt's polls counted since one of them last cleared the count. */
  ghost function Streak(rs: seq<Registry>, hs: seq<Happening>, i: nat, id: string): nat
    requires |rs| == |hs| + 1 && i <= |hs|
  {
    if i == 0 then 0
    else if Does(rs[i - 1], hs[i - 1], id, Count) then Streak(rs, hs, i - 1, id) + 1
    else if Does(rs[i - 1], hs[i - 1], id, Clear) then 0
    else Streak(rs, hs, i - 1, id)
  }

  lemma AdvanceCounts(r: Registry, h: Happening, id: string)
    requires Advance(r, h).Some? && (id in r.shared.errors ==> r.shared.errors[id] > 0)
    ensures var s := Advance(r, h).value.shared;
      && (id in s.errors ==> s.errors[id] > 0)
      && Failures(s, id) ==
           if Does(r, h, id, Count) then Failures(r.shared, id) + 1
           else if Does(r, h, id, Clear) then 0
           else Failures(r.shared, id)
  {
    if h.Takes? {
      var q := r.polls[h.poll];
      match q.progress.stage {
        case Begun =>
        case Fetched(_) =>
        case Requesting =>
        case Failing =>
        case Deleting(_) =>
        case Clearing(_) =>
      }
    }
  }

  /** The count kept for an attempt is its streak, and none is kept for a streak of zero. */
  lemma {:induction false} CountsAreStreaks(rs: seq<Registry>, hs: seq<Happening>, i: nat, id: string)
    requires IsRun(rs, hs) && rs[0] == EMPTY && i < |rs|
    ensures Failures(rs[i].shared, id) == Streak(rs, hs, i, id)
    ensures id in rs[i].shared.errors <==> Streak(rs, hs, i, id) > 0
  {
    if i > 0 {
      CountsAreStreaks(rs, hs, i - 1, id);
      assert Advance(rs[i - 1], hs[i - 1]) == Some(rs[i]);
      AdvanceCounts(rs[i - 1], hs[i - 1], id);
    }
  }

  lemma CountsWhatIsKept(r: Registry, p: nat)
    requires p in r.polls && Advance(r, Takes(p, Count)).Some?
    ensures var t := Advance(r, Takes(p, Count)).value;
      p in t.polls && t.polls[p].counted == Some(Failures(t.shared, r.polls[p].id))
  {
    assert r.polls[p].progress.stage == Failing;
  }

  /** A poll that counts is told the streak it makes, and goes by that to its end. */
  lemma {:induction false} CountedIsStreak(rs: seq<Registry>, hs: seq<Happening>, i: nat, j: nat)
    requires IsRun(rs, hs) && rs[0] == EMPTY && i < j < |rs|
    requires hs[i].Takes? && hs[i].act == Count && hs[i].poll in rs[i].polls
    ensures var (p, id) := (hs[i].poll, rs[i].polls[hs[i].poll].id);
      p in rs[j].polls && rs[j].polls[p].counted == Some(Streak(rs, hs, i + 1, id))
    decreases j
  {
    var p, id := hs[i].poll, rs[i].polls[hs[i].poll].id;
    assert Advance(rs[j - 1], hs[j - 1]) == Some(rs[j]);
    if j == i + 1 {
      CountsAreStreaks(rs, hs, j, id);
      CountsWhatIsKept(rs[i], p);
    } else {
      CountedIsStreak(rs, hs, i, j - 1);
      RunKeepsInv(rs, hs, j - 1);
      CountIsKept(rs[j - 1], hs[j - 1], p);
    }
  }

  lemma CountIsKept(r: Registry, h: Happening, p: nat)
    requires Inv(r) && Advance(r, h).Some? && p in r.polls && r.polls[p].counted.Some?
    ensures p in Advance(r, h).value.polls && Advance(r, h).value.polls[p].counted == r.polls[p].counted
  {
    assert PollInv(r.attempts, r.clock, r.polls[p]);
  }

  predicate Counted(r: Registry, p: nat, id: string) {
    && p in r.polls && r.polls[p].id == id && r.polls[p].countedAt.Some?
    && id in r.attempts && r.attempts[id].endedAt.Some?
    && r.attempts[id].endedAt.value < r.polls[p].countedAt.value
  }

  predicate Clears(r: Registry, p: nat, id: string) {
    p in r.polls && r.polls[p].id == id && r.polls[p].progress.At? && r.polls[p].progress.stage.Clearing?
  }

  /** A count outlives its attempt only because it is about to be cleared, or was made too late. */
  ghost predicate CountExplained(r: Registry, id: string) {
    && (id in r.shared.errors ==> id in r.attempts)
    && (id in r.shared.errors && r.attempts[id].endedAt.Some? ==>
          exists p :: Clears(r, p, id) || Counted(r, p, id))
  }

  lemma CountedStays(r: Registry, h: Happening, p: nat, id: string)
    requires Advance(r, h).Some? && Counted(r, p, id) && Past(r.attempts[id], r.clock)
    ensures Counted(Advance(r, h).value, p, id)
  {
    if h.Takes? && h.poll == p {
      assert r.polls[p].progress.At?;
    } else {
      OthersLeavePoll(r, h, p);
    }
  }

  /** A poll about to clear is still about to, or it has cleared. */
  lemma ClearsStays(r: Registry, h: Happening, p: nat, id: string)
    requires Advance(r, h).Some? && Clears(r, p, id)
    ensures var t := Advance(r, h).value; Clears(t, p, id) || id !in t.shared.errors
  {
    if h.Takes? && h.poll == p {
      assert r.polls[p].progress.stage.Clearing?;
    }
  }

  /** What makes a count, or an end, explains it. */
  lemma NewlyExplained(r: Registry, h: Happening, id: string)
    requires Inv(r) && Advance(r, h).Some? && h.Takes? && r.polls[h.poll].id == id
    requires h.act.Delete? || (h.act.Count? && id in r.attempts && r.attempts[id].endedAt.Some?)
    ensures var t := Advance(r, h).value; Clears(t, h.poll, id) || Counted(t, h.poll, id)
  {
    assert Tracks(r.shared, r.attempts, r.clock, id);
    if h.act.Delete? {
      assert r.polls[h.poll].progress.stage.Deleting?;
    } else {
      assert r.polls[h.poll].progress.stage.Failing?;
    }
  }

  /** Only a count makes one, and only a delete ends an attempt. */
  lemma OtherwiseAsBefore(r: Registry, h: Happening, id: string)
    requires Inv(r) && Advance(r, h).Some?
    requires !(h.Takes? && r.polls[h.poll].id == id && (h.act.Delete? || h.act.Count?))
    ensures var t := Advance(r, h).value;
      && (id in t.shared.errors ==> id in r.shared.errors)
      && (id in r.attempts ==> id in t.attempts && t.attempts[id].endedAt == r.attempts[id].endedAt)
  {
    assert Tracks(r.shared, r.attempts, r.clock, id);
  }

  lemma StaysInAttempts(r: Registry, h: Happening, id: string)
    requires Inv(r) && Advance(r, h).Some? && CountExplained(r, id) && id in Advance(r, h).value.shared.errors
    ensures id in Advance(r, h).value.attempts
  {
    if h.Takes? && r.polls[h.poll].id == id {
      assert PollInv(r.attempts, r.clock, r.polls[h.poll]);
    }
  }

  lemma AdvanceKeepsCountExplained(r: Registry, h: Happening, id: string)
    requires Inv(r) && Advance(r, h).Some? && CountExplained(r, id)
    ensures CountExplained(Advance(r, h).value, id)
  {
    var t := Advance(r, h).value;
    if id in t.shared.errors {
      StaysInAttempts(r, h, id);
      if t.attempts[id].endedAt.Some? {
        if h.Takes? && r.polls[h.poll].id == id && (h.act.Delete? || h.act.Count?) {
          if h.act.Count? {
            assert r.attempts[id].endedAt.Some?;
          }
          NewlyExplained(r, h, id);
        } else {
          OtherwiseAsBefore(r, h, id);
          var p :| Clears(r, p, id) || Counted(r, p, id);
          if Counted(r, p, id) {
            assert Tracks(r.shared, r.attempts, r.clock, id);
            CountedStays(r, h, p, id);
          } else {
            ClearsStays(r, h, p, id);
          }
        }
      }
    }
  }

  lemma {:induction false} RunKeepsCountExplained(rs: seq<Registry>, hs: seq<Happening>, i: nat, id: string)
    requires IsRun(rs, hs) && rs[0] == EMPTY && i < |rs|
    ensures CountExplained(rs[i], id)
  {
    if i > 0 {
      RunKeepsCountExplained(rs, hs, i - 1, id);
      RunKeepsInv(rs, hs, i - 1);
      assert Advance(rs[i - 1], hs[i - 1]) == Some(rs[i]);
      AdvanceKeepsCountExplained(rs[i - 1], hs[i - 1], id);
    }
  }

  ghost predicate AtRest(r: Registry, id: string) {
    forall p :: p in r.polls && r.polls[p].id == id ==> r.polls[p].progress.Ended?
  }

  /** With no poll of an attempt under way, a count is left for it after its end exactly when a failure was
      counted since the last clear; then some poll that had fetched before the end counted its failure
      after it. */
  lemma LeftoverCountsExactly(rs: seq<Registry>, hs: seq<Happening>, i: nat, id: string)
    requires IsRun(rs, hs) && rs[0] == EMPTY && i < |rs| && AtRest(rs[i], id)
    ensures var r := rs[i];
      && (id in r.shared.errors && id !in r.shared.pending <==>
            id in r.attempts && r.attempts[id].endedAt.Some? && Streak(rs, hs, i, id) > 0)
      && (id in r.shared.errors && id !in r.shared.pending ==>
            exists p :: Counted(r, p, id) && Found(r.attempts, r.polls[p]))
  {
    var r := rs[i];
    RunKeepsInv(rs, hs, i);
    CountsAreStreaks(rs, hs, i, id);
    RunKeepsCountExplained(rs, hs, i, id);
    assert Tracks(r.shared, r.attempts, r.clock, id);
    if id in r.shared.errors && id !in r.shared.pending {
      var p :| Clears(r, p, id) || Counted(r, p, id);
      assert PollInv(r.attempts, r.clock, r.polls[p]);
    }
  }

  /** Over, with a count left, and nobody to clear it. */
  ghost predicate Leftover(r: Registry, id: string, n: nat) {
    && id in r.attempts && id !in r.shared.pending && id in r.shared.errors && r.shared.errors[id] == n
    && forall p :: p in r.polls && r.polls[p].id == id ==>
         r.polls[p].progress.Ended? || r.polls[p].progress == At(Begun)
  }

  lemma AdvanceKeepsLeftover(r: Registry, h: Happening, id: string, n: nat)
    requires Leftover(r, id, n) && Advance(r, h).Some?
    ensures Leftover(Advance(r, h).value, id, n)
  {
    if h.Takes? && r.polls[h.poll].id == id {
      assert r.polls[h.poll].progress == At(Begun);
    }
  }

  /** Such a count is there for good, however many polls are still to come. */
  lemma {:induction false} LeftoverCountsStay(rs: seq<Registry>, hs: seq<Happening>, i: nat, id: string, n: nat)
    requires IsRun(rs, hs) && Leftover(rs[0], id, n) && i < |rs|
    ensures Leftover(rs[i], id, n)
  {
    if i > 0 {
      LeftoverCountsStay(rs, hs, i - 1, id, n);
      assert Advance(rs[i - 1], hs[i - 1]) == Some(rs[i]);
      AdvanceKeepsLeftover(rs[i - 1], hs[i - 1], id, n);
    }
  }

  lemma FailsOnce(r: Registry, p: nat) returns (rs: seq<Registry>, hs: seq<Happening>)
    requires p in r.polls && r.polls[p].progress == At(Requesting) && r.polls[p].id !in r.shared.errors
    ensures IsRun(rs, hs) && rs[0] == r
    ensures p in rs[|hs|].polls && rs[|hs|].polls == r.polls[p := rs[|hs|].polls[p]]
    ensures rs[|hs|].polls[p].id == r.polls[p].id && rs[|hs|].polls[p].progress == Ended(StillPending(true))
    ensures rs[|hs|].shared == r.shared.(errors := r.shared.errors[r.polls[p].id := 1])
  {
    var r1 := Advance(r, Takes(p, Respond(TransportFailure))).value;
    var r2 := Advance(r1, Takes(p, Count)).value;
    rs, hs := [r, r1, r2], [Takes(p, Respond(TransportFailure)), Takes(p, Count)];
  }

  /** From every state with a pending attempt in time, one poll can succeed and another, which had asked
      before, then fail: both are over and the count stays behind. */
  lemma CountCanBeLeft(r: Registry, id: string, p: nat, q: nat, now: int, t: Answer)
    returns (rs: seq<Registry>, hs: seq<Happening>)
    requires id in r.shared.pending && now <= r.shared.pending[id].deadline
    requires p != q && p !in r.polls && q !in r.polls && t.Token?
    ensures IsRun(rs, hs) && rs[0] == r
    ensures var (polls, shared) := (rs[|hs|].polls, rs[|hs|].shared);
      && p in polls && polls[p].progress == Ended(Succeeded(t.access, t.refresh))
      && q in polls && polls[q].progress == Ended(StillPending(true))
      && id !in shared.pending && id in shared.errors
  {
    rs, hs := Asks(r, id, p, now);
    var rs1, hs1 := Asks(rs[|hs|], id, q, now);
    Joined(rs, hs, rs1, hs1);
    rs, hs := rs + rs1[1..], hs + hs1;
    rs1, hs1 := Finishes(rs[|hs|], p, t);
    Joined(rs, hs, rs1, hs1);
    rs, hs := rs + rs1[1..], hs + hs1;
    rs1, hs1 := FailsOnce(rs[|hs|], q);
    Joined(rs, hs, rs1, hs1);
    rs, hs := rs + rs1[1..], hs + hs1;
  }
}
