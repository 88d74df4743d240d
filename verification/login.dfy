// Login attempts: each is polled until it succeeds, is refused, expires, or fails
// three times running.  Pending attempts and failure counts sit behind separate
// locks, and polls of different attempts interleave between them.
module Logins {
  import opened Basics

  const MAX_NETWORK_ERRORS: nat := 3

  datatype Login = Login(verifier: string, uuid: string, deadline: int)

  /** What one request to the poll endpoint comes to. */
  datatype Answer = TransportFailure | Unreadable | NotFound | OtherStatus | Garbled | NoToken
    | Token(access: string, refresh: string)

  datatype Result =
    | Succeeded(access: string, refresh: string)
    | StillPending(failure: bool)
    | TimedOut
    | Refused
    | NetworkFailed
    | Unknown       // reported as rejected: no such attempt, or already over
    | Unbuildable   // reported as rejected, though the attempt stays pending
  {
    predicate Terminal() {
      Succeeded? || TimedOut? || Refused? || NetworkFailed?
    }
  }

  datatype Shared = Shared(pending: map<string, Login>, errors: map<string, nat>)

  // ---- one poll, alone ----

  function Over(s: Shared, id: string): Shared {
    Shared(s.pending - {id}, s.errors - {id})
  }

  function Failed(s: Shared, id: string): (Shared, Result) {
    var count := (if id in s.errors then s.errors[id] else 0) + 1;
    if count >= MAX_NETWORK_ERRORS then (Over(s, id), NetworkFailed)
    else (s.(errors := s.errors[id := count]), StillPending(true))
  }

  function PollAlone(s: Shared, id: string, now: int, builds: bool, answer: Answer): (Shared, Result) {
    if id !in s.pending then (s, Unknown)
    else if now > s.pending[id].deadline then (Over(s, id), TimedOut)
    else if !builds then (s, Unbuildable)
    else match answer
      case TransportFailure => Failed(s, id)
      case Unreadable => Failed(s, id)
      case NotFound => (s.(errors := s.errors - {id}), StillPending(false))
      case OtherStatus => (Over(s, id), Refused)
      case Garbled => (Over(s, id), Refused)
      case NoToken => (Over(s, id), Refused)
      case Token(access, refresh) => (Over(s, id), Succeeded(access, refresh))
  }

  class PendingLoginStore {
    var byID: map<string, Login>

    constructor ()
      ensures byID == map[]
    {
      byID := map[];
    }

    method Put(id: string, login: Login)
      modifies this
      ensures byID == old(byID)[id := login]
    {
      byID := byID[id := login];
    }

    method Lookup(id: string) returns (login: Option<Login>)
      ensures login == if id in byID then Some(byID[id]) else None
    {
      login := if id in byID then Some(byID[id]) else None;
    }

    method Delete(id: string)
      modifies this
      ensures byID == old(byID) - {id}
    {
      byID := byID - {id};
    }
  }

  class Poller {
    const pending: PendingLoginStore
    var consecutiveNetworkErrors: map<string, nat>

    constructor ()
      ensures fresh(pending) && State() == Shared(map[], map[])
    {
      pending := new PendingLoginStore();
      consecutiveNetworkErrors := map[];
    }

    ghost function State(): Shared
      reads this, pending
    {
      Shared(pending.byID, consecutiveNetworkErrors)
    }

    method StartLogin(login: Login)
      modifies pending
      ensures State() == old(State()).(pending := old(pending.byID)[login.uuid := login])
    {
      pending.Put(login.uuid, login);
    }

    method IncrementNetworkErrors(id: string) returns (count: nat)
      modifies this
      ensures count == (if id in old(consecutiveNetworkErrors) then old(consecutiveNetworkErrors)[id] else 0) + 1
      ensures consecutiveNetworkErrors == old(consecutiveNetworkErrors)[id := count]
    {
      count := (if id in consecutiveNetworkErrors then consecutiveNetworkErrors[id] else 0) + 1;
      consecutiveNetworkErrors := consecutiveNetworkErrors[id := count];
    }

    method ClearNetworkErrors(id: string)
      modifies this
      ensures consecutiveNetworkErrors == old(consecutiveNetworkErrors) - {id}
    {
      consecutiveNetworkErrors := consecutiveNetworkErrors - {id};
    }

    method HandleNetworkError(id: string) returns (r: Result)
      modifies this, pending
      ensures (State(), r) == Failed(old(State()), id)
    {
      var count := IncrementNetworkErrors(id);
      if count >= MAX_NETWORK_ERRORS {
        pending.Delete(id);
        ClearNetworkErrors(id);
        assert consecutiveNetworkErrors == old(consecutiveNetworkErrors) - {id};
        return NetworkFailed;
      }
      r := StillPending(true);
    }

    method Poll(id: string, now: int, builds: bool, answer: Answer) returns (r: Result)
      modifies this, pending
      ensures (State(), r) == PollAlone(old(State()), id, now, builds, answer)
    {
      var login := pending.Lookup(id);
      if login.None? {
        return Unknown;
      }
      if now > login.value.deadline {
        pending.Delete(id);
        ClearNetworkErrors(id);
        return TimedOut;
      }
      if !builds {
        return Unbuildable;
      }
      match answer {
        case TransportFailure => r := HandleNetworkError(id);
        case NotFound =>
          ClearNetworkErrors(id);
          r := StillPending(false);
        case Unreadable => r := HandleNetworkError(id);
        case OtherStatus =>
          pending.Delete(id);
          ClearNetworkErrors(id);
          r := Refused;
        case Garbled =>
          pending.Delete(id);
          ClearNetworkErrors(id);
          r := Refused;
        case NoToken =>
          pending.Delete(id);
          ClearNetworkErrors(id);
          r := Refused;
        case Token(access, refresh) =>
          pending.Delete(id);
          ClearNetworkErrors(id);
          r := Succeeded(access, refresh);
      }
    }
  }

  /** A poll ends its attempt exactly when it says so, and succeeds exactly when a pending attempt is
      given a token in time; no poll touches another attempt. */
  lemma PollMeansWhatItSays(s: Shared, id: string, now: int, builds: bool, answer: Answer)
    ensures var (t, r) := PollAlone(s, id, now, builds, answer);
      && (id in t.pending <==> id in s.pending && !r.Terminal())
      && (r.Succeeded? <==> id in s.pending && now <= s.pending[id].deadline && builds && answer.Token?)
      && (r.Succeeded? ==> answer == Token(r.access, r.refresh))
      && (r.TimedOut? <==> id in s.pending && now > s.pending[id].deadline)
      && (r.Terminal() ==> id !in t.errors)
      && t.pending - {id} == s.pending - {id} && t.errors - {id} == s.errors - {id}
  {
  }

  // ---- a poll lock by lock ----

  datatype Stage =
    | Begun
    | Fetched(login: Login)
    | Requesting
    | Failing
    | Deleting(out: Result)
    | Clearing(out: Result)

  datatype Act = Fetch | CheckTime(now: int) | CannotBuild | Respond(answer: Answer) | Count | Delete | Clear

  datatype After = Goes(stage: Stage) | Returns(result: Result)

  function AfterAnswer(a: Answer): Stage {
    match a
    case TransportFailure => Failing
    case Unreadable => Failing
    case NotFound => Clearing(StillPending(false))
    case OtherStatus => Deleting(Refused)
    case Garbled => Deleting(Refused)
    case NoToken => Deleting(Refused)
    case Token(access, refresh) => Deleting(Succeeded(access, refresh))
  }

  /** One step of a poll: each takes at most one of the locks. */
  function Perform(s: Shared, id: string, stage: Stage, act: Act): Option<(Shared, After)> {
    match (stage, act)
    case (Begun, Fetch) => Some((s, if id in s.pending then Goes(Fetched(s.pending[id])) else Returns(Unknown)))
    case (Fetched(login), CheckTime(now)) =>
      Some((s, Goes(if now > login.deadline then Deleting(TimedOut) else Requesting)))
    case (Requesting, CannotBuild) => Some((s, Returns(Unbuildable)))
    case (Requesting, Respond(a)) => Some((s, Goes(AfterAnswer(a))))
    case (Failing, Count) =>
      var count := (if id in s.errors then s.errors[id] else 0) + 1;
      Some((s.(errors := s.errors[id := count]),
            if count >= MAX_NETWORK_ERRORS then Goes(Deleting(NetworkFailed)) else Returns(StillPending(true))))
    case (Deleting(out), Delete) => Some((s.(pending := s.pending - {id}), Goes(Clearing(out))))
    case (Clearing(out), Clear) => Some((s.(errors := s.errors - {id}), Returns(out)))
    case _ => None
  }

  /** The steps a poll takes when nothing comes between. */
  function Acts(s: Shared, id: string, now: int, builds: bool, answer: Answer): seq<Act> {
    if id !in s.pending then [Fetch]
    else if now > s.pending[id].deadline then [Fetch, CheckTime(now), Delete, Clear]
    else if !builds then [Fetch, CheckTime(now), CannotBuild]
    else
      [Fetch, CheckTime(now), Respond(answer)] +
        match AfterAnswer(answer)
        case Failing => if Failed(s, id).1 == NetworkFailed then [Count, Delete, Clear] else [Count]
        case Deleting(_) => [Delete, Clear]
        case _ => [Clear]
  }

  function PerformAll(s: Shared, id: string, stage: Stage, acts: seq<Act>): Option<(Shared, After)>
    decreases |acts|
  {
    if acts == [] then Some((s, Goes(stage)))
    else
      match Perform(s, id, stage, acts[0])
      case None => None
      case Some((t, after)) =>
        match after
        case Returns(r) => if |acts| == 1 then Some((t, after)) else None
        case Goes(next) => PerformAll(t, id, next, acts[1..])
  }

  lemma PerformOne(s: Shared, id: string, stage: Stage, act: Act, rest: seq<Act>)
    requires Perform(s, id, stage, act).Some? && Perform(s, id, stage, act).value.1.Goes?
    ensures PerformAll(s, id, stage, [act] + rest) ==
            PerformAll(Perform(s, id, stage, act).value.0, id, Perform(s, id, stage, act).value.1.stage, rest)
  {
    assert ([act] + rest)[1..] == rest;
  }

  lemma DeleteThenClear(s: Shared, id: string, out: Result)
    ensures PerformAll(s, id, Deleting(out), [Delete, Clear]) == Some((Over(s, id), Returns(out)))
  {
    PerformOne(s, id, Deleting(out), Delete, [Clear]);
    assert [Delete] + [Clear] == [Delete, Clear];
  }

  lemma CountThrice(s: Shared, id: string)
    ensures var acts := if Failed(s, id).1 == NetworkFailed then [Count, Delete, Clear] else [Count];
      PerformAll(s, id, Failing, acts) == Some((Failed(s, id).0, Returns(Failed(s, id).1)))
  {
    if Failed(s, id).1 == NetworkFailed {
      PerformOne(s, id, Failing, Count, [Delete, Clear]);
      assert [Count] + [Delete, Clear] == [Count, Delete, Clear];
      var t := Perform(s, id, Failing, Count).value.0;
      DeleteThenClear(t, id, NetworkFailed);
      assert Over(t, id) == Over(s, id);
    }
  }

  /** Taken without interruption, the steps make up the poll. */
  lemma StepsMakeAPoll(s: Shared, id: string, now: int, builds: bool, answer: Answer)
    ensures PerformAll(s, id, Begun, Acts(s, id, now, builds, answer)) ==
            Some((PollAlone(s, id, now, builds, answer).0, Returns(PollAlone(s, id, now, builds, answer).1)))
  {
    var acts := Acts(s, id, now, builds, answer);
    if id in s.pending {
      var login := s.pending[id];
      assert acts == [Fetch] + ([CheckTime(now)] + acts[2..]);
      PerformOne(s, id, Begun, Fetch, [CheckTime(now)] + acts[2..]);
      PerformOne(s, id, Fetched(login), CheckTime(now), acts[2..]);
      if now > login.deadline {
        DeleteThenClear(s, id, TimedOut);
      } else if builds {
        var next := AfterAnswer(answer);
        assert acts[2..] == [Respond(answer)] + acts[3..];
        PerformOne(s, id, Requesting, Respond(answer), acts[3..]);
        if next.Failing? {
          CountThrice(s, id);
        } else if next.Deleting? {
          DeleteThenClear(s, id, next.out);
        }
      }
    }
  }

  // ---- many attempts, their polls interleaved ----

  datatype World = World(shared: Shared, stages: map<string, Stage>, started: set<string>,
    log: map<string, seq<Result>>)

  const START: World := World(Shared(map[], map[]), map[], {}, map[])

  datatype Move = StartLogin(login: Login) | BeginPoll | Step(act: Act)

  /** An attempt's own move.  Attempt ids are fresh, and polls of one attempt do not overlap. */
  datatype Event = Event(id: string, move: Move)

  function LogOf(w: World, id: string): seq<Result> {
    if id in w.log then w.log[id] else []
  }

  function Next(w: World, e: Event): Option<World> {
    match e.move
    case StartLogin(login) =>
      if e.id in w.started then None
      else Some(w.(shared := w.shared.(pending := w.shared.pending[e.id := login]), started := w.started + {e.id}))
    case BeginPoll =>
      if e.id in w.stages then None else Some(w.(stages := w.stages[e.id := Begun]))
    case Step(act) =>
      if e.id !in w.stages then None
      else
        match Perform(w.shared, e.id, w.stages[e.id], act)
        case None => None
        case Some((s, Goes(stage))) => Some(w.(shared := s, stages := w.stages[e.id := stage]))
        case Some((s, Returns(r))) =>
          Some(w.(shared := s, stages := w.stages - {e.id}, log := w.log[e.id := LogOf(w, e.id) + [r]]))
  }

  function RunAll(w: World, es: seq<Event>): Option<World> {
    if es == [] then Some(w)
    else
      match RunAll(w, es[..|es| - 1])
      case None => None
      case Some(v) => Next(v, es[|es| - 1])
  }

  // ---- one attempt by itself ----

  /** All that concerns one attempt. */
  datatype View = View(login: Option<Login>, errors: Option<nat>, stage: Option<Stage>, started: bool, log: seq<Result>)

  const FRESH: View := View(None, None, None, false, [])

  function ViewOf(w: World, id: string): View {
    View(if id in w.shared.pending then Some(w.shared.pending[id]) else None,
         if id in w.shared.errors then Some(w.shared.errors[id]) else None,
         if id in w.stages then Some(w.stages[id]) else None,
         id in w.started,
         LogOf(w, id))
  }

  function Moved(v: View, act: Act): Option<View>
    requires v.stage.Some?
  {
    match (v.stage.value, act)
    case (Begun, Fetch) =>
      Some(if v.login.Some? then v.(stage := Some(Fetched(v.login.value)))
        else v.(stage := None, log := v.log + [Unknown]))
    case (Fetched(login), CheckTime(now)) =>
      Some(v.(stage := Some(if now > login.deadline then Deleting(TimedOut) else Requesting)))
    case (Requesting, CannotBuild) => Some(v.(stage := None, log := v.log + [Unbuildable]))
    case (Requesting, Respond(a)) => Some(v.(stage := Some(AfterAnswer(a))))
    case (Failing, Count) =>
      var count := (if v.errors.Some? then v.errors.value else 0) + 1;
      Some(if count >= MAX_NETWORK_ERRORS then v.(errors := Some(count), stage := Some(Deleting(NetworkFailed)))
           else v.(errors := Some(count), stage := None, log := v.log + [StillPending(true)]))
    case (Deleting(out), Delete) => Some(v.(login := None, stage := Some(Clearing(out))))
    case (Clearing(out), Clear) => Some(v.(errors := None, stage := None, log := v.log + [out]))
    case _ => None
  }

  function NextView(v: View, m: Move): Option<View> {
    match m
    case StartLogin(login) => if v.started then None else Some(v.(login := Some(login), started := true))
    case BeginPoll => if v.stage.Some? then None else Some(v.(stage := Some(Begun)))
    case Step(act) => if v.stage.None? then None else Moved(v, act)
  }

  function RunView(v: View, ms: seq<Move>): Option<View> {
    if ms == [] then Some(v)
    else
      match RunView(v, ms[..|ms| - 1])
      case None => None
      case Some(u) => NextView(u, ms[|ms| - 1])
  }

  /** The moves of one attempt among all events. */
  function MovesOf(es: seq<Event>, id: string): seq<Move> {
    if es == [] then []
    else MovesOf(es[..|es| - 1], id) + if es[|es| - 1].id == id then [es[|es| - 1].move] else []
  }

  lemma OwnAct(w: World, id: string, act: Act)
    requires id in w.stages
    ensures Next(w, Event(id, Step(act))).Some? <==> Moved(ViewOf(w, id), act).Some?
    ensures Next(w, Event(id, Step(act))).Some? ==>
        ViewOf(Next(w, Event(id, Step(act))).value, id) == Moved(ViewOf(w, id), act).value
  {
    match w.stages[id] {
      case Begun =>
      case Fetched(_) =>
      case Requesting =>
      case Failing =>
      case Deleting(_) =>
      case Clearing(_) =>
    }
  }

  lemma OwnStep(w: World, e: Event)
    ensures Next(w, e).Some? <==> NextView(ViewOf(w, e.id), e.move).Some?
    ensures Next(w, e).Some? ==> ViewOf(Next(w, e).value, e.id) == NextView(ViewOf(w, e.id), e.move).value
  {
    if e.move.Step? && e.id in w.stages {
      OwnAct(w, e.id, e.move.act);
      assert Event(e.id, Step(e.move.act)) == e;
    }
  }

  lemma OthersStep(w: World, e: Event, id: string)
    requires id != e.id && Next(w, e).Some?
    ensures ViewOf(Next(w, e).value, id) == ViewOf(w, id)
  {
  }

  /** However polls interleave, what an attempt sees and returns is what it would have by itself. */
  lemma {:induction false} AttemptsDoNotInterfere(es: seq<Event>, id: string)
    requires RunAll(START, es).Some?
    ensures RunView(FRESH, MovesOf(es, id)) == Some(ViewOf(RunAll(START, es).value, id))
  {
    if es != [] {
      var front, e := es[..|es| - 1], es[|es| - 1];
      AttemptsDoNotInterfere(front, id);
      var w := RunAll(START, front).value;
      if e.id == id {
        OwnStep(w, e);
        assert (MovesOf(front, id) + [e.move])[..|MovesOf(front, id)|] == MovesOf(front, id);
      } else {
        OthersStep(w, e, id);
        assert MovesOf(es, id) == MovesOf(front, id);
      }
    }
  }

  // ---- what every run of an attempt keeps ----

  /** Transport failures since the last result that shows the transport sound. */
  function Trailing(log: seq<Result>): nat {
    if log == [] then 0
    else
      var r := log[|log| - 1];
      if r == StillPending(true) then Trailing(log[..|log| - 1]) + 1
      else if r == Unbuildable then Trailing(log[..|log| - 1])
      else 0
  }

  predicate Settled(log: seq<Result>) {
    exists i :: 0 <= i < |log| && log[i].Terminal()
  }

  /** A terminal result is followed by Unknown alone; the third failure running is terminal, the first two are not. */
  ghost predicate GoodLog(log: seq<Result>) {
    && (forall i, j :: 0 <= i < j < |log| && log[i].Terminal() ==> log[j] == Unknown)
    && (forall i :: 0 <= i < |log| && log[i] == NetworkFailed ==> Trailing(log[..i]) == 2)
    && (forall i :: 0 <= i < |log| && log[i] == StillPending(true) ==> Trailing(log[..i]) <= 1)
  }

  function Counted(n: nat): Option<nat> {
    if n == 0 then None else Some(n)
  }

  ghost predicate Inv(v: View) {
    && GoodLog(v.log)
    && (!v.started ==> !Settled(v.log))
    && (v.stage.None? || v.stage.value.Begun? ==>
          && (v.login.Some? <==> v.started && !Settled(v.log))
          && v.errors == Counted(Trailing(v.log)) && Trailing(v.log) <= 2
          && (v.errors.Some? ==> v.login.Some?))
    && (v.stage.Some? && !v.stage.value.Begun? ==> v.started && !Settled(v.log) && Trailing(v.log) <= 2)
    && (v.stage.Some? && (v.stage.value.Fetched? || v.stage.value.Requesting? || v.stage.value.Failing?) ==>
          v.login.Some? && v.errors == Counted(Trailing(v.log)))
    && (v.stage.Some? && v.stage.value.Deleting? ==>
          v.login.Some? && v.stage.value.out.Terminal()
            && (v.stage.value.out == NetworkFailed ==> Trailing(v.log) == 2))
    && (v.stage.Some? && v.stage.value.Clearing? ==>
          var out := v.stage.value.out;
          && (out.Terminal() || out == StillPending(false)) && (v.login.None? <==> out.Terminal())
          && (out == NetworkFailed ==> Trailing(v.log) == 2))
  }

  lemma LogGrows(log: seq<Result>, r: Result)
    requires GoodLog(log)
    requires Settled(log) ==> r == Unknown
    requires r == NetworkFailed ==> Trailing(log) == 2
    requires r == StillPending(true) ==> Trailing(log) <= 1
    ensures GoodLog(log + [r])
    ensures Settled(log + [r]) <==> Settled(log) || r.Terminal()
    ensures Trailing(log + [r]) == TrailingAfter(log, r)
  {
    var l := log + [r];
    assert l[..|log|] == log;
    assert forall i :: 0 <= i < |log| ==> l[i] == log[i] && l[..i] == log[..i];
    assert r.Terminal() ==> l[|log|].Terminal();
  }

  /** A step inside a poll. */
  lemma GoingOnKeepsInv(v: View, act: Act)
    requires Inv(v) && v.stage.Some? && Moved(v, act).Some? && Moved(v, act).value.stage.Some?
    ensures Inv(Moved(v, act).value)
  {
  }

  function TrailingAfter(log: seq<Result>, r: Result): nat {
    if r == StillPending(true) then Trailing(log) + 1 else if r == Unbuildable then Trailing(log) else 0
  }

  /** What may be returned, and what must be left when it is. */
  ghost predicate MayReturn(v: View, r: Result, u: View) {
    && (Settled(v.log) ==> r == Unknown)
    && (r == NetworkFailed ==> Trailing(v.log) == 2)
    && (r == StillPending(true) ==> Trailing(v.log) <= 1)
    && (r.Terminal() ==> v.started)
    && u.stage.None? && u.started == v.started && u.log == v.log + [r]
    && (u.login.Some? <==> u.started && !Settled(v.log) && !r.Terminal())
    && u.errors == Counted(TrailingAfter(v.log, r)) && TrailingAfter(v.log, r) <= 2
    && (u.errors.Some? ==> u.login.Some?)
  }

  lemma ReturnKeepsInv(v: View, r: Result, u: View)
    requires GoodLog(v.log) && (!v.started ==> !Settled(v.log)) && MayReturn(v, r, u)
    ensures Inv(u)
  {
    LogGrows(v.log, r);
  }

  lemma MayReturnThis(v: View, act: Act)
    requires Inv(v) && v.stage.Some? && Moved(v, act).Some? && Moved(v, act).value.stage.None?
    ensures var u := Moved(v, act).value; |u.log| == |v.log| + 1 && MayReturn(v, u.log[|v.log|], u)
  {
  }

  /** A step that ends a poll and so adds to the log. */
  lemma ReturningKeepsInv(v: View, act: Act)
    requires Inv(v) && v.stage.Some? && Moved(v, act).Some? && Moved(v, act).value.stage.None?
    ensures Inv(Moved(v, act).value)
  {
    MayReturnThis(v, act);
    ReturnKeepsInv(v, Moved(v, act).value.log[|v.log|], Moved(v, act).value);
  }

  lemma MoveKeepsInv(v: View, m: Move)
    requires Inv(v) && NextView(v, m).Some?
    ensures Inv(NextView(v, m).value)
  {
    if m.Step? {
      if NextView(v, m).value.stage.Some? {
        GoingOnKeepsInv(v, m.act);
      } else {
        ReturningKeepsInv(v, m.act);
      }
    }
  }

  lemma {:induction false} RunKeepsInv(ms: seq<Move>)
    requires RunView(FRESH, ms).Some?
    ensures Inv(RunView(FRESH, ms).value)
  {
    if ms != [] {
      RunKeepsInv(ms[..|ms| - 1]);
      MoveKeepsInv(RunView(FRESH, ms[..|ms| - 1]).value, ms[|ms| - 1]);
    }
  }

  /** Over any interleaved run: an attempt's first terminal result is its last word, so it succeeds at
      most once; it fails for the network at the third failure running and not before. */
  lemma AttemptsEndOnce(es: seq<Event>, id: string)
    requires RunAll(START, es).Some?
    ensures GoodLog(LogOf(RunAll(START, es).value, id))
    ensures var log := LogOf(RunAll(START, es).value, id);
      forall i, j :: 0 <= i < |log| && 0 <= j < |log| && log[i].Succeeded? && log[j].Succeeded? ==> i == j
  {
    AttemptsDoNotInterfere(es, id);
    RunKeepsInv(MovesOf(es, id));
  }

  /** Whenever no poll is under way: attempts not yet over are pending, and failure counts are kept only
      for pending attempts, at one or two. */
  lemma AtRestCountsArePending(es: seq<Event>)
    requires RunAll(START, es).Some? && RunAll(START, es).value.stages == map[]
    ensures var w := RunAll(START, es).value;
      && (forall id :: id in w.shared.pending <==> id in w.started && !Settled(LogOf(w, id)))
      && (forall id :: id in w.shared.errors ==> id in w.shared.pending && 1 <= w.shared.errors[id] <= 2)
  {
    var w := RunAll(START, es).value;
    forall id ensures Inv(ViewOf(w, id)) {
      AttemptsDoNotInterfere(es, id);
      RunKeepsInv(MovesOf(es, id));
    }
    assert forall id :: id in w.shared.pending <==> ViewOf(w, id).login.Some?;
    assert forall id :: id in w.shared.errors <==> ViewOf(w, id).errors.Some?;
  }
}
