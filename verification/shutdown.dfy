// Three goroutines share the request-body pipe and kv.mu.  The initial writer
// sends the first frame without kv.mu; the heartbeat and the read loop's
// replies hold kv.mu across their pipe writes; the read loop's deferred calls
// shut everything down.
module Shutdown {
  import opened Basics
  import opened Frames
  import opened Pipes

  datatype Pc =
    | Idle                       // Reader: reading the response; Heartbeat: waiting for a tick
    | LockMu(raw: Message)         // in kvWriter.write, before kv.mu
    | EnterPipe(raw: Message)      // in pw.Write, before the check for a closed pipe
    | AwaitPipe(raw: Message)      // waiting for the pipe's own write lock
    | Writing                    // owns the pipe
    | Parked                     // Initial: frame written, waiting for release
    | RecordErr                  // Initial: in recordWriteErr, before kv.mu
    | CloseWriteEnd              // Initial: the deferred pw.Close
    | Deferred(next: nat)        // Reader: running its deferred calls
    | Exited

  datatype DeferredCall = CloseRelease | CloseReadEnd | AwaitWriter | CloseKv | CloseHeartbeat

  /** The order in which the deferred calls take effect. */
  const DEFERRED: seq<DeferredCall> := [CloseRelease, CloseReadEnd, AwaitWriter, CloseKv, CloseHeartbeat]

  datatype State = State(
    reader: Pc,
    initial: Pc,
    heartbeat: Pc,
    mu: Option<Actor>,
    pipe: Pipe,
    released: bool,
    heartbeatDone: bool,
    kvClosed: bool,
    writeErr: bool
  )

  datatype Step =
    | StartReply(raw: Message)
    | Stop                      // the read loop returns
    | Tick(raw: Message)
    | HeartbeatExit
    | TakeLock(who: Actor)
    | EnterWrite(who: Actor)
    | OwnPipe(who: Actor)
    | Deliver(n: nat)
    | WriteDone
    | WriteFails
    | SeeRelease
    | Record
    | CloseBody
    | NextDeferred
    | TransportStops
    | TransportCloses

  predicate Init(s: State) {
    && s.reader == Idle && s.heartbeat == Idle
    && s.initial.EnterPipe?
    && s.mu == None && s.pipe == Pipe(None, false, true, [], [], None)
    && !s.released && !s.heartbeatDone && !s.kvClosed && !s.writeErr
  }

  function At(s: State, a: Actor): Pc {
    match a
    case Reader => s.reader
    case Initial => s.initial
    case Heartbeat => s.heartbeat
  }

  function Goto(s: State, a: Actor, pc: Pc): State {
    match a
    case Reader => s.(reader := pc)
    case Initial => s.(initial := pc)
    case Heartbeat => s.(heartbeat := pc)
  }

  /** Where a write's return leaves its caller: a kv writer also gives up kv.mu. */
  function Returned(s: State, a: Actor, ok: bool): State {
    match a
    case Initial => s.(initial := if ok then Parked else RecordErr)
    case Reader => s.(mu := None, reader := if ok then Idle else Deferred(0))
    case Heartbeat => s.(mu := None, heartbeat := if ok then Idle else Exited)
  }

  // One function per atomic step; None when the step is not enabled.

  function Lock(s: State, a: Actor): Option<State> {
    var pc := At(s, a);
    if pc.LockMu? && s.mu == None then
      Some(if s.kvClosed then Returned(s, a, false) else Goto(s.(mu := Some(a)), a, EnterPipe(pc.raw)))
    else None
  }

  function Enter(s: State, a: Actor): Option<State> {
    var pc := At(s, a);
    if pc.EnterPipe? then
      Some(if s.pipe.done then Returned(s, a, false) else Goto(s, a, AwaitPipe(pc.raw)))
    else None
  }

  function Acquire(s: State, a: Actor): Option<State> {
    var pc := At(s, a);
    if pc.AwaitPipe? && Own(s.pipe, a, pc.raw).Some? then
      Some(Goto(s.(pipe := Own(s.pipe, a, pc.raw).value), a, Writing))
    else None
  }

  function Return(s: State, ok: bool): Option<State> {
    var p := if ok then Complete(s.pipe) else Break(s.pipe);
    if p.Some? then Some(Returned(s.(pipe := p.value), s.pipe.current.value.who, ok)) else None
  }

  predicate Enabled(s: State, call: DeferredCall) {
    match call
    case AwaitWriter => s.initial.Exited?
    case CloseKv => s.mu == None
    case _ => true
  }

  function Effect(s: State, call: DeferredCall): State {
    match call
    case CloseRelease => s.(released := true)
    case CloseReadEnd => s.(pipe := s.pipe.(done := true))
    case AwaitWriter => s
    case CloseKv => s.(kvClosed := true)
    case CloseHeartbeat => s.(heartbeatDone := true)
  }

  function RunDeferred(defers: seq<DeferredCall>, s: State): Option<State> {
    if !s.reader.Deferred? then None
    else if s.reader.next >= |defers| then Some(s.(reader := Exited))
    else if Enabled(s, defers[s.reader.next]) then
      Some(Effect(s, defers[s.reader.next]).(reader := Deferred(s.reader.next + 1)))
    else None
  }

  /** Steps that move one program counter and touch no lock. */
  function Local(s: State, step: Step): Option<State> {
    match step
    case StartReply(raw) =>
      if s.reader.Idle? then Some(s.(reader := LockMu(raw))) else None
    case Stop =>
      if s.reader.Idle? then Some(s.(reader := Deferred(0))) else None
    case Tick(raw) =>
      if s.heartbeat.Idle? then Some(s.(heartbeat := LockMu(raw))) else None
    case HeartbeatExit =>  // heartbeatDone closed, or the exchange's context cancelled
      if s.heartbeat.Idle? then Some(s.(heartbeat := Exited)) else None
    case SeeRelease =>
      if s.initial.Parked? && s.released then Some(s.(initial := CloseWriteEnd)) else None
    case Record =>
      if s.initial.RecordErr? && s.mu == None then Some(s.(writeErr := true, initial := CloseWriteEnd)) else None
    case CloseBody =>
      if s.initial.CloseWriteEnd? then Some(s.(pipe := s.pipe.(done := true), initial := Exited)) else None
    case _ => None
  }

  /** What the transport may do with the body: read on, stop reading, or close it. */
  function Transport(s: State, step: Step): Option<State> {
    match step
    case Deliver(n) =>
      if Take(s.pipe, n).Some? then Some(s.(pipe := Take(s.pipe, n).value)) else None
    case TransportStops =>
      if s.pipe.draining then Some(s.(pipe := s.pipe.(draining := false))) else None
    case TransportCloses =>
      if !s.pipe.done then Some(s.(pipe := s.pipe.(done := true))) else None
    case _ => None
  }

  function Next(defers: seq<DeferredCall>, s: State, step: Step): Option<State> {
    match step
    case TakeLock(a) => Lock(s, a)
    case EnterWrite(a) => Enter(s, a)
    case OwnPipe(a) => Acquire(s, a)
    case WriteDone => Return(s, true)
    case WriteFails => Return(s, false)
    case NextDeferred => RunDeferred(defers, s)
    case Deliver(_) => Transport(s, step)
    case TransportStops => Transport(s, step)
    case TransportCloses => Transport(s, step)
    case _ => Local(s, step)
  }

  // ---- the lock discipline, kept by every step ----

  predicate HoldsMu(a: Actor, pc: Pc) {
    a != Initial && (pc.EnterPipe? || pc.AwaitPipe? || pc.Writing?)
  }

  predicate Shape(a: Actor, pc: Pc) {
    match a
    case Reader => !pc.Parked? && !pc.RecordErr? && !pc.CloseWriteEnd?
    case Initial => !pc.Idle? && !pc.LockMu? && !pc.Deferred?
    case Heartbeat => !pc.Parked? && !pc.RecordErr? && !pc.CloseWriteEnd? && !pc.Deferred?
  }

  predicate ActorInv(s: State, a: Actor) {
    && Shape(a, At(s, a))
    && (s.mu == Some(a) <==> HoldsMu(a, At(s, a)))
    && (s.pipe.current.Some? && s.pipe.current.value.who == a <==> At(s, a).Writing?)
  }

  /** Who owns kv.mu and the pipe, and what each goroutine can be doing. */
  predicate Locks(s: State) {
    && ActorInv(s, Reader) && ActorInv(s, Initial) && ActorInv(s, Heartbeat)
    && (s.initial.RecordErr? || s.initial.Exited? ==> s.pipe.done)
    && (s.kvClosed ==> s.mu == None)
  }

  lemma LockKeepsLocks(s: State, a: Actor)
    requires Locks(s) && Lock(s, a).Some?
    ensures Locks(Lock(s, a).value)
  {
  }

  lemma EnterKeepsLocks(s: State, a: Actor)
    requires Locks(s) && Enter(s, a).Some?
    ensures Locks(Enter(s, a).value)
  {
  }

  lemma AcquireKeepsLocks(s: State, a: Actor)
    requires Locks(s) && Acquire(s, a).Some?
    ensures Locks(Acquire(s, a).value)
  {
  }

  lemma ReturnKeepsLocks(s: State, ok: bool)
    requires Locks(s) && Return(s, ok).Some?
    ensures Locks(Return(s, ok).value)
  {
  }

  lemma LocalKeepsLocks(s: State, step: Step)
    requires Locks(s) && Local(s, step).Some?
    ensures Locks(Local(s, step).value)
  {
  }

  lemma TransportKeepsLocks(s: State, step: Step)
    requires Locks(s) && Transport(s, step).Some?
    ensures Locks(Transport(s, step).value)
  {
  }

  lemma EffectKeepsLocks(s: State, call: DeferredCall, pc: Pc)
    requires Locks(s) && s.reader.Deferred? && Enabled(s, call) && (pc.Deferred? || pc.Exited?)
    ensures Locks(Effect(s, call).(reader := pc))
  {
    match call {
      case CloseRelease =>
      case CloseReadEnd =>
      case AwaitWriter =>
      case CloseKv =>
      case CloseHeartbeat =>
    }
  }

  lemma ReaderExits(s: State)
    requires Locks(s) && s.reader.Deferred?
    ensures Locks(s.(reader := Exited))
  {
  }

  lemma DeferredKeepsLocks(defers: seq<DeferredCall>, s: State)
    requires Locks(s) && RunDeferred(defers, s).Some?
    ensures Locks(RunDeferred(defers, s).value)
  {
    if s.reader.next < |defers| {
      EffectKeepsLocks(s, defers[s.reader.next], Deferred(s.reader.next + 1));
    } else {
      ReaderExits(s);
    }
  }

  lemma NextKeepsLocks(defers: seq<DeferredCall>, s: State, step: Step)
    requires Locks(s) && Next(defers, s, step).Some?
    ensures Locks(Next(defers, s, step).value)
  {
    match step {
      case TakeLock(a) => LockKeepsLocks(s, a);
      case EnterWrite(a) => EnterKeepsLocks(s, a);
      case OwnPipe(a) => AcquireKeepsLocks(s, a);
      case WriteDone => ReturnKeepsLocks(s, true);
      case WriteFails => ReturnKeepsLocks(s, false);
      case NextDeferred => DeferredKeepsLocks(defers, s);
      case Deliver(_) => TransportKeepsLocks(s, step);
      case TransportStops => TransportKeepsLocks(s, step);
      case TransportCloses => TransportKeepsLocks(s, step);
      case _ => LocalKeepsLocks(s, step);
    }
  }

  /** What a step does to the pipe: one of its own operations, closing an end, or nothing. */
  lemma PipeAfter(defers: seq<DeferredCall>, s: State, step: Step)
    requires Next(defers, s, step).Some?
    ensures var p := Next(defers, s, step).value.pipe;
            match step
            case OwnPipe(a) => At(s, a).AwaitPipe? && Own(s.pipe, a, At(s, a).raw) == Some(p)
            case WriteDone => Complete(s.pipe) == Some(p)
            case WriteFails => Break(s.pipe) == Some(p)
            case Deliver(n) => Take(s.pipe, n) == Some(p)
            case _ => p == s.pipe || p == s.pipe.(done := true) || p == s.pipe.(draining := false)
  {
    match step {
      case OwnPipe(a) =>
      case WriteDone =>
      case WriteFails =>
      case Deliver(n) =>
      case NextDeferred =>
      case _ =>
    }
  }

  /** No step, whoever takes it, ever breaks the frames on the wire. */
  lemma NextKeepsFrames(defers: seq<DeferredCall>, s: State, step: Step)
    requires PipeInv(s.pipe) && Next(defers, s, step).Some?
    ensures PipeInv(Next(defers, s, step).value.pipe)
  {
    PipeAfter(defers, s, step);
    if step.OwnPipe? {
      OwnKeeps(s.pipe, step.who, At(s, step.who).raw);
    } else if step.WriteDone? {
      CompleteKeeps(s.pipe);
    } else if step.WriteFails? {
      BreakKeeps(s.pipe);
    } else if step.Deliver? {
      TakeKeeps(s.pipe, step.n);
    } else {
      ClosingKeeps(s.pipe);
    }
  }

  /** After kvWriter is closed no heartbeat and no reply puts another byte on the wire. */
  lemma NothingAfterClose(defers: seq<DeferredCall>, s: State, step: Step)
    requires Locks(s) && s.kvClosed && Next(defers, s, step).Some?
    ensures var t := Next(defers, s, step).value;
            t.kvClosed && (t.pipe.wire != s.pipe.wire ==> step.Deliver? && s.pipe.current.value.who == Initial)
  {
    PipeAfter(defers, s, step);
  }

  /** Once an end of the pipe is closed nobody new queues for it: a write begun then fails at once. */
  lemma ClosedPipeTakesNoNewWriter(defers: seq<DeferredCall>, s: State, step: Step, a: Actor)
    requires Locks(s) && s.pipe.done && Next(defers, s, step).Some?
    ensures At(Next(defers, s, step).value, a).AwaitPipe? ==> At(s, a).AwaitPipe?
  {
    match step {
      case TakeLock(_) =>
      case EnterWrite(_) =>
      case OwnPipe(_) =>
      case WriteDone =>
      case WriteFails =>
      case NextDeferred => DeferredLeavesOthers(defers, s, a);
      case _ =>
    }
  }

  lemma DeferredLeavesOthers(defers: seq<DeferredCall>, s: State, a: Actor)
    requires RunDeferred(defers, s).Some?
    ensures a == Reader || At(RunDeferred(defers, s).value, a) == At(s, a)
    ensures !At(RunDeferred(defers, s).value, Reader).AwaitPipe?
  {
  }

  // ---- the deferred calls, in the order written ----

  /** How far the read loop has come through its deferred calls. */
  function Done(s: State): nat {
    match s.reader
    case Deferred(k) => k
    case Exited => |DEFERRED|
    case _ => 0
  }

  predicate Ordered(s: State) {
    && (Done(s) >= 1 ==> s.released)
    && (Done(s) >= 2 ==> s.pipe.done)
    && (Done(s) >= 3 ==> s.initial.Exited?)
    && (s.kvClosed <==> Done(s) >= 4)
    && (Done(s) >= 5 ==> s.heartbeatDone)
    && Done(s) <= 5
  }

  /** Progress of the shutdown is neither made nor undone. */
  predicate SameStage(s: State, t: State) {
    && Done(t) == Done(s) && t.released == s.released && t.kvClosed == s.kvClosed && t.heartbeatDone == s.heartbeatDone
    && (s.pipe.done ==> t.pipe.done) && (s.initial.Exited? ==> t.initial.Exited?)
  }

  lemma LockSameStage(s: State, a: Actor)
    requires Locks(s) && Lock(s, a).Some?
    ensures SameStage(s, Lock(s, a).value)
  {
  }

  lemma EnterSameStage(s: State, a: Actor)
    requires Locks(s) && Enter(s, a).Some?
    ensures SameStage(s, Enter(s, a).value)
  {
  }

  lemma AcquireSameStage(s: State, a: Actor)
    requires Locks(s) && Acquire(s, a).Some?
    ensures SameStage(s, Acquire(s, a).value)
  {
  }

  lemma ReturnSameStage(s: State, ok: bool)
    requires Locks(s) && Return(s, ok).Some?
    ensures SameStage(s, Return(s, ok).value)
  {
  }

  lemma LocalSameStage(s: State, step: Step)
    requires Locks(s) && Local(s, step).Some?
    ensures SameStage(s, Local(s, step).value)
  {
  }

  lemma OthersLeaveStage(defers: seq<DeferredCall>, s: State, step: Step)
    requires Locks(s) && !step.NextDeferred? && Next(defers, s, step).Some?
    ensures SameStage(s, Next(defers, s, step).value)
  {
    match step {
      case TakeLock(a) => LockSameStage(s, a);
      case EnterWrite(a) => EnterSameStage(s, a);
      case OwnPipe(a) => AcquireSameStage(s, a);
      case WriteDone => ReturnSameStage(s, true);
      case WriteFails => ReturnSameStage(s, false);
      case Deliver(_) =>
      case TransportStops =>
      case TransportCloses =>
      case _ => LocalSameStage(s, step);
    }
  }

  lemma NextKeepsOrder(s: State, step: Step)
    requires Locks(s) && Ordered(s) && Next(DEFERRED, s, step).Some?
    ensures Ordered(Next(DEFERRED, s, step).value)
  {
    if step.NextDeferred? {
      var k := s.reader.next;
      assert k == 0 || k == 1 || k == 2 || k == 3 || k == 4 || k == 5;
    } else {
      OthersLeaveStage(DEFERRED, s, step);
    }
  }

  /** When the call has returned, the initial writer is gone; only the heartbeat may be left,
      it holds no lock, and it was told to stop. */
  lemma WriterExitsBeforeReturn(s: State)
    requires Locks(s) && Ordered(s) && s.reader.Exited?
    ensures s.initial.Exited? && s.kvClosed && s.heartbeatDone && s.mu == None
    ensures s.heartbeat.Idle? || s.heartbeat.LockMu? || s.heartbeat.Exited?
  {
  }

  // ---- no deadlock ----

  predicate Final(s: State) {
    s.reader.Exited? && s.initial.Exited? && s.heartbeat.Exited?
  }

  /** Steps the three goroutines take by themselves: no timer, no server, no transport. */
  predicate OwnStep(s: State, step: Step) {
    match step
    case HeartbeatExit => s.heartbeatDone
    case StartReply(_) => false
    case Stop => false
    case Tick(_) => false
    case Deliver(_) => false
    case TransportStops => false
    case TransportCloses => false
    case _ => true
  }

  /** With the pipe closed, whoever owns it can return. */
  lemma OwnerReturns(s: State, a: Actor) returns (step: Step)
    requires Locks(s) && PipeInv(s.pipe) && s.pipe.done && At(s, a).Writing?
    ensures OwnStep(s, step) && Next(DEFERRED, s, step).Some?
  {
    var c := s.pipe.current.value;
    step := if c.sent == 5 + |c.raw| then WriteDone else WriteFails;
  }

  /** With the pipe closed, whoever is inside a pipe write can move. */
  lemma InsideWriteMoves(s: State, a: Actor) returns (step: Step)
    requires Locks(s) && PipeInv(s.pipe) && s.pipe.done
    requires At(s, a).EnterPipe? || At(s, a).AwaitPipe? || At(s, a).Writing?
    ensures OwnStep(s, step) && Next(DEFERRED, s, step).Some?
  {
    if At(s, a).EnterPipe? {
      step := EnterWrite(a);
    } else if At(s, a).AwaitPipe? && s.pipe.current == None {
      step := OwnPipe(a);
    } else {
      step := OwnerReturns(s, s.pipe.current.value.who);
    }
  }

  lemma HolderMoves(s: State) returns (step: Step)
    requires Locks(s) && PipeInv(s.pipe) && s.pipe.done && s.mu.Some?
    ensures OwnStep(s, step) && Next(DEFERRED, s, step).Some?
  {
    step := InsideWriteMoves(s, s.mu.value);
  }

  lemma WriterMoves(s: State) returns (step: Step)
    requires Locks(s) && PipeInv(s.pipe) && s.pipe.done && s.released && !s.initial.Exited?
    ensures OwnStep(s, step) && Next(DEFERRED, s, step).Some?
  {
    match s.initial {
      case Parked => step := SeeRelease;
      case CloseWriteEnd => step := CloseBody;
      case RecordErr =>
        if s.mu == None {
          step := Record;
        } else {
          step := HolderMoves(s);
        }
      case _ => step := InsideWriteMoves(s, Initial);
    }
  }

  /** From every state of a shutdown, some goroutine can move until all three have exited. */
  lemma ShutdownNeverDeadlocks(s: State) returns (step: Step)
    requires Locks(s) && PipeInv(s.pipe) && Ordered(s)
    requires s.reader.Deferred? || s.reader.Exited?
    requires !Final(s)
    ensures OwnStep(s, step) && Next(DEFERRED, s, step).Some?
  {
    if s.reader.Exited? {
      WriterExitsBeforeReturn(s);
      step := if s.heartbeat.Idle? then HeartbeatExit else TakeLock(Heartbeat);
    } else {
      var k := s.reader.next;
      step := NextDeferred;
      if k == 2 && !s.initial.Exited? {
        step := WriterMoves(s);
      } else if k == 3 && s.mu.Some? {
        step := HolderMoves(s);
      }
    }
  }

  // ---- and it ends ----

  predicate FullyTaken(p: Pipe) {
    p.current.Some? && p.current.value.sent == 5 + |p.current.value.raw|
  }

  function Rank(pc: Pc, full: bool): nat {
    match pc
    case Writing => if full then 10 else 5
    case Idle => 9
    case LockMu(_) => 8
    case EnterPipe(_) => 7
    case AwaitPipe(_) => 6
    case Parked => 4
    case RecordErr => 4
    case CloseWriteEnd => 3
    case Deferred(_) => 1
    case Exited => 0
  }

  function ReaderRank(defers: seq<DeferredCall>, pc: Pc, full: bool): nat {
    match pc
    case Deferred(k) => if k <= |defers| then |defers| + 1 - k else 1
    case Exited => 0
    case _ => |defers| + 2 + Rank(pc, full)
  }

  /** Bounds the steps left once either end of the pipe is closed. */
  function Remaining(defers: seq<DeferredCall>, s: State): (n: nat)
    ensures n <= |defers| + 33
  {
    var full := FullyTaken(s.pipe);
    ReaderRank(defers, s.reader, full) + Rank(s.initial, full) + Rank(s.heartbeat, full)
      + if s.pipe.draining then 1 else 0
  }

  lemma LockDecreases(defers: seq<DeferredCall>, s: State, a: Actor)
    requires Locks(s) && s.pipe.done && Lock(s, a).Some?
    ensures Remaining(defers, Lock(s, a).value) < Remaining(defers, s)
  {
  }

  lemma EnterDecreases(defers: seq<DeferredCall>, s: State, a: Actor)
    requires Locks(s) && s.pipe.done && Enter(s, a).Some?
    ensures Remaining(defers, Enter(s, a).value) < Remaining(defers, s)
  {
  }

  lemma AcquireDecreases(defers: seq<DeferredCall>, s: State, a: Actor)
    requires Locks(s) && s.pipe.done && Acquire(s, a).Some?
    ensures Remaining(defers, Acquire(s, a).value) < Remaining(defers, s)
  {
  }

  lemma ReturnDecreases(defers: seq<DeferredCall>, s: State, ok: bool)
    requires Locks(s) && s.pipe.done && Return(s, ok).Some?
    ensures Remaining(defers, Return(s, ok).value) < Remaining(defers, s)
  {
    assert At(s, s.pipe.current.value.who).Writing?;
    match s.pipe.current.value.who {
      case Reader => assert !s.initial.Writing? && !s.heartbeat.Writing?;
      case Initial => assert !s.reader.Writing? && !s.heartbeat.Writing?;
      case Heartbeat => assert !s.reader.Writing? && !s.initial.Writing?;
    }
  }

  lemma LocalDecreases(defers: seq<DeferredCall>, s: State, step: Step)
    requires Locks(s) && s.pipe.done && Local(s, step).Some?
    ensures Remaining(defers, Local(s, step).value) < Remaining(defers, s)
  {
  }

  lemma TransportDecreases(defers: seq<DeferredCall>, s: State, step: Step)
    requires Locks(s) && s.pipe.done && Transport(s, step).Some?
    ensures Remaining(defers, Transport(s, step).value) < Remaining(defers, s)
  {
  }

  lemma DeferredDecreases(defers: seq<DeferredCall>, s: State)
    requires RunDeferred(defers, s).Some? && s.pipe.done
    ensures Remaining(defers, RunDeferred(defers, s).value) < Remaining(defers, s)
  {
  }

  lemma StaysClosed(defers: seq<DeferredCall>, s: State, step: Step)
    requires s.pipe.done && Next(defers, s, step).Some?
    ensures Next(defers, s, step).value.pipe.done
  {
    PipeAfter(defers, s, step);
  }

  /** Once the pipe is closed every step, by anyone, brings the end closer. */
  lemma EveryStepCounts(defers: seq<DeferredCall>, s: State, step: Step, t: State)
    requires Locks(s) && s.pipe.done && Next(defers, s, step) == Some(t)
    ensures Remaining(defers, t) < Remaining(defers, s)
  {
    match step {
      case TakeLock(a) => LockDecreases(defers, s, a);
      case EnterWrite(a) => EnterDecreases(defers, s, a);
      case OwnPipe(a) => AcquireDecreases(defers, s, a);
      case WriteDone => ReturnDecreases(defers, s, true);
      case WriteFails => ReturnDecreases(defers, s, false);
      case NextDeferred => DeferredDecreases(defers, s);
      case Deliver(_) => TransportDecreases(defers, s, step);
      case TransportStops => TransportDecreases(defers, s, step);
      case TransportCloses => TransportDecreases(defers, s, step);
      case _ => LocalDecreases(defers, s, step);
    }
  }

  // ---- whole runs ----

  ghost predicate IsRun(defers: seq<DeferredCall>, states: seq<State>, steps: seq<Step>) {
    && |states| == |steps| + 1
    && forall i :: 0 <= i < |steps| ==> Next(defers, states[i], steps[i]) == Some(states[i + 1])
  }

  lemma {:induction false} RunInvariants(defers: seq<DeferredCall>, states: seq<State>, steps: seq<Step>, i: nat)
    requires IsRun(defers, states, steps) && Init(states[0]) && i < |states|
    ensures Locks(states[i]) && PipeInv(states[i].pipe)
    ensures defers == DEFERRED ==> Ordered(states[i])
  {
    if i == 0 {
      assert Framed([]) == [];
    } else {
      RunInvariants(defers, states, steps, i - 1);
      assert Next(defers, states[i - 1], steps[i - 1]) == Some(states[i]);
      NextKeepsLocks(defers, states[i - 1], steps[i - 1]);
      NextKeepsFrames(defers, states[i - 1], steps[i - 1]);
      if defers == DEFERRED {
        NextKeepsOrder(states[i - 1], steps[i - 1]);
      }
    }
  }

  lemma StepInRun(defers: seq<DeferredCall>, states: seq<State>, steps: seq<Step>, i: nat)
    requires IsRun(defers, states, steps) && Init(states[0]) && i < |steps| && states[i].pipe.done
    ensures states[i + 1].pipe.done && Remaining(defers, states[i + 1]) < Remaining(defers, states[i])
  {
    RunInvariants(defers, states, steps, i);
    assert Next(defers, states[i], steps[i]) == Some(states[i + 1]);
    StaysClosed(defers, states[i], steps[i]);
    EveryStepCounts(defers, states[i], steps[i], states[i + 1]);
  }

  lemma {:induction false} StepsLeft(defers: seq<DeferredCall>, states: seq<State>, steps: seq<Step>, i: nat, j: nat)
    requires IsRun(defers, states, steps) && Init(states[0]) && i <= j < |states| && states[i].pipe.done
    ensures states[j].pipe.done && Remaining(defers, states[j]) + (j - i) <= Remaining(defers, states[i])
    decreases j
  {
    if i < j {
      StepsLeft(defers, states, steps, i, j - 1);
      StepInRun(defers, states, steps, j - 1);
    }
  }

  /** Every run of the exchange: once the deferred calls have begun, a run that can go no
      further has all three goroutines exited, and once the pipe is closed it has at most
      38 steps to get there.  The two calls before that never block. */
  lemma EveryShutdownCompletes(states: seq<State>, steps: seq<Step>, i: nat)
    requires IsRun(DEFERRED, states, steps) && Init(states[0]) && i < |states|
    requires states[i].reader.Deferred? || states[i].reader.Exited?
    ensures states[i].reader.Deferred? && states[i].reader.next < 2 ==> Next(DEFERRED, states[i], NextDeferred).Some?
    ensures states[i].pipe.done ==> |steps| - i <= |DEFERRED| + 33
    ensures (forall step :: OwnStep(states[i], step) ==> Next(DEFERRED, states[i], step).None?) ==> Final(states[i])
  {
    RunInvariants(DEFERRED, states, steps, i);
    if states[i].pipe.done {
      StepsLeft(DEFERRED, states, steps, i, |steps|);
    }
    if !Final(states[i]) {
      var step := ShutdownNeverDeadlocks(states[i]);
    }
  }

  /** In every run, what the server parses off the wire is the messages written, in order. */
  lemma EveryRunKeepsFramesWhole(defers: seq<DeferredCall>, states: seq<State>, steps: seq<Step>, i: nat)
    returns (raw: Message, k: nat)
    requires IsRun(defers, states, steps) && Init(states[0]) && i < |states|
    ensures k <= 5 + |raw|
    ensures states[i].pipe.wire == Framed(states[i].pipe.written) + Frame(raw)[..k]
    ensures Parse(states[i].pipe.wire) == states[i].pipe.written + if k == 5 + |raw| then [raw] else []
  {
    RunInvariants(defers, states, steps, i);
    raw, k := WholeFramesOnTheWire(states[i].pipe);
  }

  // ---- a first write that fails is on record ----

  /** Where the initial writer is, its frame is still to be written, written, or noted as failed. */
  predicate FirstAccountedFor(s: State, raw: Message) {
    match s.initial
    case EnterPipe(r) => r == raw
    case AwaitPipe(r) => r == raw
    case Writing => s.pipe.current.Some? && s.pipe.current.value.raw == raw
    case Parked => raw in s.pipe.written
    case RecordErr => true
    case _ => s.writeErr || raw in s.pipe.written
  }

  lemma LocalKeepsAccount(s: State, step: Step, raw: Message)
    requires Locks(s) && FirstAccountedFor(s, raw) && Local(s, step).Some?
    ensures FirstAccountedFor(Local(s, step).value, raw)
  {
  }

  lemma OtherStepsKeepAccount(defers: seq<DeferredCall>, s: State, step: Step, raw: Message)
    requires Locks(s) && FirstAccountedFor(s, raw) && Next(defers, s, step).Some?
    requires step.TakeLock? || step.Deliver? || step.TransportStops? || step.TransportCloses? || step.NextDeferred?
    ensures FirstAccountedFor(Next(defers, s, step).value, raw)
  {
    match step {
      case TakeLock(a) =>
      case NextDeferred => DeferredKeepsAccount(defers, s, raw);
      case _ =>
    }
  }

  lemma DeferredKeepsAccount(defers: seq<DeferredCall>, s: State, raw: Message)
    requires FirstAccountedFor(s, raw) && RunDeferred(defers, s).Some?
    ensures FirstAccountedFor(RunDeferred(defers, s).value, raw)
  {
  }

  lemma EnterKeepsAccount(s: State, a: Actor, raw: Message)
    requires Locks(s) && FirstAccountedFor(s, raw) && Enter(s, a).Some?
    ensures FirstAccountedFor(Enter(s, a).value, raw)
  {
  }

  lemma AcquireKeepsAccount(s: State, a: Actor, raw: Message)
    requires Locks(s) && FirstAccountedFor(s, raw) && Acquire(s, a).Some?
    ensures FirstAccountedFor(Acquire(s, a).value, raw)
  {
  }

  lemma ReturnKeepsAccount(s: State, ok: bool, raw: Message)
    requires Locks(s) && FirstAccountedFor(s, raw) && Return(s, ok).Some?
    ensures FirstAccountedFor(Return(s, ok).value, raw)
  {
    var c := s.pipe.current.value;
    assert At(s, c.who).Writing?;
    if ok {
      assert Return(s, ok).value.pipe.written == s.pipe.written + [c.raw];
    } else {
      assert Return(s, ok).value.pipe.written == s.pipe.written;
    }
  }

  lemma NextKeepsAccount(defers: seq<DeferredCall>, s: State, step: Step, raw: Message)
    requires Locks(s) && FirstAccountedFor(s, raw) && Next(defers, s, step).Some?
    ensures FirstAccountedFor(Next(defers, s, step).value, raw)
  {
    match step {
      case EnterWrite(a) => EnterKeepsAccount(s, a, raw);
      case OwnPipe(a) => AcquireKeepsAccount(s, a, raw);
      case WriteDone => ReturnKeepsAccount(s, true, raw);
      case WriteFails => ReturnKeepsAccount(s, false, raw);
      case TakeLock(_) => OtherStepsKeepAccount(defers, s, step, raw);
      case Deliver(_) => OtherStepsKeepAccount(defers, s, step, raw);
      case TransportStops => OtherStepsKeepAccount(defers, s, step, raw);
      case TransportCloses => OtherStepsKeepAccount(defers, s, step, raw);
      case NextDeferred => OtherStepsKeepAccount(defers, s, step, raw);
      case _ => LocalKeepsAccount(s, step, raw);
    }
  }

  /** In every run the initial writer exits only with its frame written, or its failure on record. */
  lemma {:induction false} FirstWriteIsAccountedFor(defers: seq<DeferredCall>, states: seq<State>, steps: seq<Step>,
        i: nat)
    requires IsRun(defers, states, steps) && Init(states[0]) && i < |states|
    ensures FirstAccountedFor(states[i], states[0].initial.raw)
    ensures states[i].initial.Exited? && !states[i].writeErr ==> states[0].initial.raw in states[i].pipe.written
  {
    if i > 0 {
      FirstWriteIsAccountedFor(defers, states, steps, i - 1);
      RunInvariants(defers, states, steps, i - 1);
      assert Next(defers, states[i - 1], steps[i - 1]) == Some(states[i]);
      NextKeepsAccount(defers, states[i - 1], steps[i - 1], states[0].initial.raw);
    }
  }

  // ---- why the order of the deferred calls matters ----

  const WITHOUT_CLOSE: seq<DeferredCall> := [CloseRelease, AwaitWriter, CloseKv, CloseHeartbeat]

  predicate Stuck(s: State) {
    && s.reader == Deferred(1) && s.initial == Writing && s.heartbeat.AwaitPipe? && s.mu == Some(Heartbeat)
    && s.pipe.current.Some? && s.pipe.current.value.who == Initial && s.pipe.current.value.sent == 0
    && !s.pipe.draining && !s.pipe.done
  }

  lemma NothingMoves(s: State, step: Step)
    requires Stuck(s) && step != TransportCloses
    ensures Next(WITHOUT_CLOSE, s, step).None?
  {
  }

  lemma RunsJoin(defers: seq<DeferredCall>, states: seq<State>, steps: seq<Step>, more: seq<State>, rest: seq<Step>)
    requires IsRun(defers, states, steps) && IsRun(defers, more, rest) && states[|steps|] == more[0]
    ensures IsRun(defers, states + more[1..], steps + rest)
    ensures (states + more[1..])[0] == states[0] && (states + more[1..])[|steps + rest|] == more[|rest|]
  {
  }

  /** The initial writer owns the pipe, and the transport no longer reads. */
  predicate WriterInWrite(s: State) {
    && s.reader == Idle && s.initial == Writing && s.heartbeat == Idle && s.mu == None
    && s.pipe.current.Some? && s.pipe.current.value.who == Initial && s.pipe.current.value.sent == 0
    && !s.pipe.draining && !s.pipe.done && !s.kvClosed
  }

  lemma WriterParksInWrite(s: State) returns (states: seq<State>, steps: seq<Step>)
    requires Init(s)
    ensures IsRun(WITHOUT_CLOSE, states, steps) && states[0] == s && WriterInWrite(states[|steps|])
  {
    var s1 := Enter(s, Initial).value;
    var s2 := Acquire(s1, Initial).value;
    var s3 := Transport(s2, TransportStops).value;
    states, steps := [s, s1, s2, s3], [EnterWrite(Initial), OwnPipe(Initial), TransportStops];
  }

  lemma RestWaitsForWriter(s: State, raw: Message) returns (states: seq<State>, steps: seq<Step>)
    requires WriterInWrite(s)
    ensures IsRun(WITHOUT_CLOSE, states, steps) && states[0] == s && Stuck(states[|steps|])
  {
    var s1 := Local(s, Tick(raw)).value;
    var s2 := Lock(s1, Heartbeat).value;
    var s3 := Enter(s2, Heartbeat).value;
    var s4 := Local(s3, Stop).value;
    var s5 := RunDeferred(WITHOUT_CLOSE, s4).value;
    states := [s, s1, s2, s3, s4, s5];
    steps := [Tick(raw), TakeLock(Heartbeat), EnterWrite(Heartbeat), Stop, NextDeferred];
  }

  /** Without pr.Close a run reaches a state where nothing can move but a transport that
      would close the body: the writer is parked in its write, the read loop waits for it,
      and the heartbeat waits for the pipe with kv.mu held. */
  lemma StuckWithoutCloseReadEnd(s: State, raw: Message) returns (states: seq<State>, steps: seq<Step>)
    requires Init(s)
    ensures IsRun(WITHOUT_CLOSE, states, steps) && states[0] == s && Stuck(states[|steps|])
    ensures forall step :: step != TransportCloses ==> Next(WITHOUT_CLOSE, states[|steps|], step).None?
  {
    states, steps := WriterParksInWrite(s);
    var more, rest := RestWaitsForWriter(states[|steps|], raw);
    RunsJoin(WITHOUT_CLOSE, states, steps, more, rest);
    states, steps := states + more[1..], steps + rest;
    forall step: Step | step != TransportCloses ensures Next(WITHOUT_CLOSE, states[|steps|], step).None? {
      NothingMoves(states[|steps|], step);
    }
  }

  const WAIT_FIRST: seq<DeferredCall> := [AwaitWriter, CloseReadEnd, CloseRelease, CloseKv, CloseHeartbeat]

  predicate WaitingForEachOther(s: State) {
    s.reader == Deferred(0) && s.initial == Parked && !s.released
  }

  lemma WaitingGoesOn(s: State, step: Step)
    requires Locks(s) && WaitingForEachOther(s) && Next(WAIT_FIRST, s, step).Some?
    ensures WaitingForEachOther(Next(WAIT_FIRST, s, step).value)
  {
  }

  lemma WaitingInRun(states: seq<State>, steps: seq<Step>, j: nat)
    requires IsRun(WAIT_FIRST, states, steps) && Init(states[0]) && j < |steps| && WaitingForEachOther(states[j])
    ensures WaitingForEachOther(states[j + 1])
  {
    RunInvariants(WAIT_FIRST, states, steps, j);
    assert Next(WAIT_FIRST, states[j], steps[j]) == Some(states[j + 1]);
    WaitingGoesOn(states[j], steps[j]);
  }

  /** Waiting first, the read loop releases the writer only after having waited for it. */
  predicate ReleasesLate(s: State) {
    s.released ==> Done(s) >= 3
  }

  lemma NextReleasesLate(s: State, step: Step)
    requires Locks(s) && ReleasesLate(s) && Next(WAIT_FIRST, s, step).Some?
    ensures ReleasesLate(Next(WAIT_FIRST, s, step).value)
  {
    if step.NextDeferred? {
      var k := s.reader.next;
      assert k == 0 || k == 1 || k == 2 || k >= 3;
    } else {
      OthersLeaveStage(WAIT_FIRST, s, step);
    }
  }

  lemma {:induction false} RunReleasesLate(states: seq<State>, steps: seq<Step>, i: nat)
    requires IsRun(WAIT_FIRST, states, steps) && Init(states[0]) && i < |states|
    ensures ReleasesLate(states[i])
  {
    if i > 0 {
      RunReleasesLate(states, steps, i - 1);
      RunInvariants(WAIT_FIRST, states, steps, i - 1);
      assert Next(WAIT_FIRST, states[i - 1], steps[i - 1]) == Some(states[i]);
      NextReleasesLate(states[i - 1], steps[i - 1]);
    }
  }

  /** Registered the other way round, the deferred calls never get past the first once the writer has
      sent its frame and parked: in every run, whatever steps follow. */
  lemma {:induction false} WaitFirstNeverReturns(states: seq<State>, steps: seq<Step>, i: nat, j: nat)
    requires IsRun(WAIT_FIRST, states, steps) && Init(states[0]) && i <= j < |states|
    requires states[i].reader == Deferred(0) && states[i].initial == Parked
    ensures WaitingForEachOther(states[j])
    decreases j
  {
    if i == j {
      RunReleasesLate(states, steps, i);
    } else {
      WaitFirstNeverReturns(states, steps, i, j - 1);
      WaitingInRun(states, steps, j - 1);
    }
  }

  /** That is no rare run: the first frame goes out in one piece, and the read loop ends. */
  lemma WaitFirstIsReached(s: State) returns (states: seq<State>, steps: seq<Step>)
    requires Init(s)
    ensures IsRun(WAIT_FIRST, states, steps) && states[0] == s && WaitingForEachOther(states[|steps|])
  {
    var n := 5 + |s.initial.raw|;
    var s1 := Enter(s, Initial).value;
    var s2 := Acquire(s1, Initial).value;
    var s3 := Transport(s2, Deliver(n)).value;
    var s4 := Return(s3, true).value;
    var s5 := Local(s4, Stop).value;
    states := [s, s1, s2, s3, s4, s5];
    steps := [EnterWrite(Initial), OwnPipe(Initial), Deliver(n), WriteDone, Stop];
  }
}
