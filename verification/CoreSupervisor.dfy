/** `CoreSupervisor` of desktop/src/core-supervisor.ts. Every stretch of code between two awaits is one
    step; process events, timeouts and calls of start and stop may come between any two steps. */
module CoreSupervisor {
  import opened Options

  const RESTART_EXIT_CODE := 75
  const PORT_BUSY_EXIT_CODE := 76

  datatype CoreState = Starting | Ready | Restarting | Failed | Stopping | Stopped
  datatype Failure = NoFailure | StartFailed | IncompatibleCore | StartupTimeout | CoreExited | StopFailed

  /** `code` is absent when a signal ended the process; `error` marks a spawn that failed. */
  datatype Exit = Exit(code: Option<int>, error: bool)

  /** `spoke`: the first output line is complete. A child counts as live until its exit is recorded. */
  datatype Child = Child(port: nat, spoke: bool, handshake: bool, listening: bool, result: Option<Exit>, closed: bool) {
    predicate IsLive() { result.None? }
  }

  type ChildId = nat
  type OperationId = nat

  /** Where `launch` is suspended; `sure` says that terminate saw the exit when it was called. */
  datatype Launch =
    | NoLaunch
    | EndPrevious(tries: nat, failure: Failure, child: ChildId, sure: bool)
    | FindPort(tries: nat, failure: Failure)
    | AwaitReady(tries: nat, child: ChildId)
    | BecameReady(tries: nat, child: ChildId)
    | EndUnready(tries: nat, failure: Failure, child: ChildId, sure: bool)
    | FlushFailed
    | Leaving

  /** What becomes of `onExit` for a child that was ready. */
  datatype Watch = Watching | AwaitOperation(op: Option<OperationId>) | Over

  datatype Stop = NoStop | StopWaits(op: Option<OperationId>) | StopEnds(child: ChildId, sure: bool) | StopFlushes | StopOver

  /** The fields of the class, the suspended operations, and the children spawned by the current launch. */
  datatype Sup = Sup(
    state: CoreState, failure: Failure, port: Option<nat>, attempt: Option<ChildId>, operation: Option<OperationId>,
    stopping: bool, quitting: bool, children: seq<Child>, launch: Launch, watches: map<ChildId, Watch>, stop: Stop,
    launches: nat, spawns: seq<ChildId>)

  const FRESH: Sup := Sup(Stopped, NoFailure, None, None, None, false, false, [], NoLaunch, map[], NoStop, 0, [])

  predicate Known(s: Sup, c: ChildId) { c < |s.children| }

  predicate Dead(s: Sup, c: ChildId) { Known(s, c) && !s.children[c].IsLive() }

  // ----- stretches of code -----

  function Transition(s: Sup, state: CoreState, failure: Failure): Sup { s.(state := state, failure := failure) }

  /** The code behind the retry loop of `launch`. */
  function GiveUp(s: Sup, failure: Failure): Sup {
    if s.quitting then s.(launch := Leaving)
    else Transition(s.(port := None), Failed, failure).(launch := FlushFailed)
  }

  /** The head of the retry loop. */
  function Retry(s: Sup, tries: nat, failure: Failure): Sup {
    if tries < 3 && !s.quitting then
      if s.attempt.Some? then s.(launch := EndPrevious(tries, failure, s.attempt.value, Dead(s, s.attempt.value)))
      else s.(launch := FindPort(tries, failure))
    else GiveUp(s, failure)
  }

  function Start(s: Sup): Sup {
    if s.quitting || s.state.Ready? || s.operation.Some? then s
    else
      var s1 := s.(operation := Some(s.launches), launches := s.launches + 1, spawns := []);
      Retry(Transition(s1, if s.state.Restarting? then Restarting else Starting, NoFailure), 0, StartFailed)
  }

  /** `terminate` has returned; it says true only of a child whose exit is recorded. */
  function PreviousEnded(s: Sup, ok: bool): Sup
    requires s.launch.EndPrevious?
  {
    if ok then s.(launch := FindPort(s.launch.tries, s.launch.failure)) else GiveUp(s, StopFailed)
  }

  /** `findFreePort` has settled; `port` is absent when it or the spawn threw. */
  function PortFound(s: Sup, port: Option<nat>): Sup
    requires s.launch.FindPort?
  {
    if port.None? then GiveUp(s, s.launch.failure)
    else if s.quitting then s.(launch := Leaving)
    else
      var c := |s.children|;
      s.(children := s.children + [Child(port.value, false, false, false, None, false)], attempt := Some(c),
         launch := AwaitReady(s.launch.tries, c), spawns := s.spawns + [c])
  }

  function LaunchReady(s: Sup): Sup
    requires s.launch.BecameReady? && Known(s, s.launch.child)
  {
    Transition(s.(port := Some(s.children[s.launch.child].port)), Ready, NoFailure)
    .(watches := s.watches[s.launch.child := Watching], launch := Leaving)
  }

  /** `ready` has thrown. */
  function Unready(s: Sup): Sup
    requires s.launch.AwaitReady? && Known(s, s.launch.child)
  {
    var c := s.children[s.launch.child];
    if s.quitting then s.(launch := Leaving)
    else
      var failure := if c.result.Some? && c.result.value.error then StartFailed
                     else if !c.handshake then IncompatibleCore
                     else if c.result.Some? then StartFailed
                     else StartupTimeout;
      s.(launch := EndUnready(s.launch.tries, failure, s.launch.child, c.result.Some?))
  }

  predicate PortBusy(c: Child) { c.handshake && c.result.Some? && c.result.value.code == Some(PORT_BUSY_EXIT_CODE) }

  function UnreadyEnded(s: Sup, ok: bool): Sup
    requires s.launch.EndUnready? && Known(s, s.launch.child)
  {
    if !ok then GiveUp(s, StopFailed)
    else if PortBusy(s.children[s.launch.child]) then Retry(s, s.launch.tries + 1, s.launch.failure)
    else GiveUp(s, s.launch.failure)
  }

  function OnExit(s: Sup, c: ChildId): Sup
    requires Dead(s, c)
  {
    var exit := s.children[c].result.value;
    if s.attempt != Some(c) || s.quitting then s.(watches := s.watches[c := Over])
    else if exit.code == Some(RESTART_EXIT_CODE) && s.children[c].handshake then
      Transition(s.(port := None), Restarting, NoFailure).(watches := s.watches[c := AwaitOperation(s.operation)])
    else Transition(s.(port := None), Failed, CoreExited).(watches := s.watches[c := Over])
  }

  function RestartNow(s: Sup, c: ChildId): Sup {
    var s1 := s.(watches := s.watches[c := Over]);
    if s.quitting then s1 else Start(s1)
  }

  function StopCall(s: Sup): Sup {
    if s.stopping then s
    else Transition(s.(quitting := true, port := None), Stopping, NoFailure).(stopping := true, stop := StopWaits(s.operation))
  }

  function StopResumes(s: Sup): Sup {
    if s.attempt.None? then Transition(s, Stopped, NoFailure).(stop := StopFlushes)
    else s.(stop := StopEnds(s.attempt.value, Dead(s, s.attempt.value)))
  }

  function StopEnded(s: Sup, ok: bool): Sup {
    (if ok then Transition(s, Stopped, NoFailure) else Transition(s, Failed, StopFailed)).(stop := StopFlushes)
  }

  function StopFinishes(s: Sup): Sup {
    if s.state.Failed? then s.(stopping := false, stop := NoStop) else s.(stop := StopOver)
  }

  // ----- steps -----

  datatype Step =
    | CallStart
    | CallStop
    | FirstLine(c: ChildId, marker: bool)   // events of a child process
    | ReadyLine(c: ChildId)
    | SpawnError(c: ChildId)
    | ProcessExit(c: ChildId, code: Option<int>)
    | Closed(c: ChildId, code: Option<int>)
    | PreviousReturns(ok: bool)             // resumptions of launch
    | PortReturns(port: Option<nat>)
    | HealthOk
    | ReadyResumes
    | ReadyThrows
    | UnreadyReturns(ok: bool)
    | Flushed
    | Finally
    | ExitSeen(c: ChildId)                  // resumptions of onExit
    | OperationSeen(c: ChildId)
    | StopSeesOperation                     // resumptions of stop
    | StopReturns(ok: bool)
    | StopDone

  /** What `terminate` may return: true once an exit is recorded, false only on a timeout. */
  predicate Terminated(s: Sup, c: ChildId, sure: bool, ok: bool) {
    Known(s, c) && if ok then Dead(s, c) else !sure && !s.children[c].closed
  }

  predicate Enabled(s: Sup, step: Step) {
    match step
    case CallStart => true
    case CallStop => true
    case FirstLine(c, _) => Known(s, c) && !s.children[c].spoke && !s.children[c].closed
    case ReadyLine(c) => Known(s, c) && s.children[c].handshake && !s.children[c].closed
    case SpawnError(c) => Known(s, c) && s.children[c].IsLive() && !s.children[c].spoke
    case ProcessExit(c, _) => Known(s, c) && s.children[c].IsLive()
    case Closed(c, _) => Known(s, c) && !s.children[c].closed
    case PreviousReturns(ok) => s.launch.EndPrevious? && Terminated(s, s.launch.child, s.launch.sure, ok)
    case PortReturns(_) => s.launch.FindPort?
    case HealthOk =>
      && s.launch.AwaitReady? && Known(s, s.launch.child) && !s.quitting
      && s.children[s.launch.child].IsLive() && s.children[s.launch.child].handshake && s.children[s.launch.child].listening
    case ReadyResumes => s.launch.BecameReady? && Known(s, s.launch.child)
    case ReadyThrows => s.launch.AwaitReady? && Known(s, s.launch.child)
    case UnreadyReturns(ok) => s.launch.EndUnready? && Terminated(s, s.launch.child, s.launch.sure, ok)
    case Flushed => s.launch.FlushFailed?
    case Finally => s.launch.Leaving?
    case ExitSeen(c) => c in s.watches && s.watches[c].Watching? && Dead(s, c) && s.children[c].closed
    case OperationSeen(c) => c in s.watches && s.watches[c].AwaitOperation? && Settled(s, s.watches[c].op)
    case StopSeesOperation => s.stop.StopWaits? && Settled(s, s.stop.op)
    case StopReturns(ok) => s.stop.StopEnds? && Terminated(s, s.stop.child, s.stop.sure, ok)
    case StopDone => s.stop.StopFlushes?
  }

  /** The operation captured by an await is over. */
  predicate Settled(s: Sup, op: Option<OperationId>) { op.None? || s.operation != op }

  function WithChild(s: Sup, c: ChildId, child: Child): Sup
    requires Known(s, c)
  {
    s.(children := s.children[c := child])
  }

  function Apply(s: Sup, step: Step): Sup
    requires Enabled(s, step)
  {
    match step
    case CallStart => Start(s)
    case CallStop => StopCall(s)
    case FirstLine(c, marker) => WithChild(s, c, s.children[c].(spoke := true, handshake := marker))
    case ReadyLine(c) => WithChild(s, c, s.children[c].(listening := true))
    case SpawnError(c) => WithChild(s, c, s.children[c].(result := Some(Exit(None, true))))
    case ProcessExit(c, code) => WithChild(s, c, s.children[c].(result := Some(Exit(code, false))))
    case Closed(c, code) =>
      var child := s.children[c];
      WithChild(s, c, child.(closed := true, result := if child.result.Some? then child.result else Some(Exit(code, false))))
    case PreviousReturns(ok) => PreviousEnded(s, ok)
    case PortReturns(port) => PortFound(s, port)
    case HealthOk => s.(launch := BecameReady(s.launch.tries, s.launch.child))
    case ReadyResumes => LaunchReady(s)
    case ReadyThrows => Unready(s)
    case UnreadyReturns(ok) => UnreadyEnded(s, ok)
    case Flushed => s.(launch := Leaving)
    case Finally => s.(launch := NoLaunch, operation := None)
    case ExitSeen(c) => OnExit(s, c)
    case OperationSeen(c) => RestartNow(s, c)
    case StopSeesOperation => StopResumes(s)
    case StopReturns(ok) => StopEnded(s, ok)
    case StopDone => StopFinishes(s)
  }

  // ----- invariant -----

  /** Only the child of the current attempt can be live. */
  predicate OneLive(s: Sup) {
    forall c :: 0 <= c < |s.children| && s.children[c].IsLive() ==> s.attempt == Some(c)
  }

  predicate NoneLive(s: Sup) { forall c :: 0 <= c < |s.children| ==> !s.children[c].IsLive() }

  /** The launch looks after the current attempt and spawns only when no child is live. */
  predicate LaunchOk(s: Sup) {
    && (s.attempt.Some? ==> Known(s, s.attempt.value))
    && (s.launch.NoLaunch? <==> s.operation.None?)
    && (s.operation.Some? ==> s.operation.value < s.launches)
    && match s.launch
       case EndPrevious(tries, _, c, sure) => tries < 3 && s.attempt == Some(c) && (sure ==> Dead(s, c))
       case FindPort(tries, _) => tries < 3 && NoneLive(s)
       case AwaitReady(tries, c) => tries < 3 && s.attempt == Some(c)
       case BecameReady(tries, c) => tries < 3 && s.attempt == Some(c)
       case EndUnready(tries, _, c, sure) => tries < 3 && s.attempt == Some(c) && (sure ==> Dead(s, c))
       case _ => true
  }

  /** At most three children a launch, and a further one only after the last was handshaken and found its port busy. */
  predicate SpawnsOk(s: Sup) {
    && |s.spawns| <= 3
    && (forall i :: 0 <= i < |s.spawns| ==> Known(s, s.spawns[i]))
    && (forall i :: 0 <= i < |s.spawns| - 1 ==> PortBusy(s.children[s.spawns[i]]))
    && match s.launch
       case EndPrevious(tries, _, _, _) => |s.spawns| == tries && AllBusy(s)
       case FindPort(tries, _) => |s.spawns| == tries && AllBusy(s)
       case AwaitReady(tries, c) => |s.spawns| == tries + 1 && s.spawns[tries] == c
       case BecameReady(tries, c) => |s.spawns| == tries + 1 && s.spawns[tries] == c
       case EndUnready(tries, _, c, _) => |s.spawns| == tries + 1 && s.spawns[tries] == c
       case _ => true
  }

  predicate AllBusy(s: Sup) {
    forall i :: 0 <= i < |s.spawns| ==> Known(s, s.spawns[i]) && PortBusy(s.children[s.spawns[i]])
  }

  predicate ChildrenOk(s: Sup) {
    forall c :: 0 <= c < |s.children| ==>
      (s.children[c].handshake ==> s.children[c].spoke) && (s.children[c].closed ==> !s.children[c].IsLive())
  }

  /** Stopping waits for the launch, refuses new ones, and reports "stopped" only of a dead child. */
  predicate StopOk(s: Sup) {
    && (!s.stop.NoStop? ==> s.quitting)
    && (s.stopping <==> !s.stop.NoStop?)
    && (s.stop.StopWaits? && s.operation.Some? ==> s.stop.op == s.operation)
    && (s.stop.StopEnds? ==> s.launch.NoLaunch? && s.attempt == Some(s.stop.child) && (s.stop.sure ==> Dead(s, s.stop.child)))
    && (s.stop.StopFlushes? ==> s.launch.NoLaunch? && (s.state.Stopped? || s.state.Failed?))
    && (s.stop.StopOver? ==> s.launch.NoLaunch? && s.state.Stopped?)
    && (s.stop.NoStop? && s.quitting ==> s.launch.NoLaunch?)
    && (s.quitting && s.state.Stopped? ==> NoneLive(s) && (s.stop.StopFlushes? || s.stop.StopOver?))
  }

  predicate Inv(s: Sup) { ChildrenOk(s) && OneLive(s) && LaunchOk(s) && SpawnsOk(s) && StopOk(s) }

  /** What a process event may change: it speaks once, exits once, and closes after its exit. */
  predicate Later(a: Child, b: Child) {
    && (a.spoke ==> b.spoke && b.handshake == a.handshake) && (b.handshake ==> b.spoke)
    && (a.result.Some? ==> b.result == a.result) && (b.closed ==> b.result.Some?)
  }

  lemma EventKeeps(s: Sup, c: ChildId, child: Child)
    requires Inv(s) && Known(s, c) && Later(s.children[c], child)
    ensures Inv(WithChild(s, c, child))
  {
    var s' := WithChild(s, c, child);
    assert forall d: ChildId :: Known(s, d) ==> Known(s', d) && (Dead(s, d) ==> Dead(s', d)) && (PortBusy(s.children[d]) ==> PortBusy(s'.children[d]));
    hide PortBusy;
  }

  lemma RetryKeeps(s: Sup, tries: nat, failure: Failure)
    requires ChildrenOk(s) && OneLive(s) && LaunchOk(s) && StopOk(s) && SpawnsOk(s.(launch := NoLaunch))
    requires s.operation.Some? && AllBusy(s) && |s.spawns| == tries && !s.stop.StopEnds? && !s.stop.StopFlushes? && !s.stop.StopOver?
    requires s.quitting ==> !s.stop.NoStop?
    ensures Inv(Retry(s, tries, failure))
  {
  }

  lemma StartKeeps(s: Sup)
    requires Inv(s)
    ensures Inv(Start(s))
  {
    if !(s.quitting || s.state.Ready? || s.operation.Some?) {
      var s1 := s.(operation := Some(s.launches), launches := s.launches + 1, spawns := []);
      var s2 := Transition(s1, if s.state.Restarting? then Restarting else Starting, NoFailure);
      RetryStart(s2);
    }
  }

  /** Where a launch begins, it has not been suspended yet. */
  lemma RetryStart(s: Sup)
    requires ChildrenOk(s) && OneLive(s) && !s.quitting && !s.stopping && s.stop.NoStop? && s.spawns == []
    requires s.operation.Some? && s.operation.value < s.launches && (s.attempt.Some? ==> Known(s, s.attempt.value))
    ensures Inv(Retry(s, 0, StartFailed))
  {
  }

  lemma SpawnKeeps(s: Sup, step: Step)
    requires Inv(s) && Enabled(s, step) && (step.PreviousReturns? || step.PortReturns?)
    ensures Inv(Apply(s, step))
  {
    hide PortBusy;
  }

  lemma LaunchKeeps(s: Sup, step: Step)
    requires Inv(s) && Enabled(s, step) && (step.HealthOk? || step.ReadyResumes? || step.ReadyThrows?)
    ensures Inv(Apply(s, step))
  {
    hide PortBusy;
  }

  lemma LeaveKeeps(s: Sup, step: Step)
    requires Inv(s) && Enabled(s, step) && (step.UnreadyReturns? || step.Flushed? || step.Finally?)
    ensures Inv(Apply(s, step))
  {
    if step.UnreadyReturns? && step.ok && PortBusy(s.children[s.launch.child]) {
      RetryKeeps(s, s.launch.tries + 1, s.launch.failure);
    }
  }

  lemma ExitKeeps(s: Sup, c: ChildId)
    requires Inv(s) && Enabled(s, ExitSeen(c))
    ensures Inv(Apply(s, ExitSeen(c)))
  {
    hide PortBusy;
  }

  lemma RestartKeeps(s: Sup, c: ChildId)
    requires Inv(s) && Enabled(s, OperationSeen(c))
    ensures Inv(Apply(s, OperationSeen(c)))
  {
    hide PortBusy, Start;
    var s1 := s.(watches := s.watches[c := Over]);
    assert Inv(s1);
    hide Inv;
    StartKeeps(s1);
  }

  lemma StopKeeps(s: Sup, step: Step)
    requires Inv(s) && Enabled(s, step) && (step.CallStop? || step.StopSeesOperation? || step.StopReturns? || step.StopDone?)
    ensures Inv(Apply(s, step))
  {
  }

  lemma StepKeeps(s: Sup, step: Step)
    requires Inv(s) && Enabled(s, step)
    ensures Inv(Apply(s, step))
  {
    match step {
      case FirstLine(c, marker) => EventKeeps(s, c, s.children[c].(spoke := true, handshake := marker));
      case ReadyLine(c) => EventKeeps(s, c, s.children[c].(listening := true));
      case SpawnError(c) => EventKeeps(s, c, s.children[c].(result := Some(Exit(None, true))));
      case ProcessExit(c, code) => EventKeeps(s, c, s.children[c].(result := Some(Exit(code, false))));
      case Closed(c, code) => EventKeeps(s, c, Apply(s, step).children[c]);
      case CallStart => StartKeeps(s);
      case UnreadyReturns(_) => LeaveKeeps(s, step);
      case Flushed => LeaveKeeps(s, step);
      case Finally => LeaveKeeps(s, step);
      case ExitSeen(c) => ExitKeeps(s, c);
      case OperationSeen(c) => RestartKeeps(s, c);
      case CallStop => StopKeeps(s, step);
      case StopSeesOperation => StopKeeps(s, step);
      case StopReturns(_) => StopKeeps(s, step);
      case StopDone => StopKeeps(s, step);
      case PreviousReturns(_) => SpawnKeeps(s, step);
      case PortReturns(_) => SpawnKeeps(s, step);
      case _ => LaunchKeeps(s, step);
    }
  }

  // ----- whole runs -----

  /** A process life: any interleaving of calls, events and resumptions from the fresh object. */
  ghost predicate IsRun(run: seq<Sup>, steps: seq<Step>) {
    |run| == |steps| + 1 && run[0] == FRESH && forall i :: 0 <= i < |steps| ==> IsStep(run[i], steps[i], run[i + 1])
  }

  ghost predicate IsStep(s: Sup, step: Step, s': Sup) { Enabled(s, step) && s' == Apply(s, step) }

  lemma {:induction false} RunKeeps(run: seq<Sup>, steps: seq<Step>, i: nat)
    requires IsRun(run, steps) && i < |run|
    ensures Inv(run[i])
  {
    if i > 0 {
      RunKeeps(run, steps, i - 1);
      assert IsStep(run[i - 1], steps[i - 1], run[i]);
      hide Inv, Apply, Enabled;
      StepKeeps(run[i - 1], steps[i - 1]);
    }
  }

  /** No two children are ever live at once, and a live one belongs to the current attempt. */
  lemma AtMostOneLive(run: seq<Sup>, steps: seq<Step>, i: nat, c: ChildId, d: ChildId)
    requires IsRun(run, steps) && i < |run|
    requires Known(run[i], c) && Known(run[i], d) && run[i].children[c].IsLive() && run[i].children[d].IsLive()
    ensures c == d && run[i].attempt == Some(c)
  {
    RunKeeps(run, steps, i);
  }

  /** A child is spawned only while none is live and stop has not been called. */
  lemma SpawnCondition(s: Sup, step: Step)
    requires Inv(s) && Enabled(s, step)
    ensures |Apply(s, step).children| != |s.children| ==> NoneLive(s) && !s.quitting
    ensures |Apply(s, step).children| >= |s.children|
    ensures s.quitting ==> Apply(s, step).quitting && |Apply(s, step).children| == |s.children|
  {
  }

  lemma {:induction false} NoSpawnAfterStop(run: seq<Sup>, steps: seq<Step>, i: nat, k: nat)
    requires IsRun(run, steps) && i <= k < |run| && run[i].quitting
    ensures run[k].quitting && |run[k].children| == |run[i].children|
    decreases k
  {
    if i < k {
      NoSpawnAfterStop(run, steps, i, k - 1);
      RunKeeps(run, steps, k - 1);
      assert IsStep(run[k - 1], steps[k - 1], run[k]);
      hide Inv, Apply, Enabled;
      SpawnCondition(run[k - 1], steps[k - 1]);
    }
  }

  lemma StoppedStays(s: Sup, step: Step)
    requires Inv(s) && Enabled(s, step) && s.quitting && s.state.Stopped?
    ensures NoneLive(s) && Apply(s, step).quitting && Apply(s, step).state.Stopped?
  {
  }

  /** Once stop has published "stopped" no child is live, and that never changes. */
  lemma {:induction false} StoppedIsFinal(run: seq<Sup>, steps: seq<Step>, i: nat, k: nat)
    requires IsRun(run, steps) && i <= k < |run| && run[i].quitting && run[i].state.Stopped?
    ensures run[k].quitting && run[k].state.Stopped? && NoneLive(run[k])
    decreases k
  {
    RunKeeps(run, steps, k);
    if i < k {
      StoppedIsFinal(run, steps, i, k - 1);
      RunKeeps(run, steps, k - 1);
      assert IsStep(run[k - 1], steps[k - 1], run[k]);
      hide Apply, Enabled;
      StoppedStays(run[k - 1], steps[k - 1]);
    }
  }

  /** A launch spawns at most three children, and another only after the last exit of a handshaken
      child with the port-busy code. */
  lemma LaunchRetries(run: seq<Sup>, steps: seq<Step>, i: nat)
    requires IsRun(run, steps) && i < |run|
    ensures |run[i].spawns| <= 3
    ensures forall k :: 0 <= k < |run[i].spawns| - 1 ==> Known(run[i], run[i].spawns[k]) && PortBusy(run[i].children[run[i].spawns[k]])
  {
    RunKeeps(run, steps, i);
  }

  /** Whatever a launch spawns is listed under it. */
  lemma SpawnIsListed(s: Sup, step: Step)
    requires Inv(s) && Enabled(s, step) && |Apply(s, step).children| > |s.children|
    ensures s.operation.Some? && Apply(s, step).operation == s.operation && Apply(s, step).spawns == s.spawns + [|s.children|]
  {
  }

  /** Two launches never overlap: a new operation starts only when none is pending. */
  lemma SingleFlight(s: Sup, step: Step)
    requires Inv(s) && Enabled(s, step) && s.operation.Some? && Apply(s, step).operation != s.operation
    ensures step.Finally? && Apply(s, step).operation.None? && Apply(s, step).launch.NoLaunch?
  {
  }

  // ----- the class -----

  class Supervisor {
    var state: CoreState
    var failure: Failure
    var port: Option<nat>
    var attempt: Option<ChildId>
    var operation: Option<OperationId>
    var stopping: bool
    var quitting: bool
    var children: seq<Child>
    var launch: Launch
    var watches: map<ChildId, Watch>
    var stop: Stop
    ghost var launches: nat
    ghost var spawns: seq<ChildId>

    ghost function View(): Sup
      reads this
    {
      Sup(state, failure, port, attempt, operation, stopping, quitting, children, launch, watches, stop, launches, spawns)
    }

    constructor ()
      ensures View() == FRESH
    {
      state, failure, port, attempt, operation := Stopped, NoFailure, None, None, None;
      stopping, quitting, children, launch, watches, stop := false, false, [], NoLaunch, map[], NoStop;
      launches, spawns := 0, [];
    }

    method Publish(to: CoreState, why: Failure)
      modifies this`state, this`failure
      ensures View() == Transition(old(View()), to, why)
    {
      state := to;
      failure := why;
    }

    method FailLaunch(why: Failure)
      modifies this`state, this`failure, this`port, this`launch
      ensures View() == GiveUp(old(View()), why)
    {
      if quitting {
        launch := Leaving;
        return;
      }
      port := None;
      Publish(Failed, why);
      launch := FlushFailed;
    }

    method TryAgain(tries: nat, why: Failure)
      modifies this`state, this`failure, this`port, this`launch
      ensures View() == Retry(old(View()), tries, why)
    {
      if tries >= 3 || quitting {
        FailLaunch(why);
        return;
      }
      if attempt.None? {
        launch := FindPort(tries, why);
        return;
      }
      var c := attempt.value;
      launch := EndPrevious(tries, why, c, c < |children| && children[c].result.Some?);
    }

    method CallStart(id: OperationId)
      requires id == launches
      modifies this
      ensures View() == Start(old(View()))
    {
      if quitting || state.Ready? || operation.Some? {
        return;
      }
      hide Retry;
      ghost var was := View();
      operation := Some(id);
      launches, spawns := launches + 1, [];
      assert View() == was.(operation := Some(was.launches), launches := was.launches + 1, spawns := []);
      Publish(if state.Restarting? then Restarting else Starting, NoFailure);
      TryAgain(0, StartFailed);
    }

    method OnPreviousEnded(ok: bool)
      requires launch.EndPrevious?
      modifies this
      ensures View() == PreviousEnded(old(View()), ok)
    {
      if !ok {
        FailLaunch(StopFailed);
        return;
      }
      launch := FindPort(launch.tries, launch.failure);
    }

    method OnPort(found: Option<nat>)
      requires launch.FindPort?
      modifies this
      ensures View() == PortFound(old(View()), found)
    {
      if found.None? {
        FailLaunch(launch.failure);
        return;
      }
      if quitting {
        launch := Leaving;
        return;
      }
      var c := |children|;
      children := children + [Child(found.value, false, false, false, None, false)];
      attempt := Some(c);
      spawns := spawns + [c];
      launch := AwaitReady(launch.tries, c);
    }

    method OnReady()
      requires launch.BecameReady? && launch.child < |children|
      modifies this
      ensures View() == LaunchReady(old(View()))
    {
      port := Some(children[launch.child].port);
      Publish(Ready, NoFailure);
      watches := watches[launch.child := Watching];
      launch := Leaving;
    }

    method OnUnready()
      requires launch.AwaitReady? && launch.child < |children|
      modifies this
      ensures View() == Unready(old(View()))
    {
      if quitting {
        launch := Leaving;
        return;
      }
      var c := children[launch.child];
      var why := StartupTimeout;
      if c.result.Some? && c.result.value.error {
        why := StartFailed;
      } else if !c.handshake {
        why := IncompatibleCore;
      } else if c.result.Some? {
        why := StartFailed;
      }
      launch := EndUnready(launch.tries, why, launch.child, c.result.Some?);
    }

    method OnUnreadyEnded(ok: bool)
      requires launch.EndUnready? && launch.child < |children|
      modifies this
      ensures View() == UnreadyEnded(old(View()), ok)
    {
      var c := children[launch.child];
      if !ok {
        FailLaunch(StopFailed);
      } else if c.handshake && c.result.Some? && c.result.value.code == Some(PORT_BUSY_EXIT_CODE) {
        TryAgain(launch.tries + 1, launch.failure);
      } else {
        FailLaunch(launch.failure);
      }
    }

    method OnChildExit(c: ChildId)
      requires c < |children| && children[c].result.Some?
      modifies this
      ensures View() == OnExit(old(View()), c)
    {
      if attempt != Some(c) || quitting {
        watches := watches[c := Over];
        return;
      }
      port := None;
      if children[c].result.value.code == Some(RESTART_EXIT_CODE) && children[c].handshake {
        Publish(Restarting, NoFailure);
        watches := watches[c := AwaitOperation(operation)];
      } else {
        Publish(Failed, CoreExited);
        watches := watches[c := Over];
      }
    }

    /** `onExit` after its await: the launch has given up its slot. */
    method OnSlotFree(c: ChildId, id: OperationId)
      requires id == launches
      modifies this
      ensures View() == RestartNow(old(View()), c)
    {
      watches := watches[c := Over];
      if !quitting {
        CallStart(id);
      }
    }

    method CallStop()
      modifies this
      ensures View() == StopCall(old(View()))
    {
      if stopping {
        return;
      }
      quitting := true;
      port := None;
      Publish(Stopping, NoFailure);
      stopping := true;
      stop := StopWaits(operation);
    }

    method OnOperationDone()
      modifies this
      ensures View() == StopResumes(old(View()))
    {
      if attempt.None? {
        Publish(Stopped, NoFailure);
        stop := StopFlushes;
      } else {
        var c := attempt.value;
        stop := StopEnds(c, c < |children| && children[c].result.Some?);
      }
    }

    method OnChildEnded(ok: bool)
      modifies this
      ensures View() == StopEnded(old(View()), ok)
    {
      Publish(if ok then Stopped else Failed, if ok then NoFailure else StopFailed);
      stop := StopFlushes;
    }

    method OnStopDone()
      modifies this
      ensures View() == StopFinishes(old(View()))
    {
      if state.Failed? {
        stopping := false;
        stop := NoStop;
      } else {
        stop := StopOver;
      }
    }
  }
}
