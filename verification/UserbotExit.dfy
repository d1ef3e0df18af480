/**
 When the userbot process exits on a signal, and what that waited for
 (apps/userbot/src/worker.ts); and that no start or shutdown gets stuck.
 */
module UserbotExit {
  import opened Prelude
  import opened UserbotLifecycle

  // ------------------------------------------------------------------
  // What a history says of its shutdowns
  // ------------------------------------------------------------------

  /** The step begins a shutdown: by a call, or by the first signal, while none is under way. */
  predicate BeginsShutdown(s: State, a: Action) {
    s.shutdownPromise.None? && (a.CallShutdown? || (a.Signal? && !s.handledSignal))
  }

  /** The clients that the worker refers to. */
  function Attached(s: State): set<Bundle> {
    (if s.startupBundle.Some? then {s.startupBundle.value} else {})
    + (if s.activeBundle.Some? then {s.activeBundle.value} else {})
  }

  /** The clients that the worker referred to when shutdown `run` began. */
  function TakenOver(actions: seq<Action>, run: nat): set<Bundle> {
    if actions == [] then {}
    else
      var front := actions[..|actions| - 1];
      TakenNext(Run(INITIAL, front), TakenOver(front, run), run, actions[|actions| - 1])
  }

  function TakenNext(before: State, taken: set<Bundle>, run: nat, a: Action): set<Bundle> {
    if BeginsShutdown(before, a) && run == before.nextRun then Attached(before) else taken
  }

  /** The shutdown that the first signal joined, or else began. */
  function Awaited(actions: seq<Action>): Option<nat> {
    if actions == [] then None
    else
      var front := actions[..|actions| - 1];
      AwaitedNext(Run(INITIAL, front), Awaited(front), actions[|actions| - 1])
  }

  function AwaitedNext(before: State, awaited: Option<nat>, a: Action): Option<nat> {
    if awaited.Some? || !a.Signal? then awaited
    else Some(if before.shutdownPromise.Some? then before.shutdownPromise.value else before.nextRun)
  }

  /** Whatever shutdown `run` took over is destroyed, or is on its list while it is under way. */
  ghost predicate Delivers(s: State, run: nat, taken: set<Bundle>) {
    && (run >= s.nextRun ==> taken == {})
    && forall b :: b in taken ==> b in s.destroyed || (s.shutdownPromise == Some(run) && b in ShutdownHolds(s))
  }

  lemma ListMoves(s: State, a: Action, b: Bundle)
    requires Sound(s)
    ensures b in ShutdownHolds(s) ==>
              || b in Step(s, a).destroyed
              || (b in ShutdownHolds(Step(s, a)) && Step(s, a).shutdownPromise == s.shutdownPromise)
  {
    if a.CallShutdown? || a.NextDestroyed? || a.ShutdownSettled? {
      ShutdownMoves(s, a, b);
    } else if a.Signal? {
      ShutdownMoves(s, CallShutdown, b);
    } else {
      ListStays(s, a);
    }
  }

  lemma ShutdownMoves(s: State, a: Action, b: Bundle)
    requires Sound(s) && (a.CallShutdown? || a.NextDestroyed? || a.ShutdownSettled?)
    ensures b in ShutdownHolds(s) ==>
              || b in Step(s, a).destroyed
              || (b in ShutdownHolds(Step(s, a)) && Step(s, a).shutdownPromise == s.shutdownPromise)
  {
    HoldsMove(s, a, b);
  }

  lemma ListStays(s: State, a: Action)
    requires !a.CallShutdown? && !a.NextDestroyed? && !a.ShutdownSettled? && !a.Signal?
    ensures Step(s, a).shutdowns == s.shutdowns && Step(s, a).shutdownPromise == s.shutdownPromise
  {
  }

  lemma CountsGrow(s: State, a: Action)
    ensures s.nextRun <= Step(s, a).nextRun && s.destroyed <= Step(s, a).destroyed
  {
  }

  lemma BegunTakes(s: State, a: Action, b: Bundle)
    requires Sound(s) && BeginsShutdown(s, a) && b in Attached(s)
    ensures b in ShutdownHolds(Step(s, a)) && Step(s, a).shutdownPromise == Some(s.nextRun)
    ensures s.nextRun < Step(s, a).nextRun
  {
    HoldsMove(s, CallShutdown, b);
  }

  lemma StepDelivers(s: State, run: nat, taken: set<Bundle>, a: Action)
    requires Sound(s) && Delivers(s, run, taken)
    ensures Delivers(Step(s, a), run, TakenNext(s, taken, run, a))
  {
    var end, more := Step(s, a), TakenNext(s, taken, run, a);
    CountsGrow(s, a);
    forall b | b in more
      ensures b in end.destroyed || (end.shutdownPromise == Some(run) && b in ShutdownHolds(end))
    {
      if BeginsShutdown(s, a) && run == s.nextRun {
        BegunTakes(s, a, b);
      } else {
        ListMoves(s, a, b);
      }
    }
    if BeginsShutdown(s, a) && run == s.nextRun {
      BeginCounts(s, a);
    }
  }

  lemma BeginCounts(s: State, a: Action)
    requires BeginsShutdown(s, a)
    ensures s.nextRun < Step(s, a).nextRun
  {
  }

  lemma {:induction false} RunDelivers(actions: seq<Action>, run: nat)
    ensures Delivers(Run(INITIAL, actions), run, TakenOver(actions, run))
  {
    if actions != [] {
      var front := actions[..|actions| - 1];
      RunDelivers(front, run);
      RunSound(front);
      StepDelivers(Run(INITIAL, front), run, TakenOver(front, run), actions[|actions| - 1]);
    }
  }

  /** The worker waits for the shutdown that the first signal joined or began, until it has exited once. */
  ghost predicate Waits(s: State, awaited: Option<nat>) {
    && (s.handledSignal <==> awaited.Some?)
    && (s.exits == 0 ==> s.exitAwaits == awaited)
    && (s.exits > 0 ==> s.exitAwaits.None? && awaited.Some?)
  }

  lemma StepWaits(s: State, awaited: Option<nat>, a: Action)
    requires Waits(s, awaited)
    ensures Waits(Step(s, a), AwaitedNext(s, awaited, a))
  {
    match a
    case NextDestroyed(run) => assert StepNextDestroyed(s, run).exitAwaits == s.exitAwaits;
    case Signal =>
    case Exit =>
    case _ =>
  }

  lemma {:induction false} RunWaits(actions: seq<Action>)
    ensures Waits(Run(INITIAL, actions), Awaited(actions))
  {
    if actions != [] {
      var front := actions[..|actions| - 1];
      RunWaits(front);
      StepWaits(Run(INITIAL, front), Awaited(front), actions[|actions| - 1]);
    }
  }

  lemma OnlyExitExits(s: State, a: Action)
    ensures Step(s, a).exits != s.exits ==> a.Exit?
  {
  }

  // ------------------------------------------------------------------
  // The exit
  // ------------------------------------------------------------------

  /**
   In every interleaving: exactly when the process exits, namely once, and only
   after the shutdown that the first signal joined or began has ended; and then
   every client that this shutdown took over has been destroyed.
   */
  lemma ExitWaitsExactly(actions: seq<Action>, a: Action)
    ensures var s := Run(INITIAL, actions);
      && (Step(s, a).exits != s.exits <==>
            a.Exit? && s.exits == 0 && Awaited(actions).Some? && Awaited(actions).value !in s.shutdowns)
      && (Step(s, a).exits != s.exits ==> TakenOver(actions, Awaited(actions).value) <= s.destroyed)
  {
    var s := Run(INITIAL, actions);
    RunWaits(actions);
    OnlyExitExits(s, a);
    if a.Exit? {
      ExitStep(s, Awaited(actions));
      if Awaited(actions).Some? && Awaited(actions).value !in s.shutdowns {
        RunSound(actions);
        EndedDelivers(actions, Awaited(actions).value);
      }
    }
  }

  lemma ExitStep(s: State, awaited: Option<nat>)
    requires Waits(s, awaited)
    ensures Step(s, Exit).exits != s.exits <==> s.exits == 0 && awaited.Some? && awaited.value !in s.shutdowns
  {
  }

  lemma EndedDelivers(actions: seq<Action>, run: nat)
    requires run !in Run(INITIAL, actions).shutdowns
    ensures TakenOver(actions, run) <= Run(INITIAL, actions).destroyed
  {
    RunSound(actions);
    RunDelivers(actions, run);
    EndedHoldsNothing(Run(INITIAL, actions), run, TakenOver(actions, run));
  }

  lemma EndedHoldsNothing(s: State, run: nat, taken: set<Bundle>)
    requires Sound(s) && Delivers(s, run, taken) && run !in s.shutdowns
    ensures taken <= s.destroyed
  {
    assert s.shutdownPromise != Some(run);
  }

  // ------------------------------------------------------------------
  // Nothing gets stuck
  // ------------------------------------------------------------------

  lemma {:induction false} RunOn(s: State, xs: seq<Action>, ys: seq<Action>)
    ensures Run(s, xs + ys) == Run(Run(s, xs), ys)
    decreases |ys|
  {
    if ys == [] {
      assert xs + ys == xs;
    } else {
      assert (xs + ys)[..|xs + ys| - 1] == xs + ys[..|ys| - 1];
      RunOn(s, xs, ys[..|ys| - 1]);
    }
  }

  lemma RunFromFirst(s: State, a: Action, more: seq<Action>)
    ensures Run(s, [a] + more) == Run(Step(s, a), more)
  {
    RunOn(s, [a], more);
    assert [a][..0] == [];
  }

  /** The steps that the shutdown under way takes by itself. */
  predicate OfShutdown(a: Action) {
    a.NextDestroyed? || a.ShutdownSettled?
  }

  /** A shutdown that still destroys has something to destroy. */
  ghost predicate ListsNonempty(s: State) {
    forall run :: run in s.shutdowns && s.shutdowns[run].DestroyingNext? ==> s.shutdowns[run].todo != []
  }

  lemma StepListsNonempty(s: State, a: Action)
    requires ListsNonempty(s)
    ensures ListsNonempty(Step(s, a))
  {
  }

  lemma {:induction false} RunListsNonempty(actions: seq<Action>)
    ensures ListsNonempty(Run(INITIAL, actions))
  {
    if actions != [] {
      RunListsNonempty(actions[..|actions| - 1]);
      StepListsNonempty(Run(INITIAL, actions[..|actions| - 1]), actions[|actions| - 1]);
    }
  }

  /** A shutdown under way can always go on to its end, without anybody else doing anything. */
  lemma {:induction false} ShutdownEnds(s: State) returns (rest: seq<Action>)
    requires Sound(s) && ListsNonempty(s) && s.shutdownPromise.Some?
    ensures forall a :: a in rest ==> OfShutdown(a)
    ensures var end := Run(s, rest);
      && Sound(end) && end.shutdownPromise.None? && end.shutdowns == map[]
      && end.exitAwaits == s.exitAwaits && end.exits == s.exits && end.handledSignal == s.handledSignal
      && forall b :: b in ShutdownHolds(s) ==> b in end.destroyed
    decreases |ShutdownHolds(s)|, if s.shutdowns[s.shutdownPromise.value].ShutdownOver? then 0 else 1
  {
    var run := s.shutdownPromise.value;
    var a := if s.shutdowns[run].ShutdownOver? then ShutdownSettled(run) else NextDestroyed(run);
    var next := Step(s, a);
    StepSound(s, a);
    StepListsNonempty(s, a);
    if s.shutdowns[run].ShutdownOver? {
      rest := [a];
      assert [a][..0] == [];
      assert next.shutdowns == map[];
    } else {
      var more := ShutdownEnds(next);
      rest := [a] + more;
      RunFromFirst(s, a, more);
      ListKept(next, more);
    }
  }

  lemma {:induction false} ListKept(s: State, actions: seq<Action>)
    requires Sound(s)
    ensures s.destroyed <= Run(s, actions).destroyed
  {
    if actions != [] {
      ListKept(s, actions[..|actions| - 1]);
      RunKeepsSound(s, actions[..|actions| - 1]);
      CountsGrow(Run(s, actions[..|actions| - 1]), actions[|actions| - 1]);
    }
  }

  lemma {:induction false} RunKeepsSound(s: State, actions: seq<Action>)
    requires Sound(s)
    ensures Sound(Run(s, actions))
  {
    if actions != [] {
      RunKeepsSound(s, actions[..|actions| - 1]);
      StepSound(Run(s, actions[..|actions| - 1]), actions[|actions| - 1]);
    }
  }

  /**
   After the first signal, in every interleaving, the process has exited, or the shutdown under way can go on to
   its end by itself and the process then exits.
   */
  lemma SignalLeadsToExit(actions: seq<Action>) returns (rest: seq<Action>)
    requires Signal in actions
    ensures forall a :: a in rest ==> OfShutdown(a) || a.Exit?
    ensures Run(INITIAL, actions + rest).exits == 1
  {
    var s := Run(INITIAL, actions);
    RunSound(actions);
    RunListsNonempty(actions);
    RunWaits(actions);
    SignalIsHandled(actions);
    if s.exits == 1 {
      rest := [];
      assert actions + [] == actions;
    } else {
      var first: seq<Action> := [];
      if s.shutdownPromise.Some? {
        first := ShutdownEnds(s);
      } else {
        assert s.shutdowns == map[];
      }
      rest := first + [Exit];
      RunOn(INITIAL, actions, rest);
      RunOn(s, first, [Exit]);
      assert [Exit][..0] == [];
    }
  }

  lemma {:induction false} SignalIsHandled(actions: seq<Action>)
    requires Signal in actions
    ensures Run(INITIAL, actions).handledSignal
  {
    var last := |actions| - 1;
    if actions[last] != Signal {
      assert Signal in actions[..last];
      SignalIsHandled(actions[..last]);
      assert Run(INITIAL, actions) == Step(Run(INITIAL, actions[..last]), actions[last]);
    }
  }

  /** The steps that the start under way takes by itself. */
  predicate OfStart(a: Action) {
    a.FileChecked? || a.ClientCreated? || a.ClientStarted? || a.FailedDestroyed? || a.StartSettled?
  }

  /** How many steps a start at this stage still takes at most. */
  function StepsLeft(stage: StartStage): nat {
    match stage
    case CheckingFile => 5
    case CreatingClient => 4
    case StartingClient(_) => 3
    case DestroyingFailed(_) => 2
    case StartOver => 1
  }

  /** What a start at this stage does next; `ok` says whether its calls succeed. */
  function NextOf(stage: StartStage, run: nat, ok: bool): Action {
    match stage
    case CheckingFile => FileChecked(run, ok)
    case CreatingClient => ClientCreated(run, ok)
    case StartingClient(_) => ClientStarted(run, ok)
    case DestroyingFailed(_) => FailedDestroyed(run)
    case StartOver => StartSettled(run)
  }

  function NextOfStart(s: State, ok: bool): Action
    requires Sound(s) && s.startPromise.Some?
  {
    NextOf(s.starts[s.startPromise.value], s.startPromise.value, ok)
  }

  /** How many steps are left of the start under way, if there is one. */
  function StepsOfStart(s: State): nat
    requires Sound(s)
  {
    if s.startPromise.None? then 0 else StepsLeft(s.starts[s.startPromise.value])
  }

  lemma StartMoves(s: State, ok: bool)
    requires Sound(s) && s.startPromise.Some?
    ensures OfStart(NextOfStart(s, ok))
    ensures Sound(Step(s, NextOfStart(s, ok))) && StepsOfStart(Step(s, NextOfStart(s, ok))) < StepsOfStart(s)
  {
    StepSound(s, NextOfStart(s, ok));
    if s.starts[s.startPromise.value].StartOver? {
      StartIsOver(s);
    } else {
      StageMoves(s, s.startPromise.value, ok);
    }
  }

  /** Short of its end, the start is at a later stage of the same run. */
  lemma StageMoves(s: State, run: nat, ok: bool)
    requires run in s.starts && !s.starts[run].StartOver?
    ensures var next := Step(s, NextOf(s.starts[run], run, ok));
      && next.startPromise == s.startPromise && run in next.starts
      && StepsLeft(next.starts[run]) < StepsLeft(s.starts[run])
  {
  }

  lemma StartIsOver(s: State)
    requires Sound(s) && s.startPromise.Some? && s.starts[s.startPromise.value].StartOver?
    ensures Step(s, StartSettled(s.startPromise.value)).startPromise.None?
  {
  }

  /** What becomes of the start under way when from now on all its calls succeed, or all fail. */
  ghost predicate StartDelivers(s: State, ok: bool, end: State)
    requires Sound(s) && s.startPromise.Some?
  {
    match s.starts[s.startPromise.value]
    case CheckingFile => end.activeBundle == if ok then Some(s.created) else s.activeBundle
    case CreatingClient => end.activeBundle == if ok then Some(s.created) else s.activeBundle
    case StartingClient(b) => if ok then end.activeBundle == Some(b) else SameActive(s, end) && b in end.destroyed
    case DestroyingFailed(b) => SameActive(s, end) && b in end.destroyed
    case StartOver => SameActive(s, end)
  }

  predicate SameActive(s: State, end: State) {
    end.activeBundle == s.activeBundle
  }

  /**
   A start under way can always go on to its end by itself, and the next call to start then begins a new one. If all
   its calls succeed, its client ends up active; if they fail, its client, if any, is destroyed.
   */
  lemma {:induction false} StartEnds(s: State, ok: bool) returns (rest: seq<Action>)
    requires Sound(s)
    ensures forall a :: a in rest ==> OfStart(a)
    ensures var end := Run(s, rest);
      && Sound(end) && end.startPromise.None? && end.starts == map[] && end.startupBundle.None?
      && (if s.startPromise.None? then end == s else StartDelivers(s, ok, end))
    decreases StepsOfStart(s)
  {
    if s.startPromise.None? {
      rest := [];
      assert s.starts == map[];
    } else {
      var a := NextOfStart(s, ok);
      StartMoves(s, ok);
      var more := StartEnds(Step(s, a), ok);
      rest := [a] + more;
      RunFromFirst(s, a, more);
      ListKept(Step(s, a), more);
      DeliversThrough(s, ok, Run(s, rest));
    }
  }

  /** The outcome of the rest of the start carries over to the step before. */
  ghost predicate CarriesOver(s: State, next: State, ok: bool, end: State)
    requires Sound(s) && s.startPromise.Some? && Sound(next)
  {
    && next.destroyed <= end.destroyed
    && (if next.startPromise.None? then end == next else StartDelivers(next, ok, end))
    ==> StartDelivers(s, ok, end)
  }

  lemma DeliversThrough(s: State, ok: bool, end: State)
    requires Sound(s) && s.startPromise.Some? && Sound(Step(s, NextOfStart(s, ok)))
    ensures CarriesOver(s, Step(s, NextOfStart(s, ok)), ok, end)
  {
    var run := s.startPromise.value;
    match s.starts[run]
    case CheckingFile => ThroughCheck(s, run, ok, end);
    case CreatingClient => ThroughCreation(s, run, ok, end);
    case StartingClient(_) => ThroughStart(s, run, ok, end);
    case DestroyingFailed(_) => ThroughDestroy(s, run, ok, end);
    case StartOver => ThroughEnd(s, run, ok, end);
  }

  lemma ThroughCheck(s: State, run: nat, ok: bool, end: State)
    requires Sound(s) && s.startPromise == Some(run) && s.starts[run].CheckingFile?
    requires Sound(StepFileChecked(s, run, ok))
    ensures CarriesOver(s, StepFileChecked(s, run, ok), ok, end)
  {
  }

  lemma ThroughCreation(s: State, run: nat, ok: bool, end: State)
    requires Sound(s) && s.startPromise == Some(run) && s.starts[run].CreatingClient?
    requires Sound(StepClientCreated(s, run, ok))
    ensures CarriesOver(s, StepClientCreated(s, run, ok), ok, end)
  {
  }

  lemma ThroughStart(s: State, run: nat, ok: bool, end: State)
    requires Sound(s) && s.startPromise == Some(run) && s.starts[run].StartingClient?
    requires Sound(StepClientStarted(s, run, ok))
    ensures CarriesOver(s, StepClientStarted(s, run, ok), ok, end)
  {
  }

  lemma ThroughDestroy(s: State, run: nat, ok: bool, end: State)
    requires Sound(s) && s.startPromise == Some(run) && s.starts[run].DestroyingFailed?
    requires Sound(StepFailedDestroyed(s, run))
    ensures CarriesOver(s, StepFailedDestroyed(s, run), ok, end)
  {
  }

  lemma ThroughEnd(s: State, run: nat, ok: bool, end: State)
    requires Sound(s) && s.startPromise == Some(run) && s.starts[run].StartOver? && Sound(StepStartSettled(s, run))
    ensures CarriesOver(s, StepStartSettled(s, run), ok, end)
  {
  }

  // ------------------------------------------------------------------
  // What a start needs
  // ------------------------------------------------------------------

  /** Start `run` was begun with a configuration that loaded. */
  predicate Configured(actions: seq<Action>, run: nat) {
    actions != [] &&
    var front, a := actions[..|actions| - 1], actions[|actions| - 1];
    var before := Run(INITIAL, front);
    if a.CallStart? && before.startPromise.None? && run == before.nextRun then a.configOk else Configured(front, run)
  }

  /** The start has got as far as a client, or to asking for one. */
  predicate PastTheCheck(stage: StartStage) {
    stage.CreatingClient? || stage.StartingClient? || stage.DestroyingFailed?
  }

  ghost predicate StartsPermitted(actions: seq<Action>) {
    var s := Run(INITIAL, actions);
    forall run :: run in s.starts ==>
      && (PastTheCheck(s.starts[run]) ==> Configured(actions, run) && FileChecked(run, true) in actions)
      && (s.starts[run].CheckingFile? ==> Configured(actions, run))
  }

  /**
   In every interleaving no client is asked for or started unless the configuration of that very start loaded and
   its session file check succeeded.
   */
  lemma {:induction false} ClientsNeedTheirSession(actions: seq<Action>)
    ensures StartsPermitted(actions)
  {
    if actions != [] {
      var front, a := actions[..|actions| - 1], actions[|actions| - 1];
      ClientsNeedTheirSession(front);
      RunSound(front);
      assert actions == front + [a];
      var s := Run(INITIAL, front);
      forall run | run in Step(s, a).starts
        ensures PastTheCheck(Step(s, a).starts[run]) ==> Configured(actions, run) && FileChecked(run, true) in actions
        ensures Step(s, a).starts[run].CheckingFile? ==> Configured(actions, run)
      {
        StageComesFrom(s, a, run);
      }
    }
  }

  lemma StageComesFrom(s: State, a: Action, run: nat)
    requires run in Step(s, a).starts && forall r :: r in s.starts ==> r < s.nextRun
    ensures PastTheCheck(Step(s, a).starts[run]) ==>
              && run in s.starts && run < s.nextRun
              && (PastTheCheck(s.starts[run]) || (s.starts[run].CheckingFile? && a == FileChecked(run, true)))
    ensures Step(s, a).starts[run].CheckingFile? ==>
              || (run in s.starts && s.starts[run].CheckingFile? && run < s.nextRun)
              || (a == CallStart(true) && s.startPromise.None? && run == s.nextRun)
  {
    match a
    case CallStart(configOk) =>
    case FileChecked(r, ok) =>
    case ClientCreated(r, ok) =>
    case ClientStarted(r, ok) =>
    case FailedDestroyed(r) =>
    case StartSettled(r) =>
    case _ => assert Step(s, a).starts == s.starts;
  }
}
