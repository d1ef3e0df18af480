/**
 The userbot worker object (apps/userbot/src/worker.ts): the variables its
 closures share, and each stretch between two awaits as a method that updates
 them, tied to the lifecycle's step functions.
 */
module UserbotWorker {
  import opened Prelude
  import opened UserbotLifecycle

  class Worker {
    var activeBundle: Option<Bundle>
    var startupBundle: Option<Bundle>
    var startPromise: Option<nat>
    var shutdownPromise: Option<nat>
    var hasHandledSignal: bool

    // Async bodies in flight.
    var starts: map<nat, StartStage>
    var shutdowns: map<nat, ShutdownStage>
    var nextRun: nat

    // The outside: clients created and destroyed, and process exits.
    var created: nat
    ghost var destroyed: set<Bundle>
    var exitAwaits: Option<nat>
    ghost var exits: nat

    ghost function View(): State
      reads this
    {
      State(activeBundle, startupBundle, startPromise, shutdownPromise, starts, shutdowns, nextRun, created, destroyed,
            hasHandledSignal, exitAwaits, exits)
    }

    constructor ()
      ensures View() == INITIAL
    {
      activeBundle, startupBundle, startPromise, shutdownPromise := None, None, None, None;
      hasHandledSignal, starts, shutdowns, nextRun := false, map[], map[], 0;
      created, destroyed, exitAwaits, exits := 0, {}, None, 0;
    }

    method Start(configOk: bool) returns (promise: nat)
      modifies this
      ensures View() == Step(old(View()), CallStart(configOk))
      ensures startPromise == Some(promise)
    {
      if startPromise.Some? {
        return startPromise.value;
      }
      starts := starts[nextRun := if configOk then CheckingFile else StartOver];
      startPromise := Some(nextRun);
      nextRun := nextRun + 1;
      return nextRun - 1;
    }

    /** Fails in user mode when the session file is missing. */
    method OnFileChecked(run: nat, ok: bool)
      modifies this`starts
      ensures View() == Step(old(View()), FileChecked(run, ok))
    {
      if run in starts && starts[run].CheckingFile? {
        starts := starts[run := if ok then CreatingClient else StartOver];
      }
    }

    method OnClientCreated(run: nat, ok: bool)
      modifies this`starts, this`created, this`startupBundle
      ensures View() == Step(old(View()), ClientCreated(run, ok))
    {
      if run in starts && starts[run].CreatingClient? {
        if ok {
          var bundle := created;
          created := created + 1;
          startupBundle := Some(bundle);
          starts := starts[run := StartingClient(bundle)];
        } else {
          starts := starts[run := StartOver];
        }
      }
    }

    method OnClientStarted(run: nat, ok: bool)
      modifies this`starts, this`activeBundle, this`startupBundle
      ensures View() == Step(old(View()), ClientStarted(run, ok))
    {
      if run in starts && starts[run].StartingClient? {
        var bundle := starts[run].bundle;
        if ok {
          activeBundle := Some(bundle);
          startupBundle := None;
          starts := starts[run := StartOver];
        } else {
          starts := starts[run := DestroyingFailed(bundle)];
        }
      }
    }

    method OnFailedDestroyed(run: nat)
      modifies this`starts, this`startupBundle, this`destroyed
      ensures View() == Step(old(View()), FailedDestroyed(run))
    {
      if run in starts && starts[run].DestroyingFailed? {
        destroyed := destroyed + {starts[run].bundle};
        startupBundle := None;
        starts := starts[run := StartOver];
      }
    }

    method OnStartSettled(run: nat)
      modifies this`starts, this`startPromise
      ensures View() == Step(old(View()), StartSettled(run))
    {
      if run in starts && starts[run].StartOver? {
        starts := starts - {run};
        startPromise := None;
      }
    }

    method Shutdown() returns (promise: nat)
      modifies this
      ensures View() == Step(old(View()), CallShutdown)
      ensures shutdownPromise == Some(promise)
    {
      if shutdownPromise.Some? {
        return shutdownPromise.value;
      }
      var bundlesToClose: seq<Bundle> := [];
      if startupBundle.Some? {
        bundlesToClose := bundlesToClose + [startupBundle.value];
      }
      if activeBundle.Some? && activeBundle.value !in bundlesToClose {
        bundlesToClose := bundlesToClose + [activeBundle.value];
      }
      assert bundlesToClose == ToClose(View());
      startupBundle := None;
      activeBundle := None;
      shutdowns := shutdowns[nextRun := AfterDestroys(bundlesToClose)];
      shutdownPromise := Some(nextRun);
      nextRun := nextRun + 1;
      return nextRun - 1;
    }

    method OnNextDestroyed(run: nat)
      modifies this`shutdowns, this`destroyed
      ensures View() == Step(old(View()), NextDestroyed(run))
    {
      if run in shutdowns && shutdowns[run].DestroyingNext? && shutdowns[run].todo != [] {
        var todo := shutdowns[run].todo;
        destroyed := destroyed + {todo[0]};
        shutdowns := shutdowns[run := AfterDestroys(todo[1..])];
      }
    }

    method OnShutdownSettled(run: nat)
      modifies this`shutdowns, this`shutdownPromise
      ensures View() == Step(old(View()), ShutdownSettled(run))
    {
      if run in shutdowns && shutdowns[run].ShutdownOver? {
        shutdowns := shutdowns - {run};
        shutdownPromise := None;
      }
    }

    /** SIGINT or SIGTERM. */
    method HandleSignal()
      modifies this
      ensures View() == Step(old(View()), Signal)
    {
      if hasHandledSignal {
        return;
      }
      hasHandledSignal := true;
      var promise := Shutdown();
      exitAwaits := Some(promise);
    }

    method OnExit()
      modifies this`exitAwaits, this`exits
      ensures View() == Step(old(View()), Exit)
    {
      if exitAwaits.Some? && exitAwaits.value !in shutdowns {
        exitAwaits := None;
        exits := exits + 1;
      }
    }

    method Perform(a: Action)
      modifies this
      ensures View() == Step(old(View()), a)
    {
      match a
      case CallStart(configOk) => var _ := Start(configOk);
      case FileChecked(run, ok) => OnFileChecked(run, ok);
      case ClientCreated(run, ok) => OnClientCreated(run, ok);
      case ClientStarted(run, ok) => OnClientStarted(run, ok);
      case FailedDestroyed(run) => OnFailedDestroyed(run);
      case StartSettled(run) => OnStartSettled(run);
      case CallShutdown => var _ := Shutdown();
      case NextDestroyed(run) => OnNextDestroyed(run);
      case ShutdownSettled(run) => OnShutdownSettled(run);
      case Signal => HandleSignal();
      case Exit => OnExit();
    }

    /** Whatever interleaves, the worker's variables go through the lifecycle's run. */
    method Execute(actions: seq<Action>)
      modifies this
      ensures View() == Run(old(View()), actions)
    {
      for i := 0 to |actions|
        invariant View() == Run(old(View()), actions[..i])
      {
        Perform(actions[i]);
        assert actions[..i + 1][..i] == actions[..i];
      }
      assert actions[..|actions|] == actions;
    }
  }
}
