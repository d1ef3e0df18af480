/**
 The userbot worker's lifecycle (apps/userbot/src/worker.ts) as a state
 machine: `start` and `shutdown` share the bundles and interleave at their
 awaits. Runs of the two async bodies are kept in maps, so that "at most one in
 flight" is something to prove about the promise guards.
 */
module UserbotLifecycle {
  import opened Prelude

  /** A client bundle, numbered as created. */
  type Bundle = nat

  datatype StartStage =
    | CheckingFile                      // awaiting hasFile
    | CreatingClient                    // awaiting createClient
    | StartingClient(bundle: Bundle)    // awaiting client.start
    | DestroyingFailed(bundle: Bundle)  // awaiting destroy in the catch block
    | StartOver                         // settled; the finally callback is due

  datatype ShutdownStage =
    | DestroyingNext(todo: seq<Bundle>) // awaiting destroy of todo[0]
    | ShutdownOver

  datatype State = State(
    activeBundle: Option<Bundle>,
    startupBundle: Option<Bundle>,
    startPromise: Option<nat>,
    shutdownPromise: Option<nat>,
    starts: map<nat, StartStage>,
    shutdowns: map<nat, ShutdownStage>,
    nextRun: nat,
    created: nat,               // bundles created so far
    destroyed: set<Bundle>,     // bundles whose destroy has settled
    handledSignal: bool,
    exitAwaits: Option<nat>,    // the shutdown run that a signal waits for
    exits: nat
  )

  const INITIAL := State(None, None, None, None, map[], map[], 0, 0, {}, false, None, 0)

  datatype Action =
    | CallStart(configOk: bool)
    | FileChecked(run: nat, ok: bool)     // not ok: hasFile threw, or the session file is missing in user mode
    | ClientCreated(run: nat, ok: bool)
    | ClientStarted(run: nat, ok: bool)
    | FailedDestroyed(run: nat)
    | StartSettled(run: nat)
    | CallShutdown
    | NextDestroyed(run: nat)             // destroy resolved or threw; both are swallowed
    | ShutdownSettled(run: nat)
    | Signal
    | Exit

  function StepCallStart(s: State, configOk: bool): State {
    if s.startPromise.Some? then s
    else s.(startPromise := Some(s.nextRun),
            starts := s.starts[s.nextRun := if configOk then CheckingFile else StartOver],
            nextRun := s.nextRun + 1)
  }

  function Advance(s: State, run: nat, stage: StartStage): State {
    s.(starts := s.starts[run := stage])
  }

  function StepFileChecked(s: State, run: nat, ok: bool): State {
    if run in s.starts && s.starts[run].CheckingFile? then Advance(s, run, if ok then CreatingClient else StartOver)
    else s
  }

  function StepClientCreated(s: State, run: nat, ok: bool): State {
    if run !in s.starts || !s.starts[run].CreatingClient? then s
    else if ok then
      Advance(s, run, StartingClient(s.created)).(created := s.created + 1, startupBundle := Some(s.created))
    else Advance(s, run, StartOver)
  }

  function StepClientStarted(s: State, run: nat, ok: bool): State {
    if run !in s.starts || !s.starts[run].StartingClient? then s
    else if ok then
      Advance(s, run, StartOver).(activeBundle := Some(s.starts[run].bundle), startupBundle := None)
    else Advance(s, run, DestroyingFailed(s.starts[run].bundle))
  }

  function StepFailedDestroyed(s: State, run: nat): State {
    if run in s.starts && s.starts[run].DestroyingFailed? then
      Advance(s, run, StartOver).(destroyed := s.destroyed + {s.starts[run].bundle}, startupBundle := None)
    else s
  }

  function StepStartSettled(s: State, run: nat): State {
    if run in s.starts && s.starts[run].StartOver? then s.(starts := s.starts - {run}, startPromise := None) else s
  }

  function Taken(b: Option<Bundle>): seq<Bundle> {
    if b.None? then [] else [b.value]
  }

  /** The bundles to close, each once: the starting one, then the active one. */
  function ToClose(s: State): seq<Bundle> {
    Taken(s.startupBundle) + (if s.activeBundle == s.startupBundle then [] else Taken(s.activeBundle))
  }

  function AfterDestroys(todo: seq<Bundle>): ShutdownStage {
    if todo == [] then ShutdownOver else DestroyingNext(todo)
  }

  function StepCallShutdown(s: State): State {
    if s.shutdownPromise.Some? then s
    else s.(startupBundle := None, activeBundle := None,
            shutdownPromise := Some(s.nextRun),
            shutdowns := s.shutdowns[s.nextRun := AfterDestroys(ToClose(s))],
            nextRun := s.nextRun + 1)
  }

  function StepNextDestroyed(s: State, run: nat): State {
    if run in s.shutdowns && s.shutdowns[run].DestroyingNext? && s.shutdowns[run].todo != [] then
      var todo := s.shutdowns[run].todo;
      s.(destroyed := s.destroyed + {todo[0]}, shutdowns := s.shutdowns[run := AfterDestroys(todo[1..])])
    else s
  }

  function StepShutdownSettled(s: State, run: nat): State {
    if run in s.shutdowns && s.shutdowns[run].ShutdownOver? then
      s.(shutdowns := s.shutdowns - {run}, shutdownPromise := None)
    else s
  }

  function StepSignal(s: State): State {
    if s.handledSignal then s
    else
      var called := StepCallShutdown(s);
      called.(handledSignal := true, exitAwaits := called.shutdownPromise)
  }

  function StepExit(s: State): State {
    if s.exitAwaits.Some? && s.exitAwaits.value !in s.shutdowns then s.(exitAwaits := None, exits := s.exits + 1) else s
  }

  function Step(s: State, a: Action): State {
    match a
    case CallStart(configOk) => StepCallStart(s, configOk)
    case FileChecked(run, ok) => StepFileChecked(s, run, ok)
    case ClientCreated(run, ok) => StepClientCreated(s, run, ok)
    case ClientStarted(run, ok) => StepClientStarted(s, run, ok)
    case FailedDestroyed(run) => StepFailedDestroyed(s, run)
    case StartSettled(run) => StepStartSettled(s, run)
    case CallShutdown => StepCallShutdown(s)
    case NextDestroyed(run) => StepNextDestroyed(s, run)
    case ShutdownSettled(run) => StepShutdownSettled(s, run)
    case Signal => StepSignal(s)
    case Exit => StepExit(s)
  }

  function Run(s: State, actions: seq<Action>): State {
    if actions == [] then s else Step(Run(s, actions[..|actions| - 1]), actions[|actions| - 1])
  }

  // ------------------------------------------------------------------
  // Single flight
  // ------------------------------------------------------------------

  /** The runs in flight are exactly the one the promise stands for, if any. */
  ghost predicate OneFlight<T>(promise: Option<nat>, runs: map<nat, T>, nextRun: nat) {
    && (forall run :: run in runs <==> promise == Some(run))
    && (promise.Some? ==> promise.value < nextRun)
  }

  /** The bundle that the start in flight works with. */
  function StartHolds(s: State): Option<Bundle> {
    if s.startPromise.Some? && s.startPromise.value in s.starts then
      match s.starts[s.startPromise.value]
      case StartingClient(bundle) => Some(bundle)
      case DestroyingFailed(bundle) => Some(bundle)
      case _ => None
    else None
  }

  function Held(promise: Option<nat>, shutdowns: map<nat, ShutdownStage>): seq<Bundle> {
    if promise.Some? && promise.value in shutdowns && shutdowns[promise.value].DestroyingNext?
    then shutdowns[promise.value].todo else []
  }

  /** The bundles that the shutdown in flight still has to destroy. */
  function ShutdownHolds(s: State): seq<Bundle> {
    Held(s.shutdownPromise, s.shutdowns)
  }

  ghost predicate Created(todo: seq<Bundle>, created: nat) {
    forall b :: b in todo ==> b < created
  }

  ghost predicate Sound(s: State) {
    && OneFlight(s.startPromise, s.starts, s.nextRun)
    && OneFlight(s.shutdownPromise, s.shutdowns, s.nextRun)
    && (s.startupBundle.Some? ==> StartHolds(s) == s.startupBundle)
    && (StartHolds(s).Some? ==> StartHolds(s).value < s.created)
    && (s.activeBundle.Some? ==> s.activeBundle.value < s.created)
    && Created(Held(s.shutdownPromise, s.shutdowns), s.created)
    && (forall b :: b in s.destroyed ==> b < s.created)
    && s.exits + (if s.exitAwaits.Some? then 1 else 0) == (if s.handledSignal then 1 else 0)
    && (s.exitAwaits.Some? ==> s.exitAwaits.value < s.nextRun)
  }

  lemma FileCheckedSound(s: State, run: nat, ok: bool)
    requires Sound(s)
    ensures Sound(StepFileChecked(s, run, ok))
  {
  }

  lemma ClientCreatedSound(s: State, run: nat, ok: bool)
    requires Sound(s)
    ensures Sound(StepClientCreated(s, run, ok))
  {
  }

  lemma ClientStartedSound(s: State, run: nat, ok: bool)
    requires Sound(s)
    ensures Sound(StepClientStarted(s, run, ok))
  {
  }

  lemma StartEndSound(s: State, run: nat)
    requires Sound(s)
    ensures Sound(StepFailedDestroyed(s, run)) && Sound(StepStartSettled(s, run))
  {
    if run in s.starts {
      assert s.startPromise == Some(run);
    }
  }

  lemma ShutdownStepSound(s: State, run: nat)
    requires Sound(s)
    ensures Sound(StepNextDestroyed(s, run)) && Sound(StepShutdownSettled(s, run))
  {
    NextDestroyedSound(s, run);
    if run in s.shutdowns {
      assert s.shutdownPromise == Some(run);
    }
  }

  lemma NextDestroyedSound(s: State, run: nat)
    requires Sound(s)
    ensures Sound(StepNextDestroyed(s, run))
  {
    if run in s.shutdowns {
      assert s.shutdownPromise == Some(run);
      var todo := ShutdownHolds(s);
      assert todo != [] ==> todo[0] in todo && forall b :: b in todo[1..] ==> b in todo;
    }
  }

  lemma CallShutdownSound(s: State)
    requires Sound(s)
    ensures Sound(StepCallShutdown(s))
  {
    assert forall b :: b in ToClose(s) ==> Some(b) in {s.startupBundle, s.activeBundle};
  }

  lemma StepSound(s: State, a: Action)
    requires Sound(s)
    ensures Sound(Step(s, a))
  {
    match a
    case FileChecked(run, ok) => FileCheckedSound(s, run, ok);
    case ClientCreated(run, ok) => ClientCreatedSound(s, run, ok);
    case ClientStarted(run, ok) => ClientStartedSound(s, run, ok);
    case FailedDestroyed(run) => StartEndSound(s, run);
    case StartSettled(run) => StartEndSound(s, run);
    case CallShutdown => CallShutdownSound(s);
    case NextDestroyed(run) => ShutdownStepSound(s, run);
    case ShutdownSettled(run) => ShutdownStepSound(s, run);
    case Signal => SignalSound(s);
    case CallStart(configOk) => CallStartSound(s, configOk);
    case Exit =>
  }

  lemma SignalSound(s: State)
    requires Sound(s)
    ensures Sound(StepSignal(s))
  {
    CallShutdownSound(s);
  }

  lemma CallStartSound(s: State, configOk: bool)
    requires Sound(s)
    ensures Sound(StepCallStart(s, configOk))
  {
  }

  lemma {:induction false} RunSound(actions: seq<Action>)
    ensures Sound(Run(INITIAL, actions))
  {
    if actions != [] {
      RunSound(actions[..|actions| - 1]);
      StepSound(Run(INITIAL, actions[..|actions| - 1]), actions[|actions| - 1]);
    }
  }

  /**
   In every interleaving at most one start and one shutdown are in flight, a
   startup bundle belongs to the start in flight, and signals exit at most once.
   */
  lemma LifecycleIsSingleFlight(actions: seq<Action>)
    ensures var s := Run(INITIAL, actions);
      && (forall r1, r2 :: r1 in s.starts && r2 in s.starts ==> r1 == r2)
      && (forall r1, r2 :: r1 in s.shutdowns && r2 in s.shutdowns ==> r1 == r2)
      && (s.startPromise.None? <==> s.starts == map[]) && (s.shutdownPromise.None? <==> s.shutdowns == map[])
      && (s.startupBundle.Some? ==> StartHolds(s) == s.startupBundle)
      && s.exits <= 1
  {
    RunSound(actions);
    var s := Run(INITIAL, actions);
    assert s.starts != map[] ==> exists r :: r in s.starts;
    assert s.shutdowns != map[] ==> exists r :: r in s.shutdowns;
  }

  // ------------------------------------------------------------------
  // No client is lost
  // ------------------------------------------------------------------

  ghost predicate FailedStartDestroys(s: State, b: Bundle) {
    s.startPromise.Some? && s.startPromise.value in s.starts && s.starts[s.startPromise.value] == DestroyingFailed(b)
  }

  /** Someone still refers to the client in order to destroy it, or it has been destroyed. */
  ghost predicate Accounted(s: State, b: Bundle) {
    || s.startupBundle == Some(b) || s.activeBundle == Some(b)
    || FailedStartDestroys(s, b) || b in ShutdownHolds(s) || b in s.destroyed
  }

  ghost predicate EveryAccounted(s: State) {
    forall b :: 0 <= b < s.created ==> Accounted(s, b)
  }

  /** A start succeeds while another client is active that nobody has undertaken to destroy. */
  ghost predicate Overwrites(s: State, a: Action) {
    && a.ClientStarted? && a.ok && a.run in s.starts && s.starts[a.run].StartingClient?
    && s.activeBundle.Some? && s.activeBundle.value !in ShutdownHolds(s) && s.activeBundle.value !in s.destroyed
  }

  ghost predicate Overwritten(actions: seq<Action>) {
    actions != [] &&
    (Overwritten(actions[..|actions| - 1])
        || Overwrites(Run(INITIAL, actions[..|actions| - 1]), actions[|actions| - 1]))
  }

  /** A step of the start keeps the clients accounted for that were, the new one included. */
  lemma AccountsGoOn(s: State, end: State)
    requires EveryAccounted(s) && s.created <= end.created <= s.created + 1
    requires forall b :: 0 <= b < s.created && Accounted(s, b) ==> Accounted(end, b)
    requires end.created == s.created + 1 ==> Accounted(end, s.created)
    ensures EveryAccounted(end)
  {
  }

  lemma StartStepAccounts(s: State, a: Action)
    requires Sound(s) && EveryAccounted(s) && !Overwrites(s, a)
    requires a.FileChecked? || a.ClientCreated? || a.ClientStarted? || a.FailedDestroyed? || a.StartSettled?
    ensures EveryAccounted(Step(s, a))
  {
    match a
    case FileChecked(run, ok) => AccountsGoOn(s, StepFileChecked(s, run, ok));
    case ClientCreated(run, ok) => AccountsGoOn(s, StepClientCreated(s, run, ok));
    case ClientStarted(run, ok) => ClientStartedAccounts(s, run, ok);
    case FailedDestroyed(run) => AccountsGoOn(s, StepFailedDestroyed(s, run));
    case StartSettled(run) => AccountsGoOn(s, StepStartSettled(s, run));
  }

  lemma ClientStartedAccounts(s: State, run: nat, ok: bool)
    requires Sound(s) && EveryAccounted(s) && !Overwrites(s, ClientStarted(run, ok))
    ensures EveryAccounted(StepClientStarted(s, run, ok))
  {
    AccountsGoOn(s, StepClientStarted(s, run, ok));
  }

  lemma ShutdownStepAccounts(s: State, a: Action)
    requires Sound(s) && EveryAccounted(s)
    requires a.CallShutdown? || a.NextDestroyed? || a.ShutdownSettled?
    ensures EveryAccounted(Step(s, a))
  {
    var end := Step(s, a);
    forall b | 0 <= b < end.created ensures Accounted(end, b) {
      assert Accounted(s, b);
      HoldsMove(s, a, b);
    }
  }

  /** What a shutdown step does to one client. */
  lemma HoldsMove(s: State, a: Action, b: Bundle)
    requires Sound(s) && (a.CallShutdown? || a.NextDestroyed? || a.ShutdownSettled?)
    ensures b in ShutdownHolds(s) ==> b in ShutdownHolds(Step(s, a)) || b in Step(s, a).destroyed
    ensures a.CallShutdown? && s.shutdownPromise.None? && Some(b) in {s.startupBundle, s.activeBundle} ==>
              b in ShutdownHolds(Step(s, a))
  {
    var todo := ShutdownHolds(s);
    assert todo != [] ==> todo == [todo[0]] + todo[1..];
  }

  lemma StepAccounts(s: State, a: Action)
    requires Sound(s) && EveryAccounted(s) && !Overwrites(s, a)
    ensures EveryAccounted(Step(s, a))
  {
    match a
    case CallStart(_) =>
      forall b | 0 <= b < s.created ensures Accounted(Step(s, a), b) {
        assert Accounted(s, b);
      }
    case CallShutdown => ShutdownStepAccounts(s, a);
    case NextDestroyed(_) => ShutdownStepAccounts(s, a);
    case ShutdownSettled(_) => ShutdownStepAccounts(s, a);
    case Signal =>
      ShutdownStepAccounts(s, CallShutdown);
      forall b | 0 <= b < s.created ensures Accounted(Step(s, a), b) {
        assert Accounted(StepCallShutdown(s), b);
      }
    case Exit =>
      forall b | 0 <= b < s.created ensures Accounted(Step(s, a), b) {
        assert Accounted(s, b);
      }
    case _ => StartStepAccounts(s, a);
  }

  /** Nobody refers to the client, and it has not been destroyed. */
  ghost predicate Lost(s: State, b: Bundle) {
    b < s.created && !Accounted(s, b) && StartHolds(s) != Some(b)
  }

  lemma LostInCall(s: State, b: Bundle)
    requires Sound(s) && Lost(s, b)
    ensures Lost(StepCallShutdown(s), b)
  {
    assert forall x :: x in ToClose(s) ==> Some(x) in {s.startupBundle, s.activeBundle};
  }

  lemma LostInDestroys(s: State, b: Bundle, run: nat)
    requires Sound(s) && Lost(s, b)
    ensures Lost(StepNextDestroyed(s, run), b)
  {
    var todo := ShutdownHolds(s);
    assert todo != [] ==> todo[0] in todo && forall x :: x in todo[1..] ==> x in todo;
  }

  lemma LostInStart(s: State, b: Bundle, run: nat, ok: bool)
    requires Sound(s) && Lost(s, b)
    ensures Lost(StepClientCreated(s, run, ok), b) && Lost(StepClientStarted(s, run, ok), b)
  {
  }

  lemma LostStep(s: State, b: Bundle, a: Action)
    requires Sound(s) && Lost(s, b)
    ensures Lost(Step(s, a), b)
  {
    match a
    case ClientCreated(run, ok) => LostInStart(s, b, run, ok);
    case ClientStarted(run, ok) => LostInStart(s, b, run, ok);
    case CallShutdown => LostInCall(s, b);
    case NextDestroyed(run) => LostInDestroys(s, b, run);
    case Signal => LostInCall(s, b);
    case _ =>
  }

  lemma OverwrittenIsLost(s: State, a: Action)
    requires Sound(s) && Overwrites(s, a) && s.startupBundle != s.activeBundle && StartHolds(s) != s.activeBundle
    ensures Lost(Step(s, a), s.activeBundle.value)
  {
  }

  /** The client that a start is creating or starting is not the active one. */
  ghost predicate StartIsNew(s: State) {
    StartHolds(s).Some? ==> s.activeBundle != StartHolds(s)
  }

  lemma StepStartIsNew(s: State, a: Action)
    requires Sound(s) && StartIsNew(s)
    ensures StartIsNew(Step(s, a))
  {
  }

  /**
   Exactly when a client is lost, over every interleaving of starts, shutdowns
   and signals: when at some point a start succeeded over an active client that
   nobody was destroying. Otherwise every client ever created is starting,
   active, about to be destroyed or destroyed.
   */
  lemma {:induction false} ClientsAreLostExactly(actions: seq<Action>)
    ensures var s := Run(INITIAL, actions);
            StartIsNew(s) && if Overwritten(actions) then exists b :: Lost(s, b) else EveryAccounted(s)
  {
    if actions != [] {
      var front, a := actions[..|actions| - 1], actions[|actions| - 1];
      var before := Run(INITIAL, front);
      ClientsAreLostExactly(front);
      RunSound(front);
      StepStartIsNew(before, a);
      if Overwritten(front) {
        var b :| Lost(before, b);
        LostStep(before, b, a);
      } else if Overwrites(before, a) {
        OverwrittenIsLost(before, a);
      } else {
        StepAccounts(before, a);
      }
    }
  }

  /** No start body runs that could activate a client over an active one. */
  ghost predicate Calm(s: State) {
    s.activeBundle.Some? && s.startPromise.Some? ==>
      s.startPromise.value in s.starts && s.starts[s.startPromise.value].StartOver?
  }

  /** `start` is only called, beyond joining one in flight, when no bundle is active. */
  predicate StartsWhenInactive(s: State, actions: seq<Action>) {
    actions == [] ||
    (var before := Run(s, actions[..|actions| - 1]);
     && StartsWhenInactive(s, actions[..|actions| - 1])
     && (actions[|actions| - 1].CallStart? && before.startPromise.None? ==> before.activeBundle.None?))
  }

  lemma StepCalm(s: State, a: Action)
    requires Sound(s) && Calm(s)
    requires a.CallStart? && s.startPromise.None? ==> s.activeBundle.None?
    ensures Calm(Step(s, a)) && !Overwrites(s, a)
  {
  }

  /** A caller avoids the loss by not calling start over an active bundle, whatever interleaves. */
  lemma {:induction false} ClientsAreNeverLost(actions: seq<Action>)
    requires StartsWhenInactive(INITIAL, actions)
    ensures Calm(Run(INITIAL, actions)) && !Overwritten(actions) && EveryAccounted(Run(INITIAL, actions))
  {
    if actions != [] {
      var front := actions[..|actions| - 1];
      ClientsAreNeverLost(front);
      RunSound(front);
      StepCalm(Run(INITIAL, front), actions[|actions| - 1]);
    }
    ClientsAreLostExactly(actions);
  }

  /** A lost client is never destroyed, however the run goes on. */
  lemma {:induction false} LostForever(s: State, b: Bundle, actions: seq<Action>)
    requires Sound(s) && Lost(s, b)
    ensures Sound(Run(s, actions)) && Lost(Run(s, actions), b)
  {
    if actions != [] {
      var front := actions[..|actions| - 1];
      LostForever(s, b, front);
      StepSound(Run(s, front), actions[|actions| - 1]);
      LostStep(Run(s, front), b, actions[|actions| - 1]);
    }
  }

  lemma RunFour(s: State, a: Action, b: Action, c: Action, d: Action)
    ensures Run(s, [a, b, c, d]) == Step(Step(Step(Step(s, a), b), c), d)
  {
    assert [a, b, c, d][..3] == [a, b, c] && [a, b, c][..2] == [a, b] && [a, b][..1] == [a] && [a][..0] == [];
    assert Run(s, [a]) == Step(s, a);
    assert Run(s, [a, b]) == Step(Run(s, [a]), b);
    assert Run(s, [a, b, c]) == Step(Run(s, [a, b]), c);
  }

  /** A start that succeeds over an active client loses that client for good. */
  lemma StartOverActiveLoses(s: State, b: Bundle, more: seq<Action>)
    requires Sound(s) && s.startPromise.None? && s.activeBundle == Some(b)
    requires b !in ShutdownHolds(s) && b !in s.destroyed
    ensures var r := s.nextRun;
            var end := Run(s, [CallStart(true), FileChecked(r, true), ClientCreated(r, true), ClientStarted(r, true)]);
      end.activeBundle == Some(s.created) && Lost(end, b) && b !in Run(end, more).destroyed
  {
    var r := s.nextRun;
    RunFour(s, CallStart(true), FileChecked(r, true), ClientCreated(r, true), ClientStarted(r, true));
    UpToClient(s, b);
    var started := Step(Step(Step(s, CallStart(true)), FileChecked(r, true)), ClientCreated(r, true));
    StepSound(started, ClientStarted(r, true));
    OverwrittenIsLost(started, ClientStarted(r, true));
    LostForever(Step(started, ClientStarted(r, true)), b, more);
  }

  lemma UpToClient(s: State, b: Bundle)
    requires Sound(s) && s.startPromise.None? && s.activeBundle == Some(b)
    ensures var r := s.nextRun;
            var started := Step(Step(Step(s, CallStart(true)), FileChecked(r, true)), ClientCreated(r, true));
      && Sound(started) && r in started.starts && started.starts[r] == StartingClient(s.created)
      && started.startupBundle == StartHolds(started) == Some(s.created) && started.activeBundle == s.activeBundle
      && started.destroyed == s.destroyed && ShutdownHolds(started) == ShutdownHolds(s)
  {
    var s1 := Step(s, CallStart(true));
    StepSound(s, CallStart(true));
    StepSound(s1, FileChecked(s.nextRun, true));
    StepSound(Step(s1, FileChecked(s.nextRun, true)), ClientCreated(s.nextRun, true));
  }

  // ------------------------------------------------------------------
  // What a shutdown achieves
  // ------------------------------------------------------------------

  /**
   A shutdown that is not already under way takes the starting and the active bundle over, each once,
   and nothing else.
   */
  lemma ShutdownTakesBoth(s: State, b: Bundle)
    requires s.shutdownPromise.None?
    ensures var called := StepCallShutdown(s);
      && called.startupBundle.None? && called.activeBundle.None?
      && multiset(ShutdownHolds(called))[b] == (if Some(b) in {s.startupBundle, s.activeBundle} then 1 else 0)
      && called.starts == s.starts && called.destroyed == s.destroyed
  {
    assert ShutdownHolds(StepCallShutdown(s)) == ToClose(s);
  }

  /** The start in flight, if any, already has its client. */
  ghost predicate NoClientComing(s: State) {
    s.startPromise.Some? ==>
      s.startPromise.value in s.starts
      && !s.starts[s.startPromise.value].CheckingFile? && !s.starts[s.startPromise.value].CreatingClient?
  }

  ghost predicate Draining(s: State) {
    && NoClientComing(s)
    && forall b :: 0 <= b < s.created ==> b in s.destroyed || b in ShutdownHolds(s) || FailedStartDestroys(s, b)
  }

  lemma DrainShutdownStep(s: State, a: Action)
    requires Sound(s) && Draining(s) && (a.CallShutdown? || a.NextDestroyed? || a.ShutdownSettled?)
    ensures Draining(Step(s, a))
  {
    var end := Step(s, a);
    forall b | 0 <= b < end.created
      ensures b in end.destroyed || b in ShutdownHolds(end) || FailedStartDestroys(end, b)
    {
      HoldsMove(s, a, b);
    }
  }

  lemma DrainStep(s: State, a: Action)
    requires Sound(s) && Draining(s) && !a.CallStart?
    ensures Draining(Step(s, a))
  {
    match a
    case CallShutdown => DrainShutdownStep(s, a);
    case NextDestroyed(_) => DrainShutdownStep(s, a);
    case ShutdownSettled(_) => DrainShutdownStep(s, a);
    case Signal => DrainShutdownStep(s, CallShutdown);
    case Exit =>
    case _ => DrainStartStep(s, a);
  }

  lemma DrainStartStep(s: State, a: Action)
    requires Sound(s) && Draining(s)
    requires a.FileChecked? || a.ClientCreated? || a.ClientStarted? || a.FailedDestroyed? || a.StartSettled?
    ensures Draining(Step(s, a))
  {
    match a
    case FileChecked(run, ok) => assert StepFileChecked(s, run, ok) == s;
    case ClientCreated(run, ok) => assert StepClientCreated(s, run, ok) == s;
    case ClientStarted(run, ok) => DrainClientStarted(s, run, ok);
    case FailedDestroyed(run) => DrainFailedDestroyed(s, run);
    case StartSettled(run) => DrainStartSettled(s, run);
  }

  lemma DrainClientStarted(s: State, run: nat, ok: bool)
    requires Sound(s) && Draining(s)
    ensures Draining(StepClientStarted(s, run, ok))
  {
  }

  lemma DrainFailedDestroyed(s: State, run: nat)
    requires Sound(s) && Draining(s)
    ensures Draining(StepFailedDestroyed(s, run))
  {
  }

  lemma DrainStartSettled(s: State, run: nat)
    requires Sound(s) && Draining(s)
    ensures Draining(StepStartSettled(s, run))
  {
  }

  lemma {:induction false} DrainRun(s: State, actions: seq<Action>)
    requires Sound(s) && Draining(s) && forall a :: a in actions ==> !a.CallStart?
    ensures Sound(Run(s, actions)) && Draining(Run(s, actions))
  {
    if actions != [] {
      var front := actions[..|actions| - 1];
      DrainRun(s, front);
      StepSound(Run(s, front), actions[|actions| - 1]);
      DrainStep(Run(s, front), actions[|actions| - 1]);
    }
  }

  ghost predicate NoStart(actions: seq<Action>) {
    forall a :: a in actions ==> !a.CallStart?
  }

  /** Each client was destroyed, or is just being destroyed by the failed start that created it. */
  ghost predicate AllDestroyed(s: State) {
    forall b :: 0 <= b < s.created ==> b in s.destroyed || FailedStartDestroys(s, b)
  }

  /**
   However the run goes on short of another start call: once the shutdown has nothing left to do, no
   client is left.
   */
  ghost predicate DestroysEveryClient(called: State) {
    forall actions :: NoStart(actions) && ShutdownHolds(Run(called, actions)) == []
          ==> AllDestroyed(Run(called, actions))
  }

  lemma CalledDrains(s: State)
    requires Sound(s) && s.shutdownPromise.None? && EveryAccounted(s) && NoClientComing(s)
    ensures Sound(StepCallShutdown(s)) && Draining(StepCallShutdown(s))
  {
    CallShutdownSound(s);
    var called := StepCallShutdown(s);
    forall b | 0 <= b < called.created
      ensures b in called.destroyed || b in ShutdownHolds(called) || FailedStartDestroys(called, b)
    {
      assert Accounted(s, b);
      HoldsMove(s, CallShutdown, b);
    }
  }

  /**
   Exactly when a shutdown destroys every client there ever was, after any
   history that started only while nothing was active: when no client was still
   to come as it was called.
   */
  lemma ShutdownDestroysExactly(history: seq<Action>)
    requires StartsWhenInactive(INITIAL, history) && Run(INITIAL, history).shutdownPromise.None?
    ensures DestroysEveryClient(StepCallShutdown(Run(INITIAL, history))) <==> NoClientComing(Run(INITIAL, history))
  {
    var s := Run(INITIAL, history);
    var called := StepCallShutdown(s);
    RunSound(history);
    ClientsAreNeverLost(history);
    if NoClientComing(s) {
      CalledDrains(s);
      forall actions | NoStart(actions) && ShutdownHolds(Run(called, actions)) == []
        ensures AllDestroyed(Run(called, actions))
      {
        DrainRun(called, actions);
      }
    } else {
      ComingClientEscapes(s, s.startPromise.value);
    }
  }

  /** The run in which a client still to come is created after the shutdown and is destroyed by nobody. */
  function EscapeOf(s: State, r: nat): seq<Action>
    requires r in s.starts
  {
    (if s.starts[r].CheckingFile? then [FileChecked(r, true)] else []) + [ClientCreated(r, true)]
  }

  /** The client is created after the shutdown was called, and nobody undertakes to destroy it. */
  lemma ClientComes(called: State, r: nat)
    requires called.startPromise == Some(r) && r in called.starts && called.starts[r].CreatingClient?
    requires ShutdownHolds(called) == [] && forall b :: b in called.destroyed ==> b < called.created
    ensures var end := Step(called, ClientCreated(r, true));
            ShutdownHolds(end) == [] && !AllDestroyed(end)
  {
    var end := Step(called, ClientCreated(r, true));
    assert end.created == called.created + 1;
    assert called.created !in end.destroyed && !FailedStartDestroys(end, called.created);
  }

  lemma EscapeRuns(called: State, r: nat)
    requires r in called.starts && (called.starts[r].CheckingFile? || called.starts[r].CreatingClient?)
    ensures var creating := if called.starts[r].CheckingFile? then Step(called, FileChecked(r, true)) else called;
            Run(called, EscapeOf(called, r)) == Step(creating, ClientCreated(r, true))
  {
    if called.starts[r].CheckingFile? {
      RunPair(called, FileChecked(r, true), ClientCreated(r, true));
    } else {
      assert EscapeOf(called, r) == [ClientCreated(r, true)];
      RunSingle(called, ClientCreated(r, true));
    }
  }

  lemma ComingClientEscapes(s: State, r: nat)
    requires Sound(s) && Calm(s) && s.shutdownPromise.None?
    requires s.startPromise == Some(r) && (s.starts[r].CheckingFile? || s.starts[r].CreatingClient?)
    ensures !DestroysEveryClient(StepCallShutdown(s))
  {
    var called := StepCallShutdown(s);
    CallShutdownSound(s);
    NothingToTake(s);
    EscapeRuns(called, r);
    ClientComes(if called.starts[r].CheckingFile? then Step(called, FileChecked(r, true)) else called, r);
    NotEvery(called, EscapeOf(called, r));
  }

  lemma NothingToTake(s: State)
    requires s.startupBundle.None? && s.activeBundle.None? && s.shutdownPromise.None?
    ensures ShutdownHolds(StepCallShutdown(s)) == []
  {
    assert ToClose(s) == [];
  }

  lemma NotEvery(called: State, actions: seq<Action>)
    requires NoStart(actions) && ShutdownHolds(Run(called, actions)) == [] && !AllDestroyed(Run(called, actions))
    ensures !DestroysEveryClient(called)
  {
  }

  lemma RunSingle(s: State, a: Action)
    ensures Run(s, [a]) == Step(s, a)
  {
    assert [a][..0] == [];
  }

  lemma RunPair(s: State, a: Action, b: Action)
    ensures Run(s, [a] + [b]) == Step(Step(s, a), b)
  {
    RunSingle(s, a);
    assert ([a] + [b])[..1] == [a];
  }

  /**
   A client still to come when the shutdown is called, before or after its
   session file was checked, escapes it: it ends up active, with no shutdown left.
   */
  lemma ShutdownMissesComingClient(s: State, r: nat)
    requires Sound(s) && s.startPromise == Some(r) && (s.starts[r].CheckingFile? || s.starts[r].CreatingClient?)
    requires s.shutdownPromise.None? && s.startupBundle.None? && s.activeBundle.None?
    ensures var settled := Step(StepCallShutdown(s), ShutdownSettled(s.nextRun));
            var creating := if s.starts[r].CheckingFile? then Step(settled, FileChecked(r, true)) else settled;
            var end := Step(Step(creating, ClientCreated(r, true)), ClientStarted(r, true));
      && end.activeBundle == Some(s.created) && s.created !in end.destroyed
      && end.shutdowns == map[] && end.shutdownPromise.None?
  {
    assert ToClose(s) == [];
    var settled := Step(StepCallShutdown(s), ShutdownSettled(s.nextRun));
    assert settled.shutdowns == map[];
  }
}
