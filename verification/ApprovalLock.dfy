/**
 The worker's wallet goes through the runs of the key cache and the auto-lock,
 so that what holds after a lock there holds for signing here.
 */
module ApprovalLock {
  import opened Prelude
  import opened SessionKey
  import opened Approvals
  import opened Continuations
  import opened ApprovalLedger

  /** What an action does to the wallet: a wallet step, a suspension, or the key read of a sign decision. */
  function OpOf(s: State, a: Action): seq<WalletOp> {
    match a
    case WalletStep(op) => if op.SuspendWorker? then [] else [op]
    case Suspend => [SuspendWorker]
    case Resume(t, given) => if t in s.tasks && s.tasks[t].ReadingKey? then [GetSession(true, given.works)] else []
    case _ => []
  }

  function OpsOf(start: State, actions: seq<Action>): seq<WalletOp> {
    if actions == [] then []
    else OpsOf(start, actions[..|actions| - 1])
         + OpOf(Run(start, actions[..|actions| - 1]), actions[|actions| - 1])
  }

  lemma WalletNext(w: Wallet, ops: seq<WalletOp>, op: WalletOp)
    ensures RunWallet(w, ops + [op]) == ApplyWallet(RunWallet(w, ops), op)
  {
    assert (ops + [op])[..|ops|] == ops;
  }

  lemma ResumeWallet(s: State, t: nat, given: Given)
    requires t in s.tasks
    ensures StepResume(s, t, given).wallet
            == if s.tasks[t].ReadingKey? then ReadActiveKey(s.wallet, given.works).0 else s.wallet
  {
    match s.tasks[t]
    case Checked(request, seen) => assert ResumeChecked(s, t, request, seen).wallet == s.wallet;
    case ReadingKey(request) =>
      assert ResumeReadingKey(s, t, request, given.works).wallet == ReadActiveKey(s.wallet, given.works).0;
    case Signing(request, key) => assert ResumeSigning(s, t, request, key).wallet == s.wallet;
    case _ =>
  }

  lemma StepWallet(s: State, a: Action)
    ensures OpOf(s, a) == [] ==> Step(s, a).wallet == s.wallet
    ensures OpOf(s, a) != [] ==> |OpOf(s, a)| == 1 && Step(s, a).wallet == ApplyWallet(s.wallet, OpOf(s, a)[0])
  {
    if a.Resume? && a.task in s.tasks {
      ResumeWallet(s, a.task, a.given);
    }
  }

  /** In every interleaving the worker's wallet is that of the run of its wallet operations. */
  lemma {:induction false} WalletFollows(start: State, actions: seq<Action>)
    ensures Run(start, actions).wallet == RunWallet(start.wallet, OpsOf(start, actions))
  {
    if actions != [] {
      var front, last := actions[..|actions| - 1], actions[|actions| - 1];
      var s := Run(start, front);
      WalletFollows(start, front);
      StepWallet(s, last);
      if OpOf(s, last) == [] {
        assert OpsOf(start, front) + [] == OpsOf(start, front);
      } else {
        assert OpOf(s, last) == [OpOf(s, last)[0]];
        WalletNext(start.wallet, OpsOf(start, front), OpOf(s, last)[0]);
      }
    }
  }

  /** A key read is logged only by the decision that reads it, and says what the read returned. */
  lemma KeyReadComes(s: State, a: Action, e: Event)
    requires e in Step(s, a).log && e !in s.log && e.KeyRead?
    ensures OpOf(s, a) != [] && a.Resume? && e.wallet == s.wallet && e.works == a.given.works
    ensures ReadActiveKey(s.wallet, e.works).1 == Some(e.secretKey)
  {
    match a
    case Resume(t, given) => if t in s.tasks { ResumeReads(s, t, given, e); }
    case _ =>
  }

  lemma ResumeReads(s: State, t: nat, given: Given, e: Event)
    requires t in s.tasks && e in StepResume(s, t, given).log && e !in s.log && e.KeyRead?
    ensures s.tasks[t].ReadingKey? && e.wallet == s.wallet && e.works == given.works
    ensures ReadActiveKey(s.wallet, e.works).1 == Some(e.secretKey)
  {
    match s.tasks[t]
    case Checked(request, seen) => CheckedReadsNone(s, t, request, seen, e);
    case ReadingKey(request) => ReadingLogs(s, t, request, given.works, e);
    case Signing(request, key) => SigningReadsNone(s, t, request, key, e);
    case _ =>
  }

  lemma SigningReadsNone(s: State, t: nat, request: Request, key: string, e: Event)
    requires e.KeyRead? && e !in s.log
    ensures e !in ResumeSigning(s, t, request, key).log
  {
  }

  lemma CheckedReadsNone(s: State, t: nat, request: Request, seen: seq<Origin>, e: Event)
    requires e.KeyRead? && e !in s.log
    ensures e !in ResumeChecked(s, t, request, seen).log
  {
    RejectionsAreAnswers(s.pending, request.rid);
  }

  lemma ReadingLogs(s: State, t: nat, request: Request, works: bool, e: Event)
    requires e.KeyRead? && e !in s.log && e in ResumeReadingKey(s, t, request, works).log
    ensures e.wallet == s.wallet && e.works == works && ReadActiveKey(s.wallet, works).1 == Some(e.secretKey)
  {
  }

  // ------------------------------------------------------------------
  // Main results
  // ------------------------------------------------------------------

  ghost predicate SameReads(before: seq<Event>, after: seq<Event>) {
    forall e :: e in after && e.KeyRead? ==> e in before
  }

  /** While the wallet is locked no key is read for signing, whatever the worker does, until it is flagged unlocked. */
  lemma {:induction false} LockStopsSigning(s: State, more: seq<Action>)
    requires !s.wallet.unlocked && WalletStep(SetUnlocked) !in more
    ensures !Run(s, more).wallet.unlocked && SameReads(s.log, Run(s, more).log)
  {
    if more != [] {
      var front, last := more[..|more| - 1], more[|more| - 1];
      LockStopsSigning(s, front);
      var mid := Run(s, front);
      StepWallet(mid, last);
      assert last in more;
      forall e | e in Step(mid, last).log && e.KeyRead? ensures e in s.log {
        if e !in mid.log {
          KeyReadComes(mid, last, e);
          KeyOnlyWhileUnlocked(mid.wallet, e.works);
        }
      }
    }
  }

  /**
   After a lock, a key is read for signing only once the wallet was flagged
   unlocked again, and then it is one that a trusted page stored since, but for
   the one case in which the lock's clear failed, nothing reached the session
   area since, and the area held that very key.
   */
  lemma SigningAfterLock(s: State, lock: WalletOp, more: seq<Action>, a: Action, e: Event)
    requires Locks(s.wallet, lock) && !lock.SuspendWorker?
    requires var mid := Run(Step(s, WalletStep(lock)), more);
             e in Step(mid, a).log && e !in mid.log && e.KeyRead? && e.works
    ensures var ops := OpsOf(Step(s, WalletStep(lock)), more);
      && SetUnlocked in ops
      && (|| StoredDuring(ops, e.secretKey)
          || (s.wallet.cache.session == Some(e.secretKey) && !lock.works
              && !AreaTouched(ApplyWallet(s.wallet, lock), ops)))
  {
    var locked := Step(s, WalletStep(lock));
    WalletFollows(locked, more);
    KeyReadComes(Run(locked, more), a, e);
    RelockHolds(s.wallet, lock, OpsOf(locked, more), e.secretKey);
  }

  /** What survives a suspension: everything in storage. */
  predicate SameStored(s: State, t: State) {
    && s.origins == t.origins && s.originWrites == t.originWrites
    && s.descriptor == t.descriptor && s.descriptorWrites == t.descriptorWrites
    && s.wallet.cache.session == t.wallet.cache.session && s.wallet.unlocked == t.wallet.unlocked
    && s.wallet.timeout == t.wallet.timeout && s.wallet.lastActive == t.wallet.lastActive
  }

  /** A suspension forgets all else: continuations, parked requests and the key in memory; and keeps what is stored. */
  lemma SuspensionForgets(s: State)
    ensures var end := Step(s, Action.Suspend);
      && SameStored(s, end) && end.tasks == map[] && end.pending == [] && end.wallet.cache.memory == None
      && forall a: Action :: a.Decide? || a.ReadOrigins? || a.Resume? || a.Throw? ==> Step(end, a) == end
  {
  }
}
