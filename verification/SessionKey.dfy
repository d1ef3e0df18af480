/**
 The two-level session-key cache of the extension's background worker and the
 auto-lock around it (apps/extension/entrypoints/background.ts). The worker
 keeps the key in memory and mirrors it to `browser.storage.session`, because
 the browser may suspend the worker at any time and so erase its memory.
 Every handler is one atomic step.
 */
module SessionKey {
  import opened Prelude

  /** `memory` is the module variable; `session` is the slot in the session storage area. */
  datatype Cache = Cache(memory: Option<string>, session: Option<string>)

  const EMPTY_CACHE := Cache(None, None)

  /** JavaScript truthiness of a `string | null`. */
  predicate Truthy(key: Option<string>) {
    key.Some? && key.value != ""
  }

  /** `works` says whether the call into the session storage area succeeds; a failure is swallowed. */
  function StoreKey(c: Cache, key: string, works: bool): Cache {
    Cache(Some(key), if works then Some(key) else c.session)
  }

  function ClearKey(c: Cache, works: bool): Cache {
    Cache(None, if works then None else c.session)
  }

  function ReadKey(c: Cache, works: bool): (Cache, Option<string>) {
    if Truthy(c.memory) then (c, c.memory)
    else if works && c.session.Some? then (c.(memory := c.session), c.session)
    else (c, None)
  }

  function SuspendCache(c: Cache): Cache {
    c.(memory := None)
  }

  /** Each call into the session storage area succeeds or fails by itself. */
  datatype CacheOp =
    | Store(key: string, works: bool)
    | Clear(works: bool)
    | Read(works: bool)
    | Suspend

  function ApplyCache(c: Cache, op: CacheOp): Cache {
    match op
    case Store(key, works) => StoreKey(c, key, works)
    case Clear(works) => ClearKey(c, works)
    case Read(works) => ReadKey(c, works).0
    case Suspend => SuspendCache(c)
  }

  function RunCache(ops: seq<CacheOp>): Cache {
    if ops == [] then EMPTY_CACHE else ApplyCache(RunCache(ops[..|ops| - 1]), ops[|ops| - 1])
  }

  /** The abstract cache: one optional key, the last one stored since the last clear. */
  function Latest(ops: seq<CacheOp>): Option<string> {
    if ops == [] then None
    else match ops[|ops| - 1]
      case Store(key, _) => Some(key)
      case Clear(_) => None
      case _ => Latest(ops[..|ops| - 1])
  }

  /** The same, counting only the stores and clears that reached the session area. */
  function Reached(ops: seq<CacheOp>): Option<string> {
    if ops == [] then None
    else match ops[|ops| - 1]
      case Store(key, true) => Some(key)
      case Clear(true) => None
      case _ => Reached(ops[..|ops| - 1])
  }

  /** The last store or clear reached the session area. */
  predicate Mirrored(ops: seq<CacheOp>) {
    ops == [] || match ops[|ops| - 1]
      case Store(_, works) => works
      case Clear(works) => works
      case _ => Mirrored(ops[..|ops| - 1])
  }

  /** The worker was suspended after the last store. */
  predicate SuspendedSinceStore(ops: seq<CacheOp>) {
    ops != [] && match ops[|ops| - 1]
      case Suspend => true
      case Store(_, _) => false
      case _ => SuspendedSinceStore(ops[..|ops| - 1])
  }

  /** The area never works, as in a browser that has none. */
  predicate WithoutArea(ops: seq<CacheOp>) {
    forall i :: 0 <= i < |ops| && !ops[i].Suspend? ==> !ops[i].works
  }

  /** What the two levels hold after any history. */
  lemma {:induction false} CacheShape(ops: seq<CacheOp>)
    ensures RunCache(ops).session == Reached(ops)
    ensures Mirrored(ops) ==> Reached(ops) == Latest(ops)
    ensures WithoutArea(ops) ==> Reached(ops) == None
    ensures if Truthy(Latest(ops)) && !SuspendedSinceStore(ops) then RunCache(ops).memory == Latest(ops)
            else !Truthy(RunCache(ops).memory) || RunCache(ops).memory == Reached(ops)
  {
    if ops != [] {
      CacheShape(ops[..|ops| - 1]);
    }
  }

  /**
   Exactly when the cache refines one key, for every history of stores, clears,
   reads and suspensions and every pattern of storage failures: a read that
   reaches the area returns the last key stored since the last clear if and
   only if that is also what last reached the area, or it is a non-empty key
   that no suspension took from memory.
   */
  lemma CacheRefinesExactly(ops: seq<CacheOp>)
    ensures ReadKey(RunCache(ops), true).1 == Latest(ops) <==>
            Reached(ops) == Latest(ops) || (Truthy(Latest(ops)) && !SuspendedSinceStore(ops))
  {
    CacheShape(ops);
  }

  /** So it does whenever the last store or clear reached the area. */
  lemma CacheRefinesOneKey(ops: seq<CacheOp>)
    requires Mirrored(ops)
    ensures ReadKey(RunCache(ops), true).1 == Latest(ops)
  {
    CacheShape(ops);
    CacheRefinesExactly(ops);
  }

  /** A read that does not reach the area: exactly when nothing is to be returned, or it is still in memory. */
  lemma {:induction false} MemoryAlone(ops: seq<CacheOp>)
    ensures WithoutArea(ops) ==>
              (Truthy(RunCache(ops).memory) <==> Truthy(Latest(ops)) && !SuspendedSinceStore(ops))
  {
    CacheShape(ops);
  }

  /** Without an area: exactly when there is nothing to return, or the key is non-empty and survived in memory. */
  lemma CacheWithoutArea(ops: seq<CacheOp>)
    requires WithoutArea(ops)
    ensures ReadKey(RunCache(ops), false).1 == Latest(ops) <==>
            Latest(ops).None? || (Latest(ops).value != "" && !SuspendedSinceStore(ops))
  {
    CacheShape(ops);
    MemoryAlone(ops);
  }

  /** After a suspension a read returns the key that last reached the area. */
  lemma SuspensionShowsWhatReached(ops: seq<CacheOp>)
    ensures ReadKey(RunCache(ops + [Suspend]), true).1 == Reached(ops)
  {
    CacheShape(ops);
    assert (ops + [Suspend])[..|ops|] == ops;
  }

  /** A failed `remove` brings the cleared key back. */
  lemma FailedRemoveResurrectsKey(key: string)
    ensures var ops := [Store(key, true), Clear(false)];
            Latest(ops) == None && ReadKey(RunCache(ops), true).1 == Some(key)
  {
    var ops := [Store(key, true), Clear(false)];
    assert ops[..1] == [Store(key, true)] && ops[..1][..0] == [];
    assert RunCache(ops[..1]) == Cache(Some(key), Some(key));
  }

  // ------------------------------------------------------------------
  // Auto-lock
  // ------------------------------------------------------------------

  const MS_PER_MINUTE := 60_000

  /** Stored flags, the clock, and the key cache. */
  datatype Wallet = Wallet(cache: Cache, unlocked: bool, timeout: int, lastActive: int, now: int)

  /** The auto-lock deadline is disabled or still ahead. */
  predicate DeadlineOpen(w: Wallet) {
    w.timeout == 0 || w.lastActive == 0 || w.now - w.lastActive < w.timeout * MS_PER_MINUTE
  }

  function LockNow(w: Wallet, works: bool): Wallet {
    w.(unlocked := false, cache := ClearKey(w.cache, works))
  }

  function CheckAutoLock(w: Wallet, works: bool): Wallet {
    if !w.unlocked || w.timeout == 0 || w.lastActive == 0 then w
    else if w.now - w.lastActive >= w.timeout * MS_PER_MINUTE then LockNow(w, works)
    else w
  }

  /**
   Either the key is read or it is cleared, up to twice in a row; `works` says
   whether the read, or one of those clears, reaches the session area.
   */
  function ReadActiveKey(w: Wallet, works: bool): (Wallet, Option<string>) {
    var checked := CheckAutoLock(w, works);
    if !checked.unlocked then (checked.(cache := ClearKey(checked.cache, works)), None)
    else
      var (cache, key) := ReadKey(checked.cache, works);
      (checked.(cache := cache), key)
  }

  /** In every operation that calls into the session area, `works` says whether the call succeeds. */
  datatype WalletOp =
    | SetUnlocked             // the UI flags the wallet unlocked
    | UiLock(works: bool)     // the UI locks: flag off, key cleared
    | SystemLocked(works: bool)     // idle state "locked"
    | AutoLockCheck(works: bool)    // alarm or idle state "idle"
    | Heartbeat
    | SetTimeout(minutes: int)
    | Tick(ms: nat)
    | StoreSession(trusted: bool, key: string, works: bool)
    | ClearSession(trusted: bool, works: bool)
    | GetSession(trusted: bool, works: bool)
    | SuspendWorker

  function ApplyWallet(w: Wallet, op: WalletOp): Wallet {
    match op
    case SetUnlocked => w.(unlocked := true)
    case UiLock(works) => LockNow(w, works)
    case SystemLocked(works) => LockNow(w, works)
    case AutoLockCheck(works) => CheckAutoLock(w, works)
    case Heartbeat => w.(lastActive := w.now)
    case SetTimeout(minutes) => w.(timeout := minutes)
    case Tick(ms) => w.(now := w.now + ms)
    case StoreSession(trusted, key, works) => if trusted then w.(cache := StoreKey(w.cache, key, works)) else w
    case ClearSession(trusted, works) => if trusted then w.(cache := ClearKey(w.cache, works)) else w
    case GetSession(trusted, works) => if trusted then ReadActiveKey(w, works).0 else w
    case SuspendWorker => w.(cache := SuspendCache(w.cache))
  }

  function RunWallet(w: Wallet, ops: seq<WalletOp>): Wallet {
    if ops == [] then w else ApplyWallet(RunWallet(w, ops[..|ops| - 1]), ops[|ops| - 1])
  }

  /** The key a read would find, were the wallet unlocked. */
  function CachedKey(w: Wallet, works: bool): Option<string> {
    ReadKey(w.cache, works).1
  }

  /** A key comes out exactly when the wallet is flagged unlocked, its deadline is open and a key is cached. */
  lemma KeyOnlyWhileUnlocked(w: Wallet, works: bool)
    ensures ReadActiveKey(w, works).1.Some? <==> w.unlocked && DeadlineOpen(w) && CachedKey(w, works).Some?
    ensures ReadActiveKey(w, works).1.Some? ==> ReadActiveKey(w, works).1 == CachedKey(w, works)
  {
  }

  // ------------------------------------------------------------------
  // The deadline over whole runs
  // ------------------------------------------------------------------

  /** The clock after the run. */
  function Clock(w: Wallet, ops: seq<WalletOp>): int {
    if ops == [] then w.now
    else Clock(w, ops[..|ops| - 1]) + if ops[|ops| - 1].Tick? then ops[|ops| - 1].ms else 0
  }

  /** The last sign of activity: the clock at the last heartbeat. */
  function LastHeartbeat(w: Wallet, ops: seq<WalletOp>): int {
    if ops == [] then w.lastActive
    else if ops[|ops| - 1].Heartbeat? then Clock(w, ops[..|ops| - 1])
    else LastHeartbeat(w, ops[..|ops| - 1])
  }

  /** The timeout in force, in minutes. */
  function Timeout(w: Wallet, ops: seq<WalletOp>): int {
    if ops == [] then w.timeout
    else if ops[|ops| - 1].SetTimeout? then ops[|ops| - 1].minutes
    else Timeout(w, ops[..|ops| - 1])
  }

  /** Nothing that the key handlers do touches the clock, the activity or the timeout. */
  lemma {:induction false} TimesFollow(w: Wallet, ops: seq<WalletOp>)
    ensures var end := RunWallet(w, ops);
      end.now == Clock(w, ops) && end.lastActive == LastHeartbeat(w, ops) && end.timeout == Timeout(w, ops)
  {
    if ops != [] {
      TimesFollow(w, ops[..|ops| - 1]);
    }
  }

  /** Since the last heartbeat fewer than the timeout's minutes have passed; zero stands for no timeout, or none yet. */
  predicate WithinTimeout(w: Wallet, ops: seq<WalletOp>) {
    || Timeout(w, ops) == 0 || LastHeartbeat(w, ops) == 0
    || Clock(w, ops) - LastHeartbeat(w, ops) < Timeout(w, ops) * 60 * 1000
  }

  /**
   The auto-lock over every timed run: a key comes out only while fewer than
   the timeout's minutes, of sixty thousand milliseconds each, have passed since
   the last heartbeat, and then whenever the wallet is unlocked and has one; and
   the check locks an unlocked wallet exactly when they have passed.
   */
  lemma AutoLockExactly(w: Wallet, ops: seq<WalletOp>, works: bool)
    ensures var end := RunWallet(w, ops);
      && (ReadActiveKey(end, works).1.Some? <==>
            end.unlocked && WithinTimeout(w, ops) && CachedKey(end, works).Some?)
      && (ApplyWallet(end, AutoLockCheck(works)).unlocked <==> end.unlocked && WithinTimeout(w, ops))
      && (ApplyWallet(end, AutoLockCheck(works)).cache
          == if end.unlocked && !WithinTimeout(w, ops) then ClearKey(end.cache, works) else end.cache)
  {
    TimesFollow(w, ops);
    KeyOnlyWhileUnlocked(RunWallet(w, ops), works);
  }

  // ------------------------------------------------------------------
  // After a lock
  // ------------------------------------------------------------------

  /** A step that really locks. */
  predicate Locks(w: Wallet, op: WalletOp) {
    || op.UiLock? || op.SystemLocked?
    || ((op.AutoLockCheck? || (op.GetSession? && op.trusted)) && w.unlocked && !DeadlineOpen(w))
    || (op.GetSession? && op.trusted && !w.unlocked)
  }

  /** It leaves the flag off and the memory empty, and the area too when its clear reaches it. */
  lemma LockEmpties(w: Wallet, op: WalletOp)
    requires Locks(w, op)
    ensures var locked := ApplyWallet(w, op);
            !locked.unlocked && locked.cache == Cache(None, if op.works then None else w.cache.session)
  {
  }

  predicate StoresKey(op: WalletOp) {
    op.StoreSession? && op.trusted
  }

  /** The step clears the key, or tries to. */
  predicate Clears(w: Wallet, op: WalletOp) {
    Locks(w, op) || (op.ClearSession? && op.trusted)
  }

  /** Some step of the run stored or cleared a key and reached the session area. */
  predicate AreaTouched(w: Wallet, ops: seq<WalletOp>) {
    ops != [] &&
    var front, op := ops[..|ops| - 1], ops[|ops| - 1];
    AreaTouched(w, front) || ((StoresKey(op) || Clears(RunWallet(w, front), op)) && op.works)
  }

  /** The key stored in the run since its last clear and suspension. */
  function InMemory(w: Wallet, ops: seq<WalletOp>): Option<string> {
    if ops == [] then None
    else
      var front, op := ops[..|ops| - 1], ops[|ops| - 1];
      if StoresKey(op) then Some(op.key)
      else if Clears(RunWallet(w, front), op) || op.SuspendWorker? then None
      else InMemory(w, front)
  }

  /** A trusted page stored this key during `ops`. */
  ghost predicate StoredDuring(ops: seq<WalletOp>, key: string) {
    exists i :: 0 <= i < |ops| && StoresKey(ops[i]) && ops[i].key == key
  }

  /** Where the keys in the two levels come from, after `ops` that started with this in the area. */
  ghost predicate Sourced(ops: seq<WalletOp>, session: Option<string>, touched: bool, stored: Option<string>,
      end: Cache) {
    && (if touched then end.session.Some? ==> StoredDuring(ops, end.session.value) else end.session == session)
    && (stored.Some? ==> StoredDuring(ops, stored.value))
    && (if Truthy(stored) then end.memory == stored else end.memory in {None, stored, end.session})
  }

  lemma DuringGrows(ops: seq<WalletOp>)
    requires ops != []
    ensures forall key :: StoredDuring(ops[..|ops| - 1], key) ==> StoredDuring(ops, key)
    ensures StoresKey(ops[|ops| - 1]) ==> StoredDuring(ops, ops[|ops| - 1].key)
  {
    assert forall i :: 0 <= i < |ops| - 1 ==> ops[..|ops| - 1][i] == ops[i];
  }

  /** What one operation does to the cache. */
  lemma CacheAfter(w: Wallet, op: WalletOp)
    ensures var c, d := w.cache, ApplyWallet(w, op).cache;
      d == if StoresKey(op) then StoreKey(c, op.key, op.works)
           else if Clears(w, op) then ClearKey(c, op.works)
           else if op.SuspendWorker? then SuspendCache(c)
           else if op.GetSession? && op.trusted then ReadKey(c, op.works).0
           else c
  {
  }

  lemma {:induction false} WalletShape(w: Wallet, ops: seq<WalletOp>)
    requires w.cache.memory.None?
    ensures Sourced(ops, w.cache.session, AreaTouched(w, ops), InMemory(w, ops), RunWallet(w, ops).cache)
  {
    if ops != [] {
      var front, op := ops[..|ops| - 1], ops[|ops| - 1];
      WalletShape(w, front);
      DuringGrows(ops);
      CacheAfter(RunWallet(w, front), op);
    }
  }

  lemma {:induction false} OnlyUnlockingUnlocks(w: Wallet, ops: seq<WalletOp>)
    requires !w.unlocked && RunWallet(w, ops).unlocked
    ensures SetUnlocked in ops
  {
    if ops[|ops| - 1] != SetUnlocked {
      OnlyUnlockingUnlocks(w, ops[..|ops| - 1]);
    }
  }

  /** Starting locked and empty, whatever is cached later was stored by a trusted page meanwhile. */
  lemma OnlyFreshKeys(w: Wallet, ops: seq<WalletOp>)
    requires !w.unlocked && w.cache == EMPTY_CACHE
    ensures var end := RunWallet(w, ops);
      && (end.cache.memory.Some? ==> StoredDuring(ops, end.cache.memory.value))
      && (end.cache.session.Some? ==> StoredDuring(ops, end.cache.session.value))
      && (end.unlocked ==> SetUnlocked in ops)
  {
    WalletShape(w, ops);
    if RunWallet(w, ops).unlocked {
      OnlyUnlockingUnlocks(w, ops);
    }
  }

  /**
   Exactly when a key from before the lock comes out after a given run, for
   every pattern of storage failures: the wallet is flagged unlocked and inside
   its deadline again, the area held the key when the lock came, neither the
   lock's clear nor any later store or clear reached the area, and no newer key
   is in memory.
   */
  lemma OldKeyComesOutExactly(w: Wallet, lock: WalletOp, ops: seq<WalletOp>, key: string)
    requires Locks(w, lock) && !StoredDuring(ops, key)
    ensures var locked := ApplyWallet(w, lock);
            var end := RunWallet(locked, ops);
      ReadActiveKey(end, true).1 == Some(key) <==>
      && end.unlocked && DeadlineOpen(end)
      && w.cache.session == Some(key) && !lock.works && !AreaTouched(locked, ops) && !Truthy(InMemory(locked, ops))
  {
    var locked := ApplyWallet(w, lock);
    LockEmpties(w, lock);
    WalletShape(locked, ops);
    KeyOnlyWhileUnlocked(RunWallet(locked, ops), true);
  }

  ghost predicate NoStore(ops: seq<WalletOp>) {
    forall i :: 0 <= i < |ops| ==> !StoresKey(ops[i])
  }

  /** Some run without a store brings this key out again. */
  ghost predicate CanComeBack(locked: Wallet, key: string) {
    exists ops :: NoStore(ops) && ReadActiveKey(RunWallet(locked, ops), true).1 == Some(key)
  }

  /** A lock can be outlived by a key exactly when its clear fails and the area holds that key. */
  lemma OldKeyCanComeBackExactly(w: Wallet, lock: WalletOp, key: string)
    requires Locks(w, lock)
    ensures CanComeBack(ApplyWallet(w, lock), key) <==> !lock.works && w.cache.session == Some(key)
  {
    var locked := ApplyWallet(w, lock);
    LockEmpties(w, lock);
    if CanComeBack(locked, key) {
      var ops :| NoStore(ops) && ReadActiveKey(RunWallet(locked, ops), true).1 == Some(key);
      OldKeyComesOutExactly(w, lock, ops, key);
    }
    if !lock.works && w.cache.session == Some(key) {
      var ops := [SetUnlocked, SetTimeout(0)];
      assert ops[..1] == [SetUnlocked] && ops[..1][..0] == [];
      assert RunWallet(locked, ops[..1]) == locked.(unlocked := true);
      assert RunWallet(locked, ops) == locked.(unlocked := true, timeout := 0);
      assert NoStore(ops);
    }
  }

  /** The input: the key is in both levels, the lock's `remove` fails once, and unlocking brings the key back. */
  lemma FailedLockKeepsKey(w: Wallet, key: string)
    requires w.cache == Cache(Some(key), Some(key)) && DeadlineOpen(w)
    ensures ReadActiveKey(RunWallet(ApplyWallet(w, UiLock(false)), [SetUnlocked]), true).1 == Some(key)
  {
    assert RunWallet(ApplyWallet(w, UiLock(false)), [SetUnlocked][..0]) == ApplyWallet(w, UiLock(false));
  }

  /**
   Over any timed run after a lock, a key comes out only once the wallet was
   flagged unlocked again, and it is a key that a trusted page stored since,
   unless the lock's clear failed, nothing reached the area since, and the area
   held that key.
   */
  lemma RelockHolds(w: Wallet, lock: WalletOp, ops: seq<WalletOp>, key: string)
    requires Locks(w, lock)
    requires ReadActiveKey(RunWallet(ApplyWallet(w, lock), ops), true).1 == Some(key)
    ensures SetUnlocked in ops
    ensures StoredDuring(ops, key)
            || (w.cache.session == Some(key) && !lock.works && !AreaTouched(ApplyWallet(w, lock), ops))
  {
    var locked := ApplyWallet(w, lock);
    LockEmpties(w, lock);
    KeyOnlyWhileUnlocked(RunWallet(locked, ops), true);
    OnlyUnlockingUnlocks(locked, ops);
    if !StoredDuring(ops, key) {
      OldKeyComesOutExactly(w, lock, ops, key);
    }
  }
}
