/** The shared/exclusive FIFO mutex as a transition system. One 32-bit word packs a latch bit,
    two hint bits for the kind of the first waiter, an exclusive bit and a shared count. Every
    compare-exchange is one step; a latched section is entered, goes through its waiters one
    by one, and is left, with other threads' steps in between. */
module MutexModel {

  const WORD := 0x1_0000_0000
  const LATCH := 1
  const NEXT_EXCL := 2
  const NEXT_SHARED := 4
  const LOCK_EXCL := 8
  const LOCK_SHARED := 16
  const MAX_SHARED := 0x1000_0000

  // Bit tests on the word, written with division

  predicate Latched(w: nat) { w % 2 == 1 }
  predicate HasNextExcl(w: nat) { w / 2 % 2 == 1 }
  predicate HasNextShared(w: nat) { w / 4 % 2 == 1 }
  predicate HasExcl(w: nat) { w / 8 % 2 == 1 }

  /** `w & ~mfm_next` for an unlatched word. */
  function LockBits(w: nat): nat { w / 8 * 8 }

  function Plus(w: nat, d: nat): nat { (w + d) % WORD }
  function Minus(w: nat, d: nat): nat { (w - d) % WORD }

  function Unit(shared: bool): nat { if shared then LOCK_SHARED else LOCK_EXCL }

  /** `mutex::allow`. */
  predicate Allow(shared: bool, l: nat) {
    if shared then !HasExcl(l) else l < LOCK_EXCL
  }

  /** A queued request. It stops being live when nobody else refers to its event. */
  datatype Waiter = Waiter(id: nat, shared: bool, live: bool)

  /** The hint that `unlatch` adds for the first waiter. */
  function Hint(waiters: seq<Waiter>): nat {
    if waiters == [] then 0 else if waiters[0].shared then NEXT_SHARED else NEXT_EXCL
  }

  /** Who is inside the latch. `l` is the section's local copy of the word, and `settled` says
      that `notify_locked` has returned. */
  datatype Section =
    | Free
    | Locking(id: nat, shared: bool, l: nat, settled: bool)
    | Unlocking(l: nat, settled: bool)
  {
    function With(l': nat, settled': bool): Section
      requires !Free?
    {
      match this
      case Locking(i, sh, _, _) => Locking(i, sh, l', settled')
      case Unlocking(_, _) => Unlocking(l', settled')
    }
  }

  /** `excl` and `shared` record who holds the lock; no guard below reads them, except that
      only a holder unlocks. */
  datatype State = State(word: nat, waiters: seq<Waiter>, section: Section, excl: set<nat>, shared: set<nat>)

  const INITIAL := State(0, [], Free, {}, {})

  function Grant(s: State, id: nat, shared: bool): State {
    if shared then s.(shared := s.shared + {id}) else s.(excl := s.excl + {id})
  }

  function Release(s: State, id: nat, shared: bool): State {
    if shared then s.(shared := s.shared - {id}) else s.(excl := s.excl - {id})
  }

  predicate Holds(s: State, id: nat, shared: bool) {
    if shared then id in s.shared else id in s.excl
  }

  predicate Queued(s: State, id: nat) {
    exists k :: 0 <= k < |s.waiters| && s.waiters[k].id == id
  }

  /** A name for a request that has not been used by one still in progress. */
  predicate Unused(s: State, id: nat) {
    id !in s.excl && id !in s.shared && !Queued(s, id) && !(s.section.Locking? && s.section.id == id)
  }

  datatype Action =
    | TryLock(id: nat)
    | TryLockShared(id: nat)
    | FastUnlock(id: nat)
    | FastUnlockShared(id: nat)
    | EnterLock(id: nat, shared: bool)
    | EnterUnlock(id: nat, shared: bool)
    | Notify
    | Finish
    | Cancel(k: nat)

  /** When a step can happen. The fast paths are the successful compare-exchanges; a failed one
      changes nothing. */
  predicate Enabled(s: State, a: Action) {
    match a
    case TryLock(id) => Unused(s, id) && s.word == 0
    case TryLockShared(id) =>
      Unused(s, id) && !Latched(s.word) && !HasNextExcl(s.word) && !HasNextShared(s.word) && !HasExcl(s.word)
    case FastUnlock(id) =>
      id in s.excl && !Latched(s.word) && !HasNextExcl(s.word) && !HasNextShared(s.word)
    case FastUnlockShared(id) =>
      id in s.shared && !Latched(s.word) && !HasNextShared(s.word)
      && (!HasNextExcl(s.word) || s.word >= 2 * LOCK_SHARED)
    case EnterLock(id, _) => Unused(s, id) && !Latched(s.word)
    case EnterUnlock(id, shared) => Holds(s, id, shared) && !Latched(s.word)
    case Notify => !s.section.Free? && !s.section.settled
    case Finish => !s.section.Free? && s.section.settled
    case Cancel(k) => k < |s.waiters| && s.waiters[k].live
  }

  /** One turn of the loop in `notify_locked`: stop, drop a dead waiter, or grant the front. */
  function NotifyTurn(s: State): State
    requires !s.section.Free?
  {
    var l := s.section.l;
    if s.waiters == [] then s.(section := s.section.With(l, true))
    else
      var f := s.waiters[0];
      if !f.live then s.(waiters := s.waiters[1..])
      else if !Allow(f.shared, l) then s.(section := s.section.With(l, true))
      else
        Grant(s.(waiters := s.waiters[1..], section := s.section.With(Plus(l, Unit(f.shared)), false)), f.id, f.shared)
  }

  /** `unlatch`. */
  function Unlatch(s: State, l: nat): State {
    s.(word := Plus(l, Hint(s.waiters)), section := Free)
  }

  /** The rest of `lock_impl` or `unlock_impl` after `notify_locked`. */
  function Leave(s: State): State
    requires !s.section.Free?
  {
    match s.section
    case Unlocking(l, _) => Unlatch(s, l)
    case Locking(id, shared, l, _) =>
      if s.waiters == [] && Allow(shared, l) then Unlatch(Grant(s, id, shared), Plus(l, Unit(shared)))
      else Unlatch(s.(waiters := s.waiters + [Waiter(id, shared, true)]), l)
  }

  function Apply(s: State, a: Action): State
    requires Enabled(s, a)
  {
    match a
    case TryLock(id) => Grant(s.(word := LOCK_EXCL), id, false)
    case TryLockShared(id) => Grant(s.(word := Plus(s.word, LOCK_SHARED)), id, true)
    case FastUnlock(id) => Release(s.(word := Minus(s.word, LOCK_EXCL)), id, false)
    case FastUnlockShared(id) => Release(s.(word := Minus(s.word, LOCK_SHARED)), id, true)
    case EnterLock(id, shared) =>
      s.(word := s.word + LATCH, section := Locking(id, shared, LockBits(s.word), false))
    case EnterUnlock(id, shared) =>
      Release(s.(word := s.word + LATCH, section := Unlocking(Minus(LockBits(s.word), Unit(shared)), false)), id,
        shared)
    case Notify => NotifyTurn(s)
    case Finish => Leave(s)
    case Cancel(k) => s.(waiters := s.waiters[k := s.waiters[k].(live := false)])
  }

  ghost predicate IsRun(run: seq<State>) {
    |run| > 0 && run[0] == INITIAL && forall k :: 0 <= k < |run| - 1 ==> StepAt(run, k)
  }

  /** Up to state `k`, shared holders never reach 2^28. */
  ghost predicate Bounded(run: seq<State>, k: nat)
    requires k < |run|
  {
    forall j :: 0 <= j <= k ==> |run[j].shared| < MAX_SHARED
  }

  ghost predicate StepAt(run: seq<State>, k: nat)
    requires k + 1 < |run|
  {
    Next(run[k], run[k + 1])
  }

  ghost predicate Next(s: State, s': State) {
    exists a :: Enabled(s, a) && s' == Apply(s, a)
  }
}
