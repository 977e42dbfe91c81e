/** What becomes of a request, from the call that makes it to the grant, over whole runs and without any
    bound on holders: it keeps its kind and its place until it is granted in that kind or cancelled. */
module MutexRequests {
  import opened MutexModel
  import opened MutexSafety

  // Names of requests

  ghost predicate Named(q: seq<Waiter>, excl: set<nat>, shared: set<nat>) {
    && (forall i, j | 0 <= i < j < |q| :: q[i].id != q[j].id)
    && (forall k | 0 <= k < |q| :: q[k].id !in excl && q[k].id !in shared)
    && excl !! shared
  }

  /** The word is latched exactly during a section. */
  ghost predicate LatchOk(s: State) {
    if s.section.Free? then s.word % 2 == 0 else s.word % 2 == 1 && s.section.l % 2 == 0
  }

  lemma Doubled(x: int, r: int)
    requires r == 2 * x
    ensures r % 2 == 0
  {
  }

  lemma EvenWord(x: int)
    requires x % 2 == 0
    ensures x % WORD % 2 == 0
  {
    var h, q := x / 2, x / WORD;
    Doubled(h - q * 0x8000_0000, x % WORD);
  }

  lemma EvenPlus(w: nat, d: nat)
    requires w % 2 == 0 && d % 2 == 0
    ensures Plus(w, d) % 2 == 0 && Minus(w, d) % 2 == 0 && (w + LATCH) % 2 == 1
  {
    assert (w + d) % 2 == 0 && (w - d) % 2 == 0;
    EvenWord(w + d);
    EvenWord(w - d);
  }

  lemma EvenBits(w: nat)
    ensures LockBits(w) % 2 == 0
  {
    Doubled(w / 8 * 4, LockBits(w));
  }

  lemma ApplyLatch(s: State, a: Action)
    requires LatchOk(s) && Enabled(s, a)
    ensures LatchOk(Apply(s, a))
  {
    match a
    case TryLock(_) =>
    case TryLockShared(_) => EvenPlus(s.word, LOCK_SHARED);
    case FastUnlock(_) => EvenPlus(s.word, LOCK_EXCL);
    case FastUnlockShared(_) => EvenPlus(s.word, LOCK_SHARED);
    case EnterLock(_, _) =>
      EvenBits(s.word);
      EvenPlus(s.word, 0);
    case EnterUnlock(_, shared) =>
      EvenBits(s.word);
      EvenPlus(s.word, 0);
      EvenPlus(LockBits(s.word), Unit(shared));
    case Notify => NotifyLatch(s);
    case Finish => LeaveLatch(s);
    case Cancel(_) =>
  }

  lemma NotifyLatch(s: State)
    requires LatchOk(s) && !s.section.Free?
    ensures LatchOk(NotifyTurn(s))
  {
    if s.waiters != [] {
      EvenPlus(s.section.l, Unit(s.waiters[0].shared));
    }
  }

  lemma LeaveLatch(s: State)
    requires LatchOk(s) && !s.section.Free?
    ensures LatchOk(Leave(s))
  {
    var l := s.section.l;
    if s.section.Locking? && s.waiters == [] && Allow(s.section.shared, l) {
      EvenPlus(l, Unit(s.section.shared));
      EvenPlus(Plus(l, Unit(s.section.shared)), 0);
    } else {
      EvenPlus(l, Hint(Leave(s).waiters));
    }
  }

  /** No request is in two places. */
  ghost predicate Names(s: State) {
    && LatchOk(s)
    && Named(s.waiters, s.excl, s.shared)
    && (s.section.Locking? ==>
          s.section.id !in s.excl && s.section.id !in s.shared && !Queued(s, s.section.id))
  }

  lemma NotQueued(s: State, id: nat)
    requires !Queued(s, id)
    ensures forall k | 0 <= k < |s.waiters| :: s.waiters[k].id != id
  {
  }

  lemma QueuedTail(s: State, t: State, id: nat)
    requires !Queued(s, id) && s.waiters != [] && t.waiters == s.waiters[1..]
    ensures !Queued(t, id)
  {
    forall k | 0 <= k < |t.waiters| ensures t.waiters[k].id != id {
      assert s.waiters[k + 1].id != id;
    }
  }

  lemma NotifyNames(s: State)
    requires Names(s) && !s.section.Free? && LatchOk(NotifyTurn(s))
    ensures Names(NotifyTurn(s))
  {
    var t := NotifyTurn(s);
    if s.waiters != [] && t.waiters == s.waiters[1..] && s.section.Locking? {
      assert s.waiters[0].id != s.section.id;
      QueuedTail(s, t, s.section.id);
    }
  }

  lemma LeaveNames(s: State)
    requires Names(s) && !s.section.Free? && LatchOk(Leave(s))
    ensures Names(Leave(s))
  {
    if s.section.Locking? {
      NotQueued(s, s.section.id);
    }
  }

  lemma CancelNames(s: State, k: nat)
    requires Names(s) && Enabled(s, Cancel(k))
    ensures Names(Apply(s, Cancel(k)))
  {
    var t := Apply(s, Cancel(k));
    forall i | 0 <= i < |s.waiters| ensures t.waiters[i].id == s.waiters[i].id {}
    if s.section.Locking? {
      assert !Queued(t, s.section.id);
    }
  }

  lemma ApplyNames(s: State, a: Action)
    requires Names(s) && Enabled(s, a)
    ensures Names(Apply(s, a))
  {
    ApplyLatch(s, a);
    match a
    case Notify => NotifyNames(s);
    case Finish => LeaveNames(s);
    case Cancel(k) => CancelNames(s, k);
    case TryLock(id) => KeptNames(s, Apply(s, a), id);
    case TryLockShared(id) => KeptNames(s, Apply(s, a), id);
    case FastUnlock(id) => KeptNames(s, Apply(s, a), id);
    case FastUnlockShared(id) => KeptNames(s, Apply(s, a), id);
    case EnterLock(_, _) =>
      assert Queued(Apply(s, a), Apply(s, a).section.id) ==> Queued(s, Apply(s, a).section.id);
    case EnterUnlock(_, _) =>
  }

  /** The queue and the section stay, and holders change by an unqueued name. */
  lemma KeptNames(s: State, t: State, id: nat)
    requires Names(s) && LatchOk(t) && t.waiters == s.waiters && t.section == s.section && t.excl !! t.shared
    requires t.excl <= s.excl + {id} && t.shared <= s.shared + {id}
    requires (t.excl <= s.excl && t.shared <= s.shared)
             || (!Queued(s, id) && !(s.section.Locking? && s.section.id == id))
    ensures Names(t)
  {
    if s.section.Locking? {
      assert Queued(t, s.section.id) ==> Queued(s, s.section.id);
    }
    if !Queued(s, id) {
      NotQueued(s, id);
    }
  }

  lemma {:induction false} RunNames(run: seq<State>, k: nat)
    requires IsRun(run) && k < |run|
    ensures Names(run[k])
  {
    if k > 0 {
      RunNames(run, k - 1);
      assert StepAt(run, k - 1);
      var a :| Enabled(run[k - 1], a) && run[k] == Apply(run[k - 1], a);
      ApplyNames(run[k - 1], a);
    }
  }

  // One request

  /** Request `id` is on its way: at the latch, or queued and live, with the kind it asked for. */
  ghost predicate Waits(s: State, id: nat, shared: bool) {
    || (s.section.Locking? && s.section.id == id && s.section.shared == shared)
    || Waiter(id, shared, true) in s.waiters
  }

  predicate HoldsAny(s: State, id: nat) { id in s.excl || id in s.shared }

  /** It holds the lock in that kind and in no other. */
  predicate HoldsAs(s: State, id: nat, shared: bool) {
    if shared then id in s.shared && id !in s.excl else id in s.excl && id !in s.shared
  }

  /** The action cancels request `id`. */
  predicate Cancels(s: State, a: Action, id: nat) { a.Cancel? && a.k < |s.waiters| && s.waiters[a.k].id == id }

  /** The action is an unlock by holder `id`. */
  predicate Unlocks(a: Action, id: nat) { (a.FastUnlock? || a.FastUnlockShared? || a.EnterUnlock?) && a.id == id }

  lemma NotifyRequest(s: State, id: nat, shared: bool)
    requires Names(s) && !s.section.Free? && Waits(s, id, shared)
    ensures Waits(NotifyTurn(s), id, shared) || HoldsAs(NotifyTurn(s), id, shared)
  {
    var w, t := Waiter(id, shared, true), NotifyTurn(s);
    if w in s.waiters {
      var k :| 0 <= k < |s.waiters| && s.waiters[k] == w;
      if t.waiters == s.waiters {
        assert w in t.waiters;
      } else if k > 0 {
        assert s.waiters[1..][k - 1] == w;
      }
    }
  }

  lemma LeaveRequest(s: State, id: nat, shared: bool)
    requires Names(s) && !s.section.Free? && Waits(s, id, shared)
    ensures Waits(Leave(s), id, shared) || HoldsAs(Leave(s), id, shared)
  {
    var w := Waiter(id, shared, true);
    if w in s.waiters && s.section.Locking? {
      assert w in s.waiters + [Waiter(s.section.id, s.section.shared, true)];
    }
  }

  lemma CancelRequest(s: State, k: nat, id: nat, shared: bool)
    requires Enabled(s, Cancel(k)) && Waits(s, id, shared) && s.waiters[k].id != id
    ensures Waits(Apply(s, Cancel(k)), id, shared)
  {
    var w := Waiter(id, shared, true);
    if w in s.waiters {
      var j :| 0 <= j < |s.waiters| && s.waiters[j] == w;
      assert Apply(s, Cancel(k)).waiters[j] == w;
    }
  }

  /** A request stays as it is until it is granted in the kind it asked for, or cancelled. */
  lemma RequestStep(s: State, a: Action, id: nat, shared: bool)
    requires Names(s) && Enabled(s, a) && Waits(s, id, shared) && !Cancels(s, a, id)
    ensures Waits(Apply(s, a), id, shared) || HoldsAs(Apply(s, a), id, shared)
  {
    match a
    case Notify => NotifyRequest(s, id, shared);
    case Finish => LeaveRequest(s, id, shared);
    case Cancel(k) => CancelRequest(s, k, id, shared);
    case _ =>
  }

  /** A call of `lock` or `lock_shared` makes a request of that kind; a try-lock grants it at once. */
  lemma RequestMade(s: State, a: Action)
    requires Names(s) && Enabled(s, a)
    ensures a.EnterLock? ==> Waits(Apply(s, a), a.id, a.shared) && !HoldsAny(Apply(s, a), a.id)
    ensures a.TryLock? ==> HoldsAs(Apply(s, a), a.id, false)
    ensures a.TryLockShared? ==> HoldsAs(Apply(s, a), a.id, true)
  {
  }

  /** A holder stays one, of the same kind, until it unlocks; then it holds nothing. */
  lemma HolderStep(s: State, a: Action, id: nat, shared: bool)
    requires Names(s) && Enabled(s, a) && HoldsAs(s, id, shared)
    ensures !Unlocks(a, id) ==> HoldsAs(Apply(s, a), id, shared)
    ensures Unlocks(a, id) ==> !HoldsAny(Apply(s, a), id)
  {
    if a.Notify? && s.waiters != [] {
      assert s.waiters[0].id != id;
    }
  }

  // Over runs

  /** The step from state `k` is action `a`. */
  ghost predicate Does(run: seq<State>, k: nat, a: Action)
    requires k + 1 < |run|
  { Enabled(run[k], a) && run[k + 1] == Apply(run[k], a) }

  /** The step from state `k` does not cancel request `id`. */
  ghost predicate Uncancelled(run: seq<State>, k: nat, id: nat)
    requires k + 1 < |run|
  { exists a :: Does(run, k, a) && !Cancels(run[k], a, id) }

  ghost predicate Kept(run: seq<State>, k: nat, id: nat)
    requires k + 1 < |run|
  { exists a :: Does(run, k, a) && !Unlocks(a, id) }

  /** Request `id` is made in the step from state `j`, and is neither granted nor cancelled before state
      `m`. */
  ghost predicate Pending(run: seq<State>, j: nat, m: nat, id: nat, shared: bool) {
    && j < m < |run| && Does(run, j, EnterLock(id, shared))
    && forall x: nat {:trigger Uncancelled(run, x, id)} | j < x < m :: !HoldsAny(run[x], id) && Uncancelled(run, x, id)
  }

  lemma MadeWaits(run: seq<State>, j: nat, id: nat, shared: bool)
    requires j + 1 < |run| && Names(run[j]) && Does(run, j, EnterLock(id, shared))
    ensures Waits(run[j + 1], id, shared)
  {
    RequestMade(run[j], EnterLock(id, shared));
  }

  lemma WaitsOn(run: seq<State>, k: nat, id: nat, shared: bool)
    requires k + 1 < |run| && Names(run[k]) && Waits(run[k], id, shared) && Uncancelled(run, k, id)
    ensures Waits(run[k + 1], id, shared) || HoldsAs(run[k + 1], id, shared)
  {
    var a :| Does(run, k, a) && !Cancels(run[k], a, id);
    RequestStep(run[k], a, id, shared);
  }

  lemma HoldsOn(run: seq<State>, k: nat, id: nat, shared: bool)
    requires k + 1 < |run| && Names(run[k]) && HoldsAs(run[k], id, shared) && Kept(run, k, id)
    ensures HoldsAs(run[k + 1], id, shared)
  {
    var a :| Does(run, k, a) && !Unlocks(a, id);
    HolderStep(run[k], a, id, shared);
  }

  /** Then it waits in state `m` with the kind it was made with, or has just been granted in that kind. */
  lemma {:induction false} RequestKept(run: seq<State>, j: nat, m: nat, id: nat, shared: bool)
    requires IsRun(run) && Pending(run, j, m, id, shared)
    ensures Waits(run[m], id, shared) || HoldsAs(run[m], id, shared)
    ensures m == j + 1 ==> Waits(run[m], id, shared)
    decreases m
  {
    RunNames(run, m - 1);
    if m == j + 1 {
      MadeWaits(run, j, id, shared);
    } else {
      RequestKept(run, j, m - 1, id, shared);
      assert Uncancelled(run, m - 1, id) && !HoldsAny(run[m - 1], id);
      WaitsOn(run, m - 1, id, shared);
    }
  }

  lemma {:induction false} HolderKept(run: seq<State>, g: nat, m: nat, id: nat, shared: bool)
    requires IsRun(run) && g <= m < |run| && HoldsAs(run[g], id, shared)
    requires forall x: nat {:trigger Kept(run, x, id)} | g <= x < m :: Kept(run, x, id)
    ensures HoldsAs(run[m], id, shared)
    decreases m
  {
    if g < m {
      HolderKept(run, g, m - 1, id, shared);
      RunNames(run, m - 1);
      assert Kept(run, m - 1, id);
      HoldsOn(run, m - 1, id, shared);
    }
  }

  /** A request made in the step from `j`, granted in state `g`, and not unlocked up to state `m`. */
  ghost predicate HeldSince(run: seq<State>, j: nat, g: nat, m: nat, id: nat, shared: bool) {
    && Pending(run, j, g, id, shared) && HoldsAny(run[g], id)
    && g <= m < |run| && forall x: nat {:trigger Kept(run, x, id)} | g <= x < m :: Kept(run, x, id)
  }

  /** It holds the lock in the kind that was asked for. */
  lemma GrantedAsAsked(run: seq<State>, j: nat, g: nat, m: nat, id: nat, shared: bool)
    requires IsRun(run) && HeldSince(run, j, g, m, id, shared)
    ensures HoldsAs(run[m], id, shared)
  {
    RequestKept(run, j, g, id, shared);
    RunNames(run, g);
    if Waits(run[g], id, shared) {
      WaitingHoldsNothing(run[g], id, shared);
    }
    HolderKept(run, g, m, id, shared);
  }

  lemma WaitingHoldsNothing(s: State, id: nat, shared: bool)
    requires Names(s) && Waits(s, id, shared)
    ensures !HoldsAny(s, id)
  {
  }

  /** Whoever called `lock` and has the lock is alone, whatever the others called. */
  lemma ExclusionAsAsked(run: seq<State>, j: nat, g: nat, m: nat, id: nat, x: nat)
    requires IsRun(run) && m < |run| && Bounded(run, m) && HeldSince(run, j, g, m, id, false) && HoldsAny(run[m], x)
    ensures x == id
  {
    GrantedAsAsked(run, j, g, m, id, false);
    MutualExclusion(run, m, id, x);
  }

  // Cancelled requests

  /** Request `id` is nowhere, or only left over in the queue. */
  ghost predicate Dead(s: State, id: nat) {
    && !HoldsAny(s, id) && !(s.section.Locking? && s.section.id == id)
    && forall k | 0 <= k < |s.waiters| && s.waiters[k].id == id :: !s.waiters[k].live
  }

  /** The action makes a request `id`. */
  predicate Makes(a: Action, id: nat) { (a.TryLock? || a.TryLockShared? || a.EnterLock?) && a.id == id }

  lemma CancelKills(s: State, k: nat)
    requires Names(s) && Enabled(s, Cancel(k))
    ensures Dead(Apply(s, Cancel(k)), s.waiters[k].id)
  {
    var t, id := Apply(s, Cancel(k)), s.waiters[k].id;
    assert Queued(s, id);
    assert forall j | 0 <= j < |s.waiters| && j != k :: s.waiters[j].id != id && t.waiters[j] == s.waiters[j];
  }

  lemma StaysDead(s: State, a: Action, id: nat)
    requires Enabled(s, a) && Dead(s, id) && !Makes(a, id)
    ensures Dead(Apply(s, a), id)
  {
    var t := Apply(s, a);
    if a.Notify? && t.waiters != s.waiters {
      forall k | 0 <= k < |t.waiters| ensures t.waiters[k] == s.waiters[k + 1] {}
    }
  }

  ghost predicate Unmade(run: seq<State>, k: nat, id: nat)
    requires k + 1 < |run|
  { exists a :: Does(run, k, a) && !Makes(a, id) }

  lemma DeadOn(run: seq<State>, k: nat, id: nat)
    requires k + 1 < |run| && Dead(run[k], id) && Unmade(run, k, id)
    ensures Dead(run[k + 1], id)
  {
    var a :| Does(run, k, a) && !Makes(a, id);
    StaysDead(run[k], a, id);
  }

  lemma DeadFrom(run: seq<State>, j: nat, m: nat, id: nat)
    requires j <= m < |run| && Dead(run[j], id)
    requires forall x: nat {:trigger Unmade(run, x, id)} | j <= x < m :: Unmade(run, x, id)
    ensures Dead(run[m], id)
    decreases m
  {
    if j < m {
      DeadFrom(run, j, m - 1, id);
      assert Unmade(run, m - 1, id);
      DeadOn(run, m - 1, id);
    }
  }

  lemma CancelledIsDead(run: seq<State>, j: nat, k: nat)
    requires IsRun(run) && j + 1 < |run| && Does(run, j, Cancel(k))
    ensures k < |run[j].waiters| && Dead(run[j + 1], run[j].waiters[k].id)
  {
    RunNames(run, j);
    CancelKills(run[j], k);
  }

  /** A request cancelled while it is queued is never granted, unless it is made again. */
  lemma CancelledNotGranted(run: seq<State>, j: nat, k: nat, m: nat, id: nat)
    requires IsRun(run) && j < m < |run| && Does(run, j, Cancel(k)) && run[j].waiters[k].id == id
    requires forall x: nat {:trigger Unmade(run, x, id)} | j < x < m :: Unmade(run, x, id)
    ensures !HoldsAny(run[m], id)
  {
    CancelledIsDead(run, j, k);
    DeadFrom(run, j + 1, m, id);
  }
}
