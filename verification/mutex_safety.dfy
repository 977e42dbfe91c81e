/** What every interleaving of the mutex's steps keeps: the word tells who waits and who holds the lock,
    exclusive holders are alone, and waiters are served in order. */
module MutexSafety {
  import opened MutexModel

  /** The lock part of the word that the holders account for. */
  function Held(s: State): nat { LOCK_EXCL * |s.excl| + LOCK_SHARED * |s.shared| }

  ghost predicate Compatible(s: State) {
    |s.excl| <= 1 && (s.excl != {} ==> s.shared == {}) && |s.shared| < MAX_SHARED
  }

  /** The first waiter cannot be granted on top of lock bits `l`. */
  ghost predicate FrontBlocked(waiters: seq<Waiter>, l: nat) {
    waiters != [] ==> !Allow(waiters[0].shared, l)
  }

  ghost predicate DistinctIds(s: State) {
    && (forall j, k :: 0 <= j < k < |s.waiters| ==> s.waiters[j].id != s.waiters[k].id)
    && (forall k :: 0 <= k < |s.waiters| ==>
          s.waiters[k].id !in s.excl && s.waiters[k].id !in s.shared
          && !(s.section.Locking? && s.section.id == s.waiters[k].id))
    && (s.section.Locking? ==> s.section.id !in s.excl && s.section.id !in s.shared)
    && s.excl !! s.shared
  }

  /** With the latch clear, the word is exactly the hint for the first waiter, the exclusive
      bit and the shared count. With the latch set, the section's copy is the lock part. */
  ghost predicate WordOk(s: State) {
    if s.section.Free? then
      s.word == Hint(s.waiters) + Held(s) && FrontBlocked(s.waiters, Held(s))
    else
      Latched(s.word) && s.section.l == Held(s) && (s.section.settled ==> FrontBlocked(s.waiters, Held(s)))
  }

  ghost predicate Inv(s: State) {
    Compatible(s) && WordOk(s) && DistinctIds(s)
  }

  lemma InitInv()
    ensures Inv(INITIAL)
  {
  }

  lemma Unpack(h: nat, e: nat, c: nat)
    requires (h == 0 || h == NEXT_EXCL || h == NEXT_SHARED) && e <= 1
    ensures var w := h + (LOCK_EXCL * e + LOCK_SHARED * c);
            && !Latched(w)
            && (HasNextExcl(w) <==> h == NEXT_EXCL)
            && (HasNextShared(w) <==> h == NEXT_SHARED)
            && (HasExcl(w) <==> e == 1)
            && w / 16 == c
            && LockBits(w) == LOCK_EXCL * e + LOCK_SHARED * c
  {
    if e == 0 {
      LowBits(h, c);
    } else {
      LowBits(h + 8, c);
    }
  }

  lemma Halves(a: nat, b: nat)
    ensures (a + 2 * b) / 2 == a / 2 + b && (a + 2 * b) % 2 == a % 2
  {
  }

  lemma Quotients(k: nat, c: nat)
    ensures var w := k + 16 * c;
            w / 2 == k / 2 + 8 * c && w / 4 == k / 4 + 4 * c && w / 8 == k / 8 + 2 * c && w / 16 == k / 16 + c
  {
  }

  /** The low four bits of a word are those of `k`, and the rest is `c`. */
  lemma LowBits(k: nat, c: nat)
    requires k < 16
    ensures var w := k + 16 * c;
            && w % 2 == k % 2 && w / 2 % 2 == k / 2 % 2 && w / 4 % 2 == k / 4 % 2 && w / 8 % 2 == k / 8
            && w / 16 == c && w / 8 * 8 == k / 8 * 8 + 16 * c
  {
    Quotients(k, c);
    Halves(k, 8 * c);
    Halves(k / 2, 4 * c);
    Halves(k / 4, 2 * c);
    Halves(k / 8, c);
  }

  lemma Decode(s: State)
    requires Inv(s) && s.section.Free?
    ensures !Latched(s.word)
    ensures HasNextExcl(s.word) <==> s.waiters != [] && !s.waiters[0].shared
    ensures HasNextShared(s.word) <==> s.waiters != [] && s.waiters[0].shared
    ensures HasExcl(s.word) <==> s.excl != {}
    ensures s.word / 16 == |s.shared|
    ensures LockBits(s.word) == Held(s)
  {
    Unpack(Hint(s.waiters), |s.excl|, |s.shared|);
  }

  // Every step keeps the invariant

  lemma GrantSharedHeld(s: State, id: nat)
    requires Compatible(s) && id !in s.shared && s.excl == {} && |s.shared| + 1 < MAX_SHARED
    ensures Compatible(Grant(s, id, true))
    ensures Held(Grant(s, id, true)) == Held(s) + LOCK_SHARED < WORD
  {
    var t := Grant(s, id, true);
    assert |t.shared| == |s.shared| + 1;
    assert |t.excl| == 0;
  }

  lemma GrantExclHeld(s: State, id: nat)
    requires s.excl == {} && s.shared == {}
    ensures Compatible(Grant(s, id, false))
    ensures Held(s) == 0 && Held(Grant(s, id, false)) == LOCK_EXCL
  {
    assert Grant(s, id, false).excl == {id};
  }

  /** Which holders the lock bits leave room for. */
  lemma AllowMeans(s: State, shared: bool)
    requires Compatible(s) && Allow(shared, Held(s))
    ensures s.excl == {} && (!shared ==> s.shared == {})
  {
    Unpack(0, |s.excl|, |s.shared|);
    assert s.excl != {} ==> |s.excl| > 0;
    assert s.shared != {} ==> |s.shared| > 0;
  }

  lemma GrantHeld(s: State, id: nat, shared: bool)
    requires Compatible(s) && id !in s.excl && id !in s.shared && Allow(shared, Held(s))
    requires |Grant(s, id, shared).shared| < MAX_SHARED
    ensures Compatible(Grant(s, id, shared))
    ensures Held(Grant(s, id, shared)) == Plus(Held(s), Unit(shared)) == Held(s) + Unit(shared)
  {
    AllowMeans(s, shared);
    if shared {
      assert |Grant(s, id, true).shared| == |s.shared| + 1;
      GrantSharedHeld(s, id);
    } else {
      GrantExclHeld(s, id);
    }
  }

  lemma ReleaseHeld(s: State, id: nat, shared: bool)
    requires Compatible(s) && Holds(s, id, shared)
    ensures Compatible(Release(s, id, shared))
    ensures Held(Release(s, id, shared)) == Minus(Held(s), Unit(shared)) == Held(s) - Unit(shared)
  {
    var t := Release(s, id, shared);
    if shared {
      assert |t.shared| == |s.shared| - 1;
    } else {
      assert |t.excl| == |s.excl| - 1;
    }
  }

  lemma TryLockInv(s: State, id: nat)
    requires Inv(s) && Enabled(s, TryLock(id))
    ensures Inv(Apply(s, TryLock(id)))
  {
    assert s.section.Free?;
    assert Held(s) == 0 && s.waiters == [];
    GrantHeld(s, id, false);
  }

  lemma TryLockSharedInv(s: State, id: nat)
    requires Inv(s) && Enabled(s, TryLockShared(id)) && |Apply(s, TryLockShared(id)).shared| < MAX_SHARED
    ensures Inv(Apply(s, TryLockShared(id)))
  {
    assert s.section.Free?;
    Decode(s);
    GrantHeld(s, id, true);
  }

  lemma FastUnlockInv(s: State, id: nat)
    requires Inv(s) && Enabled(s, FastUnlock(id))
    ensures Inv(Apply(s, FastUnlock(id)))
  {
    assert s.section.Free?;
    Decode(s);
    ReleaseHeld(s, id, false);
  }

  lemma FastUnlockSharedInv(s: State, id: nat)
    requires Inv(s) && Enabled(s, FastUnlockShared(id))
    ensures Inv(Apply(s, FastUnlockShared(id)))
  {
    assert s.section.Free?;
    Decode(s);
    ReleaseHeld(s, id, true);
  }

  lemma LatchSets(w: nat)
    requires !Latched(w)
    ensures Latched(w + LATCH)
  {
  }

  lemma EnterLockInv(s: State, id: nat, shared: bool)
    requires Inv(s) && Enabled(s, EnterLock(id, shared))
    ensures Inv(Apply(s, EnterLock(id, shared)))
  {
    assert s.section.Free?;
    assert LockBits(s.word) == Held(s) by { Decode(s); }
    LatchSets(s.word);
  }

  lemma EnterUnlockInv(s: State, id: nat, shared: bool)
    requires Inv(s) && Enabled(s, EnterUnlock(id, shared))
    ensures Inv(Apply(s, EnterUnlock(id, shared)))
  {
    assert s.section.Free?;
    assert LockBits(s.word) == Held(s) by { Decode(s); }
    LatchSets(s.word);
    ReleaseHeld(s, id, shared);
  }

  lemma DropFront(s: State)
    requires DistinctIds(s) && s.waiters != []
    ensures var t := s.(waiters := s.waiters[1..]);
            DistinctIds(t) && !Queued(t, s.waiters[0].id)
  {
    var t := s.(waiters := s.waiters[1..]);
    forall k | 0 <= k < |t.waiters| ensures t.waiters[k] == s.waiters[k + 1] {}
  }

  lemma NotifyInv(s: State)
    requires Inv(s) && Enabled(s, Notify) && |Apply(s, Notify).shared| < MAX_SHARED
    ensures Inv(Apply(s, Notify))
  {
    if s.waiters != [] {
      DropFront(s);
      var f := s.waiters[0];
      if f.live && Allow(f.shared, s.section.l) {
        GrantHeld(s, f.id, f.shared);
      }
    }
  }

  lemma UnlatchInv(s: State)
    requires Compatible(s) && DistinctIds(s) && !s.section.Free? && FrontBlocked(s.waiters, Held(s))
    ensures Inv(Unlatch(s, Held(s)))
  {
    assert Held(s) + 4 < WORD;
  }

  /** A newcomer takes the lock at once. */
  lemma FinishGrantInv(s: State)
    requires Inv(s) && s.section.Locking? && s.section.settled
    requires s.waiters == [] && Allow(s.section.shared, s.section.l) && |Apply(s, Finish).shared| < MAX_SHARED
    ensures Inv(Apply(s, Finish))
  {
    var id, shared := s.section.id, s.section.shared;
    GrantHeld(s, id, shared);
    var t := Grant(s.(section := Unlocking(s.section.l, true)), id, shared);
    UnlatchInv(t);
    assert Apply(s, Finish) == Unlatch(t, Held(t));
  }

  /** A newcomer joins the back of the queue. */
  lemma FinishQueueInv(s: State)
    requires Inv(s) && s.section.Locking? && s.section.settled
    requires !(s.waiters == [] && Allow(s.section.shared, s.section.l))
    ensures Inv(Apply(s, Finish))
  {
    var w := Waiter(s.section.id, s.section.shared, true);
    var t := s.(section := Unlocking(s.section.l, true), waiters := s.waiters + [w]);
    UnlatchInv(t);
    assert Apply(s, Finish) == Unlatch(t, Held(t));
  }

  lemma FinishInv(s: State)
    requires Inv(s) && Enabled(s, Finish) && |Apply(s, Finish).shared| < MAX_SHARED
    ensures Inv(Apply(s, Finish))
  {
    if s.section.Unlocking? {
      UnlatchInv(s);
    } else if s.waiters == [] && Allow(s.section.shared, s.section.l) {
      FinishGrantInv(s);
    } else {
      FinishQueueInv(s);
    }
  }

  lemma CancelInv(s: State, k: nat)
    requires Inv(s) && Enabled(s, Cancel(k))
    ensures Inv(Apply(s, Cancel(k)))
  {
  }

  lemma ApplyInv(s: State, a: Action)
    requires Inv(s) && Enabled(s, a) && |Apply(s, a).shared| < MAX_SHARED
    ensures Inv(Apply(s, a))
  {
    match a
    case TryLock(id) => TryLockInv(s, id);
    case TryLockShared(id) => TryLockSharedInv(s, id);
    case FastUnlock(id) => FastUnlockInv(s, id);
    case FastUnlockShared(id) => FastUnlockSharedInv(s, id);
    case EnterLock(id, shared) => EnterLockInv(s, id, shared);
    case EnterUnlock(id, shared) => EnterUnlockInv(s, id, shared);
    case Notify => NotifyInv(s);
    case Finish => FinishInv(s);
    case Cancel(k) => CancelInv(s, k);
  }

  lemma {:induction false} RunInv(run: seq<State>, k: nat)
    requires IsRun(run) && k < |run| && Bounded(run, k)
    ensures Inv(run[k])
  {
    if k == 0 {
      InitInv();
    } else {
      RunInv(run, k - 1);
      assert StepAt(run, k - 1);
      var a :| Enabled(run[k - 1], a) && run[k] == Apply(run[k - 1], a);
      ApplyInv(run[k - 1], a);
    }
  }

  // Safety

  /** An exclusive grant never coexists with any other grant. */
  lemma MutualExclusion(run: seq<State>, k: nat, i: nat, j: nat)
    requires IsRun(run) && k < |run| && Bounded(run, k) && i in run[k].excl && (j in run[k].excl || j in run[k].shared)
    ensures i == j && j !in run[k].shared
  {
    RunInv(run, k);
    SingletonHas(run[k].excl, i);
  }

  lemma SingletonHas(a: set<nat>, i: nat)
    requires i in a && |a| <= 1
    ensures a == {i}
  {
    assert |a - {i}| == |a| - 1;
  }

  /** With the latch clear, the word says exactly who waits first and who holds the lock; with it set,
      the holder of the latch has a copy that says who holds the lock. */
  lemma WordDecodes(run: seq<State>, k: nat)
    requires IsRun(run) && k < |run| && Bounded(run, k)
    ensures var s := run[k];
            && (Latched(s.word) <==> !s.section.Free?)
            && (s.section.Free? ==>
                  && (HasNextExcl(s.word) <==> s.waiters != [] && !s.waiters[0].shared)
                  && (HasNextShared(s.word) <==> s.waiters != [] && s.waiters[0].shared)
                  && (HasExcl(s.word) <==> s.excl != {})
                  && s.word / 16 == |s.shared|)
            && (!s.section.Free? ==> s.section.l == (if s.excl != {} then LOCK_EXCL else 0) + LOCK_SHARED * |s.shared|)
  {
    RunInv(run, k);
    assert run[k].excl != {} ==> |run[k].excl| > 0;
    if run[k].section.Free? {
      Decode(run[k]);
    }
  }

  /** No stranded waiter: with the latch clear, a nonempty queue means that the lock is held, in
      a way that the first waiter cannot join. */
  lemma NoStrandedWaiter(run: seq<State>, k: nat)
    requires IsRun(run) && k < |run| && Bounded(run, k) && run[k].section.Free? && run[k].waiters != []
    ensures run[k].excl != {} || run[k].shared != {}
    ensures if run[k].waiters[0].shared then run[k].excl != {} else run[k].excl != {} || run[k].shared != {}
  {
    RunInv(run, k);
    var s := run[k];
    assert s.excl == {} ==> |s.excl| == 0;
    assert s.shared == {} ==> |s.shared| == 0;
  }

  // Fairness

  ghost predicate Granted(s: State, s': State, id: nat) {
    id !in s.excl && id !in s.shared && (id in s'.excl || id in s'.shared)
  }

  /** A grant goes to the first waiter, or to a newcomer when nobody waits. */
  lemma GrantGoesToFront(s: State, a: Action, id: nat)
    requires Inv(s) && Enabled(s, a) && Granted(s, Apply(s, a), id)
    ensures s.waiters == [] || (s.waiters[0].id == id && s.waiters[0].live)
  {
    if s.section.Free? {
      Decode(s);
    }
  }

  /** Request `x` is queued ahead of request `w`. */
  ghost predicate Ahead(s: State, x: nat, w: nat) {
    exists i, j :: 0 <= i < j < |s.waiters| && s.waiters[i].id == x && s.waiters[j].id == w
  }

  /** The queue only loses its front and gains a new back. */
  ghost predicate QueueMoves(q: seq<Waiter>, q': seq<Waiter>, id: nat) {
    || (|q'| == |q| && forall k :: 0 <= k < |q| ==> q'[k].id == q[k].id)
    || (q != [] && q' == q[1..])
    || (|q'| == |q| + 1 && q'[..|q|] == q && q'[|q|].id == id)
  }

  lemma QueueStep(s: State, a: Action)
    requires Inv(s) && Enabled(s, a)
    ensures QueueMoves(s.waiters, Apply(s, a).waiters, if s.section.Locking? then s.section.id else 0)
  {
  }

  /** If `x` is ahead of `w` after a step through which `w` stays queued, it was ahead before. */
  lemma AheadBefore(s: State, a: Action, x: nat, w: nat)
    requires Inv(s) && Enabled(s, a) && Queued(s, w) && Ahead(Apply(s, a), x, w)
    ensures Ahead(s, x, w)
  {
    var q, q' := s.waiters, Apply(s, a).waiters;
    QueueStep(s, a);
    var i, j :| 0 <= i < j < |q'| && q'[i].id == x && q'[j].id == w;
    if q != [] && q' == q[1..] {
      assert q[i + 1].id == x && q[j + 1].id == w;
    } else if |q'| == |q| + 1 && q'[..|q|] == q {
      assert forall k :: 0 <= k < |q| ==> q'[k] == q[k];
    } else {
      assert q[i].id == x && q[j].id == w;
    }
  }

  /** FIFO: while request `w` waits, from state `j` to state `m`, nobody is granted the lock but
      requests that were already queued ahead of `w`; no later lock or try-lock overtakes it. */
  lemma {:induction false} NoOvertaking(run: seq<State>, j: nat, m: nat, w: nat, x: nat)
    requires IsRun(run) && j <= m && m + 1 < |run| && Bounded(run, m) && x != w
    requires forall i :: j <= i <= m ==> Queued(run[i], w)
    requires Granted(run[m], run[m + 1], x)
    ensures Ahead(run[j], x, w)
  {
    RunInv(run, m);
    assert StepAt(run, m);
    var a :| Enabled(run[m], a) && run[m + 1] == Apply(run[m], a);
    GrantGoesToFront(run[m], a, x);
    assert Queued(run[m], w);
    var k :| 0 <= k < |run[m].waiters| && run[m].waiters[k].id == w;
    assert run[m].waiters[0].id == x;
    AheadBack(run, j, m, w, x);
  }

  lemma {:induction false} AheadBack(run: seq<State>, j: nat, m: nat, w: nat, x: nat)
    requires IsRun(run) && j <= m < |run| && Bounded(run, m) && Ahead(run[m], x, w)
    requires forall i :: j <= i <= m ==> Queued(run[i], w)
    ensures Ahead(run[j], x, w)
    decreases m
  {
    if j < m {
      AheadStep(run, m - 1, w, x);
      AheadBack(run, j, m - 1, w, x);
    }
  }

  lemma AheadStep(run: seq<State>, i: nat, w: nat, x: nat)
    requires IsRun(run) && i + 1 < |run| && Bounded(run, i) && Queued(run[i], w) && Ahead(run[i + 1], x, w)
    ensures Ahead(run[i], x, w)
  {
    RunInv(run, i);
    assert StepAt(run, i);
    var a :| Enabled(run[i], a) && run[i + 1] == Apply(run[i], a);
    AheadBefore(run[i], a, x, w);
  }

  // The bound on shared holders is exact

  /** The shared lock that brings the count to 2^28 empties the word, whatever came before. */
  lemma SharedCountWraps(s: State, id: nat)
    requires Inv(s) && s.section.Free? && s.waiters == [] && |s.shared| == MAX_SHARED - 1 && Unused(s, id)
    ensures Enabled(s, TryLockShared(id))
    ensures var t := Apply(s, TryLockShared(id));
            t.word == 0 && |t.shared| == MAX_SHARED
            && forall x :: Unused(t, x) ==>
                 Enabled(t, TryLock(x)) && x in Apply(t, TryLock(x)).excl && Apply(t, TryLock(x)).shared != {}
  {
    assert s.excl == {};
    Decode(s);
    var t := Apply(s, TryLockShared(id));
    assert |t.shared| == |s.shared| + 1;
  }

  /** A run goes on with an enabled step. */
  lemma RunExtends(run: seq<State>, a: Action)
    requires IsRun(run) && Enabled(run[|run| - 1], a)
    ensures IsRun(run + [Apply(run[|run| - 1], a)])
  {
    var t := Apply(run[|run| - 1], a);
    var run' := run + [t];
    assert Next(run[|run| - 1], t);
    forall i | 0 <= i < |run'| - 1 ensures StepAt(run', i) {
      if i < |run| - 1 {
        assert StepAt(run, i);
      }
    }
  }

  /** Any number of shared holders below 2^28 is reached. */
  lemma {:induction false} SharedCountReached(k: nat) returns (run: seq<State>)
    requires k < MAX_SHARED
    ensures IsRun(run) && Bounded(run, |run| - 1)
    ensures var s := run[|run| - 1];
            s == State(LOCK_SHARED * k, [], Free, {}, s.shared) && |s.shared| == k
            && forall id: nat :: id in s.shared <==> id < k
  {
    if k == 0 {
      run := [INITIAL];
    } else {
      var before := SharedCountReached(k - 1);
      var s := before[|before| - 1];
      RunInv(before, |before| - 1);
      Decode(s);
      run := before + [Apply(s, TryLockShared(k - 1))];
      RunExtends(before, TryLockShared(k - 1));
      assert forall j :: 0 <= j < |before| ==> run[j] == before[j];
    }
  }

  /** Exclusion fails at 2^28: some run reaches one exclusive and 2^28 shared holders, and stays below
      the bound until its last two steps. */
  lemma ExclusionFails() returns (run: seq<State>)
    ensures IsRun(run) && |run| > 2 && Bounded(run, |run| - 3)
    ensures |run[|run| - 2].shared| == MAX_SHARED
    ensures var s := run[|run| - 1]; s.excl != {} && |s.shared| == MAX_SHARED
  {
    var before := SharedCountReached(MAX_SHARED - 1);
    var s := before[|before| - 1];
    RunInv(before, |before| - 1);
    SharedCountWraps(s, MAX_SHARED - 1);
    var t := Apply(s, TryLockShared(MAX_SHARED - 1));
    RunExtends(before, TryLockShared(MAX_SHARED - 1));
    assert Unused(t, MAX_SHARED);
    RunExtends(before + [t], TryLock(MAX_SHARED));
    run := before + [t] + [Apply(t, TryLock(MAX_SHARED))];
    assert forall j :: 0 <= j < |before| ==> run[j] == before[j];
    assert t.shared != {};
    assert |run| > 2 by {
      assert before[0] == INITIAL && |s.shared| > 0;
    }
  }

  /** Never more than `m` shared holders. */
  ghost predicate AtMost(run: seq<State>, m: nat) { forall k :: 0 <= k < |run| ==> |run[k].shared| <= m }

  /** Never an exclusive holder beside another. */
  ghost predicate AlwaysExclusive(run: seq<State>) {
    forall k :: 0 <= k < |run| ==> |run[k].excl| <= 1 && (run[k].excl != {} ==> run[k].shared == {})
  }

  /** The bound is exact: exclusion holds in every run with at most `m` shared holders just when `m` is
      below 2^28. */
  lemma ExclusionExactly(m: nat)
    ensures (forall run: seq<State> | IsRun(run) && AtMost(run, m) :: AlwaysExclusive(run)) <==> m < MAX_SHARED
  {
    if m < MAX_SHARED {
      forall run: seq<State> | IsRun(run) && AtMost(run, m) ensures AlwaysExclusive(run) {
        forall k | 0 <= k < |run| ensures |run[k].excl| <= 1 && (run[k].excl != {} ==> run[k].shared == {}) {
          RunInv(run, k);
        }
      }
    } else {
      var run := ExclusionFails();
      forall k | 0 <= k < |run| ensures |run[k].shared| <= m {
        assert k <= |run| - 3 || k == |run| - 2 || k == |run| - 1;
      }
      assert run[|run| - 1].shared != {};
      assert !AlwaysExclusive(run);
    }
  }
}
