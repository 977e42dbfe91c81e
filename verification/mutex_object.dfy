/** The mutex object: the methods as the program writes them, each proved to be the composition
    of the model's steps that it performs when nothing interrupts it. */
module MutexObject {
  import opened MutexModel
  import opened MutexSafety

  /** Turns of `notify_locked` until it settles. */
  function NotifyAll(s: State): (t: State)
    requires !s.section.Free?
    ensures !t.section.Free? && t.section.settled && t.word == s.word
    decreases !s.section.settled, |s.waiters|
  {
    if s.section.settled then s else NotifyAll(NotifyTurn(s))
  }

  lemma {:induction false} NotifyAllInv(s: State)
    requires Inv(s) && !s.section.Free? && |NotifyAll(s).shared| < MAX_SHARED
    ensures Inv(NotifyAll(s))
    decreases !s.section.settled, |s.waiters|
  {
    if !s.section.settled {
      NotifyGrows(NotifyTurn(s));
      NotifyInv(s);
      NotifyAllInv(NotifyTurn(s));
    }
  }

  lemma {:induction false} NotifyGrows(s: State)
    requires !s.section.Free?
    ensures |s.shared| <= |NotifyAll(s).shared|
    decreases !s.section.settled, |s.waiters|
  {
    if !s.section.settled {
      var t := NotifyTurn(s);
      assert s.shared <= t.shared;
      assert t.shared == s.shared + (t.shared - s.shared);
      NotifyGrows(t);
    }
  }

  /** The live requests among `ws` of one kind. */
  function Live(ws: seq<Waiter>, shared: bool): set<nat> {
    set k | 0 <= k < |ws| && ws[k].live && ws[k].shared == shared :: ws[k].id
  }

  lemma LiveCons(ws: seq<Waiter>, shared: bool)
    requires ws != []
    ensures Live(ws, shared) ==
            Live(ws[1..], shared) + if ws[0].live && ws[0].shared == shared then {ws[0].id} else {}
  {
    forall id | id in Live(ws, shared)
      ensures id in Live(ws[1..], shared) || (ws[0].live && ws[0].shared == shared && id == ws[0].id)
    {
      var k :| 0 <= k < |ws| && ws[k].live && ws[k].shared == shared && ws[k].id == id;
      if k > 0 {
        assert ws[1..][k - 1].id == id;
      }
    }
    forall id | id in Live(ws[1..], shared) ensures id in Live(ws, shared) {
      var k :| 0 <= k < |ws[1..]| && ws[1..][k].live && ws[1..][k].shared == shared && ws[1..][k].id == id;
      assert ws[k + 1].id == id;
    }
  }

  /** `notify_locked` removes a prefix of the queue, grants exactly the live requests in it, and
      stops only at a live request that the lock then held excludes. */
  lemma {:induction false} NotifyMeaning(s: State) returns (k: nat)
    requires !s.section.Free? && !s.section.settled
    ensures k <= |s.waiters|
    ensures var t := NotifyAll(s);
            && t.waiters == s.waiters[k..]
            && t.excl == s.excl + Live(s.waiters[..k], false)
            && t.shared == s.shared + Live(s.waiters[..k], true)
            && (k < |s.waiters| ==> s.waiters[k].live && !Allow(s.waiters[k].shared, t.section.l))
    decreases |s.waiters|
  {
    var t := NotifyTurn(s);
    if t.section.settled {
      k := 0;
      assert s.waiters[0..] == s.waiters && s.waiters[..0] == [];
    } else {
      var k' := NotifyMeaning(t);
      k := k' + 1;
      assert s.waiters[k..] == t.waiters[k'..];
      LiveCons(s.waiters[..k], true);
      LiveCons(s.waiters[..k], false);
      assert s.waiters[..k][1..] == t.waiters[..k'];
    }
  }

  /** Whether a lock section grants its own request. */
  predicate GrantsSelf(t: State) { t.section.Locking? && t.waiters == [] && Allow(t.section.shared, t.section.l) }

  /** A lock section, by value: `k` waiters leave the front, the live ones with the lock; the newcomer has it
      too or is last in the queue. */
  lemma LockMeans(s: State, id: nat, shared: bool) returns (k: nat)
    requires Enabled(s, EnterLock(id, shared))
    ensures var t := NotifyAll(Apply(s, EnterLock(id, shared)));
            && t.section.Locking? && k <= |s.waiters|
            && var granted := GrantsSelf(t);
            && Leave(t).waiters == s.waiters[k..] + (if granted then [] else [Waiter(id, shared, true)])
            && Leave(t).excl ==
               s.excl + Live(s.waiters[..k], false) + (if granted && !shared then {id} else {})
            && Leave(t).shared ==
               s.shared + Live(s.waiters[..k], true) + (if granted && shared then {id} else {})
  {
    var e := Apply(s, EnterLock(id, shared));
    k := NotifyMeaning(e);
    NotifyKeepsSection(e);
  }

  lemma UnlockMeans(s: State, id: nat, shared: bool) returns (k: nat)
    requires Enabled(s, EnterUnlock(id, shared))
    ensures var t := Leave(NotifyAll(Apply(s, EnterUnlock(id, shared))));
            && k <= |s.waiters| && t.waiters == s.waiters[k..]
            && t.excl == s.excl - (if shared then {} else {id}) + Live(s.waiters[..k], false)
            && t.shared == s.shared - (if shared then {id} else {}) + Live(s.waiters[..k], true)
  {
    var e := Apply(s, EnterUnlock(id, shared));
    k := NotifyMeaning(e);
    NotifyKeepsSection(e);
  }

  class Mutex {
    var word: nat
    var waiters: seq<Waiter>
    ghost var excl: set<nat>
    ghost var shared: set<nat>

    ghost function View(section: Section): State
      reads this
    {
      State(word, waiters, section, excl, shared)
    }

    ghost predicate Valid()
      reads this
    {
      Inv(View(Free))
    }

    constructor ()
      ensures View(Free) == INITIAL && Valid()
    {
      word, waiters, excl, shared := 0, [], {}, {};
    }

    method TryLock(ghost id: nat) returns (ok: bool)
      requires Valid() && Unused(View(Free), id)
      modifies this
      ensures Valid() && (ok <==> old(waiters == [] && excl == {} && shared == {}))
      ensures View(Free) == if ok then Apply(old(View(Free)), MutexModel.TryLock(id)) else old(View(Free))
      ensures ok ==> excl == {id} && shared == {} && waiters == []
    {
      ghost var s := View(Free);
      ok := word == 0;
      if ok {
        word := LOCK_EXCL;
        excl := excl + {id};
        TryLockInv(s, id);
      }
    }

    method TryLockShared(ghost id: nat) returns (ok: bool)
      requires Valid() && Unused(View(Free), id)
      modifies this
      ensures |shared| < MAX_SHARED ==> Valid()
      ensures ok <==> old(waiters == [] && excl == {})
      ensures View(Free) == if ok then Apply(old(View(Free)), MutexModel.TryLockShared(id)) else old(View(Free))
      ensures ok ==> excl == {} && shared == old(shared) + {id} && waiters == []
    {
      ghost var s := View(Free);
      Decode(s);
      var l := word;
      if Latched(l) || HasNextExcl(l) || HasNextShared(l) || HasExcl(l) {
        return false;
      }
      word := Plus(l, LOCK_SHARED);
      shared := shared + {id};
      if |shared| < MAX_SHARED {
        TryLockSharedInv(s, id);
      }
      return true;
    }

    /** `notify_locked(l)`, inside section `section`. */
    method NotifyLocked(l: nat, ghost section: Section) returns (l': nat)
      requires !section.Free? && section.l == l && !section.settled
      modifies this`waiters, this`excl, this`shared
      ensures View(section.With(l', true)) == NotifyAll(old(View(section)))
    {
      l' := l;
      while waiters != []
        invariant NotifyAll(old(View(section))) == NotifyAll(View(section.With(l', false)))
        decreases |waiters|
      {
        var fw := waiters[0];
        if fw.live {
          if !Allow(fw.shared, l') {
            break;
          }
          l' := Plus(l', Unit(fw.shared));
          if fw.shared { shared := shared + {fw.id}; } else { excl := excl + {fw.id}; }
        }
        waiters := waiters[1..];
      }
    }

    /** `latch()`: the word must be unlatched, and is returned without its hints. */
    method Latch() returns (l: nat)
      requires !Latched(word)
      modifies this`word
      ensures l == LockBits(old(word)) && word == old(word) + LATCH
    {
      l := LockBits(word);
      word := word + LATCH;
    }

    /** `unlatch(l)`. */
    method UnlatchWord(l: nat, ghost section: Section)
      modifies this`word
      ensures View(Free) == MutexModel.Unlatch(old(View(section)), l)
    {
      word := Plus(l, Hint(waiters));
    }

    /** The second half of `lock_impl`: take the lock or join the queue. */
    method Settle(isShared: bool, id: nat, l: nat) returns (granted: bool)
      modifies this
      ensures View(Free) == Leave(old(View(Locking(id, isShared, l, true))))
      ensures granted <==> old(waiters) == [] && Allow(isShared, l)
      ensures waiters == old(waiters) + if granted then [] else [Waiter(id, isShared, true)]
      ensures excl == old(excl) + if granted && !isShared then {id} else {}
      ensures shared == old(shared) + if granted && isShared then {id} else {}
    {
      var l' := l;
      granted := waiters == [] && Allow(isShared, l);
      if granted {
        l' := Plus(l', Unit(isShared));
        if isShared { shared := shared + {id}; } else { excl := excl + {id}; }
      } else {
        waiters := waiters + [Waiter(id, isShared, true)];
      }
      UnlatchWord(l', Free);
    }

    /** `k` waiters at the front have gone, those of them that were live with the lock. The caller has it
        too, or is last in the queue, under its own kind. */
    method LockImpl(isShared: bool, id: nat) returns (granted: bool, ghost k: nat)
      requires Valid() && Unused(View(Free), id)
      modifies this
      ensures View(Free) == Leave(NotifyAll(Apply(old(View(Free)), EnterLock(id, isShared))))
      ensures |shared| < MAX_SHARED ==> Valid() && granted == Holds(View(Free), id, isShared)
      ensures k <= |old(waiters)|
      ensures waiters == old(waiters)[k..] + if granted then [] else [Waiter(id, isShared, true)]
      ensures excl == old(excl) + Live(old(waiters)[..k], false) + if granted && !isShared then {id} else {}
      ensures shared == old(shared) + Live(old(waiters)[..k], true) + if granted && isShared then {id} else {}
    {
      ghost var s := View(Free);
      assert Enabled(s, EnterLock(id, isShared)) by { Decode(s); }
      k := LockMeans(s, id, isShared);
      granted := LockSection(isShared, id);
    }

    method LockSection(isShared: bool, id: nat) returns (granted: bool)
      requires Valid() && Unused(View(Free), id) && Enabled(View(Free), EnterLock(id, isShared))
      modifies this
      ensures View(Free) == Leave(NotifyAll(Apply(old(View(Free)), EnterLock(id, isShared))))
      ensures |shared| < MAX_SHARED ==> Valid() && granted == Holds(View(Free), id, isShared)
      ensures granted == GrantsSelf(NotifyAll(Apply(old(View(Free)), EnterLock(id, isShared))))
    {
      ghost var s := View(Free);
      var l := Latch();
      ghost var section := Locking(id, isShared, l, false);
      l := NotifyLocked(l, section);
      assert View(Locking(id, isShared, l, true)) == NotifyAll(Apply(s, EnterLock(id, isShared)));
      granted := Settle(isShared, id, l);
      if |shared| < MAX_SHARED {
        LockImplInv(s, id, isShared);
      }
    }

    /** The caller gives its lock back; `k` waiters at the front have gone, the live ones with the lock. */
    method UnlockImpl(isShared: bool, ghost id: nat) returns (ghost k: nat)
      requires Valid() && Holds(View(Free), id, isShared)
      modifies this
      ensures View(Free) == Leave(NotifyAll(Apply(old(View(Free)), EnterUnlock(id, isShared))))
      ensures |shared| < MAX_SHARED ==> Valid()
      ensures k <= |old(waiters)| && waiters == old(waiters)[k..]
      ensures excl == old(excl) - (if isShared then {} else {id}) + Live(old(waiters)[..k], false)
      ensures shared == old(shared) - (if isShared then {id} else {}) + Live(old(waiters)[..k], true)
    {
      ghost var s := View(Free);
      assert Enabled(s, EnterUnlock(id, isShared)) by { Decode(s); }
      k := UnlockMeans(s, id, isShared);
      UnlockSection(isShared, id);
    }

    method UnlockSection(isShared: bool, ghost id: nat)
      requires Valid() && Holds(View(Free), id, isShared) && Enabled(View(Free), EnterUnlock(id, isShared))
      modifies this
      ensures View(Free) == Leave(NotifyAll(Apply(old(View(Free)), EnterUnlock(id, isShared))))
      ensures |shared| < MAX_SHARED ==> Valid()
    {
      ghost var s := View(Free);
      var l := Latch();
      l := Minus(l, Unit(isShared));
      if isShared { shared := shared - {id}; } else { excl := excl - {id}; }
      l := NotifyLocked(l, Unlocking(l, false));
      UnlatchWord(l, Unlocking(l, true));
      if |shared| < MAX_SHARED {
        UnlockImplInv(s, id, isShared);
      }
    }

    method Unlock(ghost id: nat)
      requires Valid() && id in excl
      modifies this
      ensures |shared| < MAX_SHARED ==> Valid()
      ensures old(waiters) == [] ==> View(Free) == Apply(old(View(Free)), FastUnlock(id)) && excl == old(excl) - {id}
      ensures old(waiters) != [] ==> View(Free) == Leave(NotifyAll(Apply(old(View(Free)), EnterUnlock(id, false))))
    {
      ghost var s := View(Free);
      Decode(s);
      if !Latched(word) && !HasNextExcl(word) && !HasNextShared(word) {
        word := Minus(word, LOCK_EXCL);
        excl := excl - {id};
        FastUnlockInv(s, id);
      } else {
        ghost var _ := UnlockImpl(false, id);
      }
    }

    method UnlockShared(ghost id: nat)
      requires Valid() && id in shared
      modifies this
      ensures |shared| < MAX_SHARED ==> Valid()
      ensures old(waiters == [] || (!waiters[0].shared && |shared| >= 2)) ==>
                View(Free) == Apply(old(View(Free)), FastUnlockShared(id)) && shared == old(shared) - {id}
      ensures !old(waiters == [] || (!waiters[0].shared && |shared| >= 2)) ==>
                View(Free) == Leave(NotifyAll(Apply(old(View(Free)), EnterUnlock(id, true))))
    {
      ghost var s := View(Free);
      Decode(s);
      if !Latched(word) && !HasNextShared(word) && (!HasNextExcl(word) || word >= 2 * LOCK_SHARED) {
        word := Minus(word, LOCK_SHARED);
        shared := shared - {id};
        FastUnlockSharedInv(s, id);
      } else {
        ghost var _ := UnlockImpl(true, id);
      }
    }
  }

  lemma LeaveGrows(s: State)
    requires !s.section.Free?
    ensures |s.shared| <= |Leave(s).shared|
  {
    assert Leave(s).shared == s.shared + (Leave(s).shared - s.shared);
  }

  /** A latched section, run to its end, keeps the invariant. */
  lemma SectionInv(e: State)
    requires Inv(e) && !e.section.Free? && |Leave(NotifyAll(e)).shared| < MAX_SHARED
    ensures Inv(NotifyAll(e)) && Inv(Leave(NotifyAll(e)))
  {
    LeaveGrows(NotifyAll(e));
    NotifyAllInv(e);
    FinishInv(NotifyAll(e));
  }

  lemma LockImplInv(s: State, id: nat, shared: bool)
    requires Inv(s) && s.section.Free? && Enabled(s, EnterLock(id, shared))
    requires |Leave(NotifyAll(Apply(s, EnterLock(id, shared)))).shared| < MAX_SHARED
    ensures Inv(Leave(NotifyAll(Apply(s, EnterLock(id, shared)))))
    ensures var t := NotifyAll(Apply(s, EnterLock(id, shared)));
            Holds(Leave(t), id, shared) <==> t.waiters == [] && Allow(shared, t.section.l)
  {
    var e := Apply(s, EnterLock(id, shared));
    EnterLockInv(s, id, shared);
    SectionInv(e);
    NotifyKeepsSection(e);
    NewcomerHolds(NotifyAll(e));
  }

  lemma NewcomerHolds(t: State)
    requires t.section.Locking? && t.section.id !in t.excl && t.section.id !in t.shared
    ensures Holds(Leave(t), t.section.id, t.section.shared) <==> t.waiters == [] && Allow(t.section.shared, t.section.l)
  {
  }

  lemma UnlockImplInv(s: State, id: nat, shared: bool)
    requires Inv(s) && s.section.Free? && Enabled(s, EnterUnlock(id, shared))
    requires |Leave(NotifyAll(Apply(s, EnterUnlock(id, shared)))).shared| < MAX_SHARED
    ensures Inv(Leave(NotifyAll(Apply(s, EnterUnlock(id, shared)))))
  {
    EnterUnlockInv(s, id, shared);
    SectionInv(Apply(s, EnterUnlock(id, shared)));
  }

  lemma {:induction false} NotifyKeepsSection(s: State)
    requires !s.section.Free?
    ensures NotifyAll(s).section == s.section.With(NotifyAll(s).section.l, true)
    decreases !s.section.settled, |s.waiters|
  {
    if !s.section.settled {
      NotifyKeepsSection(NotifyTurn(s));
    }
  }
}
