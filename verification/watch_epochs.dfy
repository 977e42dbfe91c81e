/** Epochs tell stale notifications: once a descriptor has been closed, or found with nothing to wait for,
    what the kernel still reports under the old epoch finds no watch. */
module WatchEpochs {
  import opened Basics
  import opened WatchLists
  import opened UpdateList
  import opened WatchTable

  const EPOCHS: nat := 0x1_0000_0000

  /** How the epoch of a descriptor moves: a close or an emptied update, and the registration of a
      descriptor whose epoch is still reserved. */
  datatype Move = Next | Raise

  function Moved(e: nat, m: Move): nat { if m.Next? then (e + 1) % EPOCHS else if e < 2 then 2 else e }

  function AllMoved(e: nat, ms: seq<Move>): nat {
    if ms == [] then e else Moved(AllMoved(e, ms[..|ms| - 1]), ms[|ms| - 1])
  }

  function Nexts(ms: seq<Move>): nat {
    if ms == [] then 0 else Nexts(ms[..|ms| - 1]) + if ms[|ms| - 1].Next? then 1 else 0
  }

  /** `u` is where the epoch would be if it did not wrap: raising skips at most the two reserved numbers,
      before the first move or after the wrap. */
  ghost predicate Unrolled(e: nat, n: nat, u: nat) {
    && e + n <= u <= e + n + 2
    && (u > e + n ==> (e < 2 && u - n <= 2 && u >= 2) || u >= EPOCHS + 2)
  }

  lemma NextWraps(u: nat)
    ensures (u + 1) % EPOCHS == (u % EPOCHS + 1) % EPOCHS
  {
    var q, r := u / EPOCHS, u % EPOCHS;
    assert u == q * EPOCHS + r;
    if r + 1 == EPOCHS {
      assert u + 1 == (q + 1) * EPOCHS;
    } else {
      assert u + 1 == q * EPOCHS + (r + 1);
    }
  }

  /** Raising happens only just after the wrap, or before anything else. */
  lemma RaiseSkips(e: nat, n: nat, u: nat)
    requires e < EPOCHS && n < EPOCHS - 2 && Unrolled(e, n, u) && u % EPOCHS < 2
    ensures u == e + n && Unrolled(e, n, u + 2 - u % EPOCHS)
    ensures (u + 2 - u % EPOCHS) % EPOCHS == 2
  {
    assert u < 2 * EPOCHS;
    assert u < 2 || EPOCHS <= u < EPOCHS + 2;
  }

  lemma {:induction false} Unroll(e: nat, ms: seq<Move>) returns (u: nat)
    requires e < EPOCHS && Nexts(ms) < EPOCHS - 2
    ensures u % EPOCHS == AllMoved(e, ms) && Unrolled(e, Nexts(ms), u)
  {
    if ms == [] {
      u := e;
    } else {
      var last := ms[|ms| - 1];
      u := Unroll(e, ms[..|ms| - 1]);
      if last.Next? {
        NextWraps(u);
        u := u + 1;
      } else if u % EPOCHS < 2 {
        RaiseSkips(e, Nexts(ms[..|ms| - 1]), u);
        u := u + 2 - u % EPOCHS;
      }
    }
  }

  /** An epoch does not come back within 2^32 - 2 moves on. */
  lemma EpochIsNew(e: nat, ms: seq<Move>)
    requires e < EPOCHS && 1 <= Nexts(ms) < EPOCHS - 2
    ensures AllMoved(e, ms) != e
  {
    var u := Unroll(e, ms);
    assert e < u < e + EPOCHS;
  }

  lemma {:induction false} NextsAdd(e: nat, ms: seq<Move>, k: nat) returns (ms': seq<Move>)
    requires AllMoved(e, ms) + k <= EPOCHS
    ensures Nexts(ms') == Nexts(ms) + k
    ensures AllMoved(e, ms') == (AllMoved(e, ms) + k) % EPOCHS || (k == 0 && ms' == ms)
  {
    if k == 0 {
      ms' := ms;
    } else {
      var init := NextsAdd(e, ms, k - 1);
      ms' := init + [Next];
      assert ms'[..|ms'| - 1] == init;
    }
  }

  /** The bound is exact: with 2^32 - 2 moves on, every epoch that a registered descriptor can have may
      come back. */
  lemma EpochReturns(e: nat) returns (ms: seq<Move>)
    requires 2 <= e < EPOCHS
    ensures Nexts(ms) == EPOCHS - 2 && AllMoved(e, ms) == e
  {
    var wrapped := NextsAdd(e, [], EPOCHS - e);
    var raised := wrapped + [Raise];
    assert raised[..|raised| - 1] == wrapped;
    ms := NextsAdd(e, raised, e - 2);
  }

  // On the table

  /** A watch installed later. */
  datatype Later = Later(mask: Mask, body: nat, ev: nat)

  lemma {:induction false} Above(ks: set<nat>) returns (m: nat)
    ensures forall k | k in ks :: k < m
    decreases |ks|
  {
    m := 0;
    if ks != {} {
      var k :| k in ks;
      m := Above(ks - {k});
      forall j | j in ks ensures j <= k || j < m {
        assert j == k || j in ks - {k};
      }
      m := if m <= k then k + 1 else m;
    }
  }

  lemma FreshKey(lists: Lists) returns (key: nat)
    ensures Taken(key) !in lists
  {
    var keys := set o | o in lists && o.Taken? :: o.key;
    key := Above(keys);
    assert Taken(key) in lists ==> key in keys;
  }

  /** Install watches on `fd` one after another, for any closed bodies. */
  method InstallAll(t: FdTable, fd: nat, later: seq<Later>, shut: set<nat>) returns (ghost ms: seq<Move>)
    requires t.Valid() && t.Registered() && fd < |t.fdrs| && fd < MAX_FDS
    requires t.fdrs[fd].body == 0 || t.fdrs[fd].body in shut
    requires forall k | 0 <= k < |later| :: later[k].ev != 0 && later[k].body in shut
    modifies t
    ensures t.Valid() && t.Registered() && fd < |t.fdrs|
    ensures t.fdrs[fd].epoch == AllMoved(old(t.fdrs[fd].epoch), ms) && Nexts(ms) <= |later|
  {
    ms := [];
    for k := 0 to |later|
      invariant t.Valid() && t.Registered() && fd < |t.fdrs|
      invariant t.fdrs[fd].body == 0 || t.fdrs[fd].body in shut
      invariant t.fdrs[fd].epoch == AllMoved(old(t.fdrs[fd].epoch), ms) && Nexts(ms) <= k
    {
      ghost var evicts := later[k].mask != 0 && Replaces(t.fdrs, fd, later[k].body);
      var handle, fired := t.Install(fd, later[k].mask, later[k].body, later[k].ev, shut);
      if evicts {
        assert (ms + [Next])[..|ms|] == ms;
        ms := ms + [Next];
      }
    }
  }

  /** After a close, and whatever is installed on the descriptor since, a notification under the old epoch
      finds nothing. */
  method StaleAfterClose(t: FdTable, fd: nat, shut: set<nat>, later: seq<Later>, imask: Mask) returns (whead: nat)
    requires t.Valid() && t.Registered() && fd < |t.fdrs| && fd < MAX_FDS
    requires t.fdrs[fd].body != 0 && t.fdrs[fd].body in shut && 0 < t.fdrs[fd].epoch < EPOCHS
    requires |later| < EPOCHS - 3 && forall k | 0 <= k < |later| :: later[k].ev != 0 && later[k].body in shut
    modifies t
    ensures whead == 0 && fd < |t.fdrs| && t.fdrs[fd].epoch != old(t.fdrs[fd].epoch)
  {
    var e := t.fdrs[fd].epoch;
    var r, fired := t.FdClose(fd, shut);
    ghost var ms := InstallAll(t, fd, later, shut);
    MovedOn(e, ms);
    ghost var key := FreshKey(t.lists);
    whead := t.TakeWatchList(fd, imask, e, key);
  }

  /** The same when an update finds that nothing is waited for any more. */
  method StaleAfterEmptied(t: FdTable, shut: set<nat>, later: seq<Later>, imask: Mask)
    returns (r: Option<Update>, whead: nat)
    requires t.Valid() && t.Registered() && |t.fdrs| <= MAX_FDS
    requires forall fd: nat | fd < |t.fdrs| ::
               t.fdrs[fd].epoch < EPOCHS && (t.fdrs[fd].body == 0 || t.fdrs[fd].body in shut)
    requires |later| < EPOCHS - 3 && forall k | 0 <= k < |later| :: later[k].ev != 0 && later[k].body in shut
    modifies t
    ensures r.Some? && r.value.mask == 0 && r.value.epoch != 0 ==>
              whead == 0 && r.value.fd < |t.fdrs| && t.fdrs[r.value.fd].epoch != r.value.epoch
  {
    whead := 0;
    r := t.ApplyNext();
    if r.Some? && r.value.mask == 0 && r.value.epoch != 0 {
      ghost var ms := InstallAll(t, r.value.fd, later, shut);
      MovedOn(r.value.epoch, ms);
      ghost var key := FreshKey(t.lists);
      whead := t.TakeWatchList(r.value.fd, imask, r.value.epoch, key);
    }
  }

  lemma MovedOn(e: nat, ms: seq<Move>)
    requires e < EPOCHS && Nexts(ms) < EPOCHS - 3
    ensures AllMoved((e + 1) % EPOCHS, ms) != e
  {
    MovesJoin(e, [Next], ms);
    EpochIsNew(e, [Next] + ms);
  }

  lemma {:induction false} MovesJoin(e: nat, ms: seq<Move>, more: seq<Move>)
    ensures AllMoved(e, ms + more) == AllMoved(AllMoved(e, ms), more)
    ensures Nexts(ms + more) == Nexts(ms) + Nexts(more)
  {
    if more == [] {
      assert ms + more == ms;
    } else {
      assert (ms + more)[..|ms + more| - 1] == ms + more[..|more| - 1];
      MovesJoin(e, ms, more[..|more| - 1]);
    }
  }
}
