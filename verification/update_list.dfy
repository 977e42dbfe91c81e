/** File descriptor records, and the list threaded through them of descriptors whose registration with
    the kernel may be out of date. */
module UpdateList {

  const SENTINEL: nat := 0xFFFF_FFFF
  const MAX_FDS: nat := 0x8000_0000

  /** `body` is 0 for none. `updateLink` is 0 off the list, `SENTINEL` on its last record, and
      otherwise one more than the next descriptor. */
  datatype FdRec = FdRec(body: nat, epoch: nat, whead: nat, wtail: nat, updateLink: nat)

  function Link(upd: seq<nat>, i: nat): nat { if i < |upd| then upd[i] + 1 else SENTINEL }

  ghost predicate UpdAt(fdrs: seq<FdRec>, upd: seq<nat>, i: nat)
    requires i < |upd|
  { upd[i] < |fdrs| && fdrs[upd[i]].updateLink == Link(upd, i + 1) }

  ghost predicate QueuedOk(fdrs: seq<FdRec>, upd: seq<nat>, fd: nat)
    requires fd < |fdrs|
  { fdrs[fd].updateLink != 0 <==> fd in upd }

  /** The list from `head` is `upd`, and holds exactly the records whose link is not clean. */
  ghost predicate UpdInv(fdrs: seq<FdRec>, head: nat, upd: seq<nat>) {
    && |fdrs| <= MAX_FDS && head == Link(upd, 0)
    && (forall i: nat | i < |upd| :: UpdAt(fdrs, upd, i))
    && (forall fd: nat | fd < |fdrs| :: QueuedOk(fdrs, upd, fd))
  }

  /** No descriptor is queued twice. */
  lemma {:induction false} QueuedOnce(fdrs: seq<FdRec>, head: nat, upd: seq<nat>, i: nat, j: nat)
    requires UpdInv(fdrs, head, upd) && i < j < |upd|
    ensures upd[i] != upd[j]
    decreases |upd| - j
  {
    assert UpdAt(fdrs, upd, i) && UpdAt(fdrs, upd, j);
    if j + 1 < |upd| {
      QueuedOnce(fdrs, head, upd, i + 1, j + 1);
    } else {
      assert UpdAt(fdrs, upd, i + 1);
    }
  }

  lemma {:induction false} CountOnce(l: seq<nat>, x: nat)
    requires forall i, j | 0 <= i < j < |l| :: l[i] != l[j]
    ensures multiset(l)[x] == if x in l then 1 else 0
  {
    if l != [] {
      var n := |l| - 1;
      CountOnce(l[..n], x);
      assert l == l[..n] + [l[n]];
      assert multiset(l) == multiset(l[..n]) + multiset{l[n]};
      assert forall i | 0 <= i < n :: l[i] != l[n];
    }
  }

  /** The update list holds each descriptor whose link is not clean once, and no other. */
  lemma QueuedExactly(fdrs: seq<FdRec>, head: nat, upd: seq<nat>, fd: nat)
    requires UpdInv(fdrs, head, upd) && fd < |fdrs|
    ensures multiset(upd)[fd] == if fdrs[fd].updateLink != 0 then 1 else 0
  {
    forall i, j | 0 <= i < j < |upd| ensures upd[i] != upd[j] {
      QueuedOnce(fdrs, head, upd, i, j);
    }
    CountOnce(upd, fd);
    assert QueuedOk(fdrs, upd, fd);
  }

  lemma EnqueueKeeps(fdrs: seq<FdRec>, head: nat, upd: seq<nat>, fd: nat)
    requires UpdInv(fdrs, head, upd) && fd < |fdrs| && fdrs[fd].updateLink == 0
    ensures UpdInv(fdrs[fd := fdrs[fd].(updateLink := head)], fd + 1, [fd] + upd)
  {
    var fdrs', upd' := fdrs[fd := fdrs[fd].(updateLink := head)], [fd] + upd;
    assert QueuedOk(fdrs, upd, fd);
    forall i: nat | i < |upd'| ensures UpdAt(fdrs', upd', i) {
      if i > 0 {
        assert UpdAt(fdrs, upd, i - 1);
      }
    }
    forall k: nat | k < |fdrs'| ensures QueuedOk(fdrs', upd', k) {
      assert QueuedOk(fdrs, upd, k);
    }
  }

  lemma DequeueKeeps(fdrs: seq<FdRec>, head: nat, upd: seq<nat>)
    requires UpdInv(fdrs, head, upd) && upd != []
    ensures head == upd[0] + 1 && upd[0] < |fdrs|
    ensures UpdInv(fdrs[upd[0] := fdrs[upd[0]].(updateLink := 0)], fdrs[upd[0]].updateLink, upd[1..])
  {
    assert UpdAt(fdrs, upd, 0);
    var fdrs', upd' := fdrs[upd[0] := fdrs[upd[0]].(updateLink := 0)], upd[1..];
    forall i: nat | i < |upd'| ensures UpdAt(fdrs', upd', i) && upd'[i] != upd[0] {
      assert UpdAt(fdrs, upd, i + 1);
      QueuedOnce(fdrs, head, upd, 0, i + 1);
    }
    forall k: nat | k < |fdrs'| ensures QueuedOk(fdrs', upd', k) {
      assert QueuedOk(fdrs, upd, k);
      assert upd == [upd[0]] + upd';
    }
  }

  /** Other fields do not matter, and new records are clean. */
  lemma UpdFrame(fdrs: seq<FdRec>, fdrs': seq<FdRec>, head: nat, upd: seq<nat>)
    requires UpdInv(fdrs, head, upd) && |fdrs| <= |fdrs'| <= MAX_FDS
    requires forall k: nat | k < |fdrs'| :: fdrs'[k].updateLink == if k < |fdrs| then fdrs[k].updateLink else 0
    ensures UpdInv(fdrs', head, upd)
  {
    forall i: nat | i < |upd| ensures UpdAt(fdrs', upd, i) && upd[i] < |fdrs| {
      assert UpdAt(fdrs, upd, i);
    }
    forall k: nat | k < |fdrs'| ensures QueuedOk(fdrs', upd, k) {
      if k < |fdrs| {
        assert QueuedOk(fdrs, upd, k);
      }
    }
  }
}
