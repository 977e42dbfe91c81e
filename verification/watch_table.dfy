/** A driver's file descriptor state: the watches installed on each descriptor, the list of descriptors
    to bring up to date with the kernel, and the table of what is registered there. */
module WatchTable {
  import opened Basics
  import opened WatchLists
  import opened UpdateList
  import opened InterestTable

  datatype Update = Update(fd: nat, mask: Mask, epoch: nat)
  datatype Closed = Closed(body: nat, epoch: nat)

  const BLANK: FdRec := FdRec(0, 0, 0, 0, 0)
  const USER_EPOCH: nat := 2

  function ListOf(lists: Lists, o: Owner): seq<nat> { if o in lists then lists[o] else [] }

  ghost predicate HeadAt(fdrs: seq<FdRec>, lists: Lists, fd: nat)
    requires fd < |fdrs|
  { fdrs[fd].whead == Head(ListOf(lists, OfFd(fd))) && fdrs[fd].wtail == Last(ListOf(lists, OfFd(fd))) }

  ghost predicate HeadsOk(fdrs: seq<FdRec>, freeLink: nat, lists: Lists) {
    && Free in lists && freeLink == Head(lists[Free])
    && (forall fd: nat | fd < |fdrs| :: HeadAt(fdrs, lists, fd))
    && (forall o | o in lists && o.OfFd? :: o.fd < |fdrs|)
  }

  /** Only the free list and the list of `a` differ. */
  ghost predicate SameBut(ws: seq<Slot>, lists: Lists, ws': seq<Slot>, lists': Lists, a: Owner) {
    forall o {:trigger SameAt(ws, lists, ws', lists', o)} | o != Free && o != a :: SameAt(ws, lists, ws', lists', o)
  }

  ghost predicate SameAt(ws: seq<Slot>, lists: Lists, ws': seq<Slot>, lists': Lists, o: Owner) {
    SameList(lists, lists', o) && View(ws', ListOf(lists', o)) == View(ws, ListOf(lists, o))
  }

  ghost predicate SameList(lists: Lists, lists': Lists, o: Owner) { ListOf(lists', o) == ListOf(lists, o) }

  /** The lists of descriptors other than `fd` did not change. */
  ghost predicate OtherFdsSame(lists: Lists, lists': Lists, fd: int) {
    forall k: nat {:trigger SameList(lists, lists', OfFd(k))} | k != fd :: SameList(lists, lists', OfFd(k))
  }

  lemma OtherFds(ws: seq<Slot>, lists: Lists, ws': seq<Slot>, lists': Lists, a: Owner)
    requires SameBut(ws, lists, ws', lists', a)
    ensures OtherFdsSame(lists, lists', if a.OfFd? then a.fd else -1)
  {
    forall k: nat | OfFd(k) != a ensures SameList(lists, lists', OfFd(k)) {
      assert SameAt(ws, lists, ws', lists', OfFd(k));
    }
  }

  /** No record but that of `fd` changed, and there are no fewer. */
  ghost predicate OthersKept(fdrs: seq<FdRec>, fdrs': seq<FdRec>, fd: int) {
    |fdrs| <= |fdrs'| && forall k: nat | k < |fdrs| && k != fd :: fdrs'[k] == fdrs[k]
  }

  /** The record of `fd` belongs to a body other than `body`. */
  predicate Replaces(fdrs: seq<FdRec>, fd: nat, body: nat) {
    fd < |fdrs| && fdrs[fd].body != 0 && fdrs[fd].body != body
  }

  lemma HeadsKeep(
    fdrs: seq<FdRec>, lists: Lists, freeLink: nat, fdrs': seq<FdRec>, lists': Lists, freeLink': nat, fd: nat)
    requires HeadsOk(fdrs, freeLink, lists) && fd < |fdrs| == |fdrs'| && Free in lists'
    requires freeLink' == Head(lists'[Free])
    requires (forall k: nat | k < |fdrs| && k != fd :: fdrs'[k] == fdrs[k]) && OtherFdsSame(lists, lists', fd)
    requires HeadAt(fdrs', lists', fd)
    requires forall o | o in lists' && o.OfFd? :: o in lists || o.fd == fd
    ensures HeadsOk(fdrs', freeLink', lists')
  {
    forall k: nat | k < |fdrs'| ensures HeadAt(fdrs', lists', k) {
      if k != fd {
        assert HeadAt(fdrs, lists, k) && SameList(lists, lists', OfFd(k));
      }
    }
  }

  /** What is registered for a descriptor off the update list covers its live watches. */
  ghost predicate CoveredAt(fdrs: seq<FdRec>, ws: seq<Slot>, lists: Lists, ctl: seq<bv64>, gone: set<nat>, fd: nat)
    requires fd < |fdrs|
  { fdrs[fd].updateLink == 0 ==> Covers(Entry(ctl, fd), View(ws, ListOf(lists, OfFd(fd))), gone) }

  /** A descriptor without a list of its own has an empty one. */
  function Full(lists: Lists, o: Owner): Lists { lists[o := ListOf(lists, o)] }

  lemma FullKeeps(ws: seq<Slot>, owner: seq<Owner>, lists: Lists, o: Owner)
    requires SlotsInv(ws, owner, lists)
    ensures SlotsInv(ws, owner, Full(lists, o))
  {
    if o in lists {
      assert Full(lists, o) == lists;
    } else {
      AddEmpty(ws, owner, lists, o);
    }
  }

  /** A list's links are slots, and it is empty exactly when its head is 0. */
  lemma HeadBounds(ws: seq<Slot>, owner: seq<Owner>, lists: Lists, o: Owner)
    requires SlotsInv(ws, owner, lists)
    ensures var l := ListOf(lists, o);
            && Last(l) <= |ws| && (Head(l) == 0 <==> Last(l) == 0) && (l == [] <==> Head(l) == 0)
            && (l != [] ==> 1 <= Head(l) <= |ws| && ws[Head(l) - 1].wlink == Head(l[1..]))
  {
    var l := ListOf(lists, o);
    if l != [] {
      assert ListOk(ws, owner, l, o);
      assert LinkAt(ws, l, 0) && LinkAt(ws, l, |l| - 1);
    }
  }

  /** One list and the free list replaced. */
  function Relist(lists: Lists, o: Owner, l: seq<nat>, free: seq<nat>): Lists { lists[o := l][Free := free] }

  lemma RelistSame(ws: seq<Slot>, ws': seq<Slot>, lists: Lists, o: Owner, l: seq<nat>, free: seq<nat>)
    requires forall p | p in lists && p != o && p != Free :: View(ws', lists[p]) == View(ws, lists[p])
    ensures SameBut(ws, lists, ws', Relist(lists, o, l, free), o)
    ensures forall p | p in Relist(lists, o, l, free) && p.OfFd? :: p in lists || p == o
  {
    var lists' := Relist(lists, o, l, free);
    forall p | p != Free && p != o ensures SameAt(ws, lists, ws', lists', p) {
      assert p !in lists ==> View(ws', ListOf(lists, p)) == View(ws, ListOf(lists, p));
    }
  }

  /** What recycling the first slot of a list keeps. */
  lemma ReleaseTo(ws: seq<Slot>, owner: seq<Owner>, lists: Lists, o: Owner)
    requires SlotsInv(ws, owner, lists) && Free in lists && o in lists && o != Free && lists[o] != []
    ensures var w := lists[o][0];
            && 1 <= w <= |ws| && |owner| == |ws| && ws[w - 1].wlink == Head(lists[o][1..])
            && var ws', lists' := Released(ws, w, lists[Free]), Relist(lists, o, lists[o][1..], [w] + lists[Free]);
            && SlotsInv(ws', owner[w - 1 := Free], lists')
            && View(ws, lists[o]) == [ViewAt(ws, w)] + View(ws', lists[o][1..])
            && SameBut(ws, lists, ws', lists', o)
            && forall p | p in lists' && p.OfFd? :: p in lists
  {
    Release(ws, owner, lists, o);
    var l, w := lists[o], lists[o][0];
    RelistSame(ws, Released(ws, w, lists[Free]), lists, o, l[1..], [w] + lists[Free]);
    assert View(ws, l) == [View(ws, l)[0]] + View(ws, l)[1..];
  }

  /** The records with `fd` off the update list and in a new epoch. */
  function Cleaned(fdrs: seq<FdRec>, fd: nat, epoch: nat): seq<FdRec>
    requires fd < |fdrs|
  { fdrs[fd := fdrs[fd].(updateLink := 0, epoch := epoch)] }

  /** The record of a descriptor whose list got slot `w` at its end. */
  function Lengthened(rec: FdRec, w: nat): FdRec { rec.(whead := if rec.whead == 0 then w else rec.whead, wtail := w) }

  lemma DetachHeads(
    fdrs: seq<FdRec>, freeLink: nat, lists: Lists, fd: nat, kept: seq<nat>, t: Owner, taken: seq<nat>,
      fdrs': seq<FdRec>)
    requires HeadsOk(fdrs, freeLink, lists) && fd < |fdrs| && t.Taken?
    requires fdrs' == fdrs[fd := fdrs[fd].(whead := Head(kept), wtail := Last(kept))]
    ensures HeadsOk(fdrs', freeLink, lists[OfFd(fd) := kept][t := taken])
  {
    HeadsKeep(fdrs, lists, freeLink, fdrs', lists[OfFd(fd) := kept][t := taken], freeLink, fd);
  }

  lemma DetachRecords(
    fdrs: seq<FdRec>, freeLink: nat, lists: Lists, updateLink: nat, upd: seq<nat>, fd: nat, kept: seq<nat>,
    t: Owner, taken: seq<nat>, fdrs': seq<FdRec>)
    requires HeadsOk(fdrs, freeLink, lists) && UpdInv(fdrs, updateLink, upd) && fd < |fdrs| && t.Taken?
    requires fdrs' == fdrs[fd := fdrs[fd].(whead := Head(kept), wtail := Last(kept))]
    ensures HeadsOk(fdrs', freeLink, lists[OfFd(fd) := kept][t := taken]) && UpdInv(fdrs', updateLink, upd)
  {
    DetachHeads(fdrs, freeLink, lists, fd, kept, t, taken, fdrs');
    UpdFrame(fdrs, fdrs', updateLink, upd);
  }

  lemma AppendHeads(fdrs: seq<FdRec>, freeLink: nat, lists: Lists, fd: nat, w: nat, fdrs': seq<FdRec>)
    requires HeadsOk(fdrs, freeLink, lists) && fd < |fdrs| && w > 0
    requires fdrs' == fdrs[fd := Lengthened(fdrs[fd], w)]
    requires fdrs[fd].whead == 0 <==> ListOf(lists, OfFd(fd)) == []
    ensures var lists' := Relist(lists, OfFd(fd), ListOf(lists, OfFd(fd)) + [w], Tail(lists[Free]));
            HeadsOk(fdrs', Head(Tail(lists[Free])), lists')
  {
    var lists' := Relist(lists, OfFd(fd), ListOf(lists, OfFd(fd)) + [w], Tail(lists[Free]));
    assert HeadAt(fdrs, lists, fd);
    HeadsKeep(fdrs, lists, freeLink, fdrs', lists', Head(Tail(lists[Free])), fd);
  }

  lemma AppendRecords(
    fdrs: seq<FdRec>, freeLink: nat, lists: Lists, updateLink: nat, upd: seq<nat>, fd: nat, w: nat,
    fdrs': seq<FdRec>)
    requires HeadsOk(fdrs, freeLink, lists) && UpdInv(fdrs, updateLink, upd) && fd < |fdrs| && w > 0
    requires fdrs' == fdrs[fd := Lengthened(fdrs[fd], w)]
    requires fdrs[fd].whead == 0 <==> ListOf(lists, OfFd(fd)) == []
    ensures var lists' := Relist(lists, OfFd(fd), ListOf(lists, OfFd(fd)) + [w], Tail(lists[Free]));
            HeadsOk(fdrs', Head(Tail(lists[Free])), lists')
    ensures UpdInv(fdrs', updateLink, upd)
  {
    AppendHeads(fdrs, freeLink, lists, fd, w, fdrs');
    UpdFrame(fdrs, fdrs', updateLink, upd);
  }

  /** What a new watch on `fd` keeps. */
  lemma AppendToFd(ws: seq<Slot>, owner: seq<Owner>, lists: Lists, fd: nat, ev: nat, mask: Mask)
    requires SlotsInv(ws, owner, lists) && Free in lists && ev != 0
    ensures var w, l := Spare(ws, lists[Free]), ListOf(lists, OfFd(fd));
            && 1 <= w <= |ws| + 1 && Last(l) <= |ws|
            && var ws' := Linked(Filled(ws, w, ev, mask), Last(l), w);
            && var lists' := Relist(lists, OfFd(fd), l + [w], Tail(lists[Free]));
            && SlotsInv(ws', Taker(owner, w, OfFd(fd)), lists')
            && View(ws', l + [w]) == View(ws, l) + [Watch(ev, mask)]
            && SameBut(ws, lists, ws', lists', OfFd(fd))
            && forall p | p in lists' && p.OfFd? :: p in lists || p == OfFd(fd)
  {
    var o := OfFd(fd);
    var full := Full(lists, o);
    FullKeeps(ws, owner, lists, o);
    Append(ws, owner, full, o, ev, mask);
    var w, l := Spare(ws, lists[Free]), full[o];
    var ws' := Linked(Filled(ws, w, ev, mask), Last(l), w);
    assert full[o := l + [w]][Free := Tail(lists[Free])] == Relist(lists, o, l + [w], Tail(lists[Free]));
    forall p | p in lists && p != o && p != Free ensures View(ws', lists[p]) == View(ws, lists[p]) {
      assert p in full && full[p] == lists[p];
    }
    RelistSame(ws, ws', lists, o, l + [w], Tail(lists[Free]));
  }

  lemma CoverKeeps(
    fdrs: seq<FdRec>, ws: seq<Slot>, lists: Lists, fdrs': seq<FdRec>, ws': seq<Slot>, lists': Lists, ctl: seq<bv64>,
    gone: set<nat>, fd: nat)
    requires |fdrs| == |fdrs'| && SameBut(ws, lists, ws', lists', OfFd(fd)) && fd < |fdrs'| && fdrs'[fd].updateLink != 0
    requires forall k: nat | k < |fdrs| :: CoveredAt(fdrs, ws, lists, ctl, gone, k)
    requires forall k: nat | k < |fdrs| && k != fd :: fdrs'[k] == fdrs[k]
    ensures forall k: nat | k < |fdrs'| :: CoveredAt(fdrs', ws', lists', ctl, gone, k)
  {
    forall k: nat | k < |fdrs'| ensures CoveredAt(fdrs', ws', lists', ctl, gone, k) {
      assert CoveredAt(fdrs, ws, lists, ctl, gone, k);
      assert k != fd ==> SameAt(ws, lists, ws', lists', OfFd(k));
    }
  }

  lemma HeadGrows(l: seq<nat>, x: nat)
    requires 0 !in l
    ensures Head(l + [x]) == (if Last(l) == 0 then x else Head(l)) && Last(l + [x]) == x
  {
    LastIn(l);
  }

  /** Only the lists of `a` and `b` differ. */
  ghost predicate OthersSame(ws: seq<Slot>, lists: Lists, ws': seq<Slot>, lists': Lists, a: Owner, b: Owner) {
    forall o {:trigger SameAt(ws, lists, ws', lists', o)} | o != a && o != b :: SameAt(ws, lists, ws', lists', o)
  }

  lemma DetachSame(ws: seq<Slot>, ws': seq<Slot>, lists: Lists, o: Owner, t: Owner, kept: seq<nat>, taken: seq<nat>)
    requires o in lists && forall p | p in lists && p != o :: View(ws', lists[p]) == View(ws, lists[p])
    ensures OthersSame(ws, lists, ws', lists[o := kept][t := taken], o, t)
  {
    var lists' := lists[o := kept][t := taken];
    forall p | p != o && p != t ensures SameAt(ws, lists, ws', lists', p) {
      assert p !in lists ==> View(ws', ListOf(lists, p)) == View(ws, ListOf(lists, p));
    }
  }

  lemma {:induction false} FilterCovers(vs: seq<Watch>, imask: Mask, gone: set<nat>, entry: Mask)
    requires Covers(entry, vs, gone)
    ensures Covers(entry, Filter(vs, imask, gone, false), gone)
  {
    FilterPartitions(vs, imask, gone);
    var kept := Filter(vs, imask, gone, false);
    forall i | 0 <= i < |kept| ensures CoversAt(entry, kept[i], gone) {
      assert kept[i] in multiset(kept);
      assert kept[i] in multiset(vs);
      var j: nat :| j < |vs| && vs[j] == kept[i];
    }
  }

  lemma TakeCovers(
    fdrs: seq<FdRec>, ws: seq<Slot>, lists: Lists, fdrs': seq<FdRec>, ws': seq<Slot>, lists': Lists, ctl: seq<bv64>,
    gone: set<nat>, fd: nat, key: nat, imask: Mask)
    requires fd < |fdrs| == |fdrs'| && OthersSame(ws, lists, ws', lists', OfFd(fd), Taken(key))
    requires forall k: nat | k < |fdrs| :: CoveredAt(fdrs, ws, lists, ctl, gone, k)
    requires forall k: nat | k < |fdrs| :: fdrs'[k].updateLink == fdrs[k].updateLink
    requires View(ws', ListOf(lists', OfFd(fd))) == Filter(View(ws, ListOf(lists, OfFd(fd))), imask, gone, false)
    ensures forall k: nat | k < |fdrs'| :: CoveredAt(fdrs', ws', lists', ctl, gone, k)
  {
    forall k: nat | k < |fdrs'| ensures CoveredAt(fdrs', ws', lists', ctl, gone, k) {
      assert CoveredAt(fdrs, ws, lists, ctl, gone, k);
      assert k != fd ==> SameAt(ws, lists, ws', lists', OfFd(k));
      if k == fd && fdrs[fd].updateLink == 0 {
        FilterCovers(View(ws, ListOf(lists, OfFd(fd))), imask, gone, Entry(ctl, fd));
      }
    }
  }

  lemma HeadsSame(fdrs: seq<FdRec>, freeLink: nat, lists: Lists, freeLink': nat, lists': Lists)
    requires HeadsOk(fdrs, freeLink, lists) && Free in lists' && freeLink' == Head(lists'[Free])
    requires OtherFdsSame(lists, lists', -1)
    requires forall o | o in lists' && o.OfFd? :: o in lists
    ensures HeadsOk(fdrs, freeLink', lists')
  {
    forall fd: nat | fd < |fdrs| ensures HeadAt(fdrs, lists', fd) {
      assert HeadAt(fdrs, lists, fd) && SameList(lists, lists', OfFd(fd));
    }
  }

  lemma CoverSame(
    fdrs: seq<FdRec>, ws: seq<Slot>, lists: Lists, ws': seq<Slot>, lists': Lists, ctl: seq<bv64>, gone: set<nat>,
    a: Owner)
    requires SameBut(ws, lists, ws', lists', a) && !a.OfFd?
    requires forall k: nat | k < |fdrs| :: CoveredAt(fdrs, ws, lists, ctl, gone, k)
    ensures forall k: nat | k < |fdrs| :: CoveredAt(fdrs, ws', lists', ctl, gone, k)
  {
    forall k: nat | k < |fdrs| ensures CoveredAt(fdrs, ws', lists', ctl, gone, k) {
      assert CoveredAt(fdrs, ws, lists, ctl, gone, k);
      assert SameAt(ws, lists, ws', lists', OfFd(k));
    }
  }

  function Events(vs: seq<Watch>): seq<nat> { seq(|vs|, i requires 0 <= i < |vs| => vs[i].ev) }

  lemma EventsFirst(vs: seq<Watch>, ev: nat, rest: seq<Watch>)
    requires vs != [] && vs == [Watch(ev, vs[0].mask)] + rest
    ensures Events(vs) == [ev] + Events(rest)
  {
  }

  lemma SameButChains(
    ws: seq<Slot>, lists: Lists, ws1: seq<Slot>, lists1: Lists, ws2: seq<Slot>, lists2: Lists, o: Owner)
    requires SameBut(ws, lists, ws1, lists1, o) && SameBut(ws1, lists1, ws2, lists2, o)
    ensures SameBut(ws, lists, ws2, lists2, o)
  {
    forall p | p != Free && p != o ensures SameAt(ws, lists, ws2, lists2, p) {
      assert SameAt(ws, lists, ws1, lists1, p) && SameAt(ws1, lists1, ws2, lists2, p);
    }
  }

  lemma LinkInside(ws: seq<Slot>, owner: seq<Owner>, lists: Lists, o: Owner, i: nat)
    requires SlotsInv(ws, owner, lists) && i < |ListOf(lists, o)|
    ensures var l := ListOf(lists, o);
            1 <= l[i] <= |ws| && ws[l[i] - 1].wlink == Next(l, i) && (Next(l, i) == 0 <==> i + 1 == |l|)
  {
    var l := ListOf(lists, o);
    assert ListOk(ws, owner, l, o);
    assert LinkAt(ws, l, i);
    if i + 1 < |l| {
      assert LinkAt(ws, l, i + 1);
    }
  }

  /** The entry of `fd` is `mask` if it was queued, and else as it was. */
  ghost predicate Applied(ctl: seq<bv64>, ctl': seq<bv64>, queued: seq<nat>, fd: nat, mask: Mask) {
    Entry(ctl', fd) == if fd in queued then mask else Entry(ctl, fd)
  }

  /** Every queued descriptor's entry is what its live watches wait for; the others are as they were. */
  ghost predicate AllApplied(
    ctl: seq<bv64>, ctl': seq<bv64>, queued: seq<nat>, ws: seq<Slot>, lists: Lists, gone: set<nat>) {
    forall fd: nat :: Applied(ctl, ctl', queued, fd, LiveMask(View(ws, ListOf(lists, OfFd(fd))), gone))
  }

  lemma AppliedNext(
    ctl: seq<bv64>, ctl1: seq<bv64>, ctl2: seq<bv64>, done: seq<nat>, next: nat, ws: seq<Slot>, lists: Lists,
    gone: set<nat>)
    requires AllApplied(ctl, ctl1, done, ws, lists, gone) && AllApplied(ctl1, ctl2, [next], ws, lists, gone)
    ensures AllApplied(ctl, ctl2, done + [next], ws, lists, gone)
  {
    forall fd: nat ensures Applied(ctl, ctl2, done + [next], fd, LiveMask(View(ws, ListOf(lists, OfFd(fd))), gone)) {
      assert Applied(ctl, ctl1, done, fd, LiveMask(View(ws, ListOf(lists, OfFd(fd))), gone));
      assert Applied(ctl1, ctl2, [next], fd, LiveMask(View(ws, ListOf(lists, OfFd(fd))), gone));
    }
  }

  lemma MoveOver(done: seq<nat>, queue: seq<nat>)
    requires queue != []
    ensures done + queue == (done + [queue[0]]) + queue[1..]
  {
  }

  lemma DrainedCovers(fdrs: seq<FdRec>, head: nat, ws: seq<Slot>, lists: Lists, ctl: seq<bv64>, gone: set<nat>)
    requires UpdInv(fdrs, head, []) && forall k: nat | k < |fdrs| :: CoveredAt(fdrs, ws, lists, ctl, gone, k)
    ensures forall fd: nat | fd < |fdrs| :: Covers(Entry(ctl, fd), View(ws, ListOf(lists, OfFd(fd))), gone)
  {
    forall fd: nat | fd < |fdrs| ensures Covers(Entry(ctl, fd), View(ws, ListOf(lists, OfFd(fd))), gone) {
      assert CoveredAt(fdrs, ws, lists, ctl, gone, fd);
      assert QueuedOk(fdrs, [], fd);
    }
  }

  lemma PopCovers(
    fdrs: seq<FdRec>, fdrs': seq<FdRec>, ws: seq<Slot>, lists: Lists, ctl: seq<bv64>, gone: set<nat>, fd: nat)
    requires |fdrs| == |fdrs'| && forall k: nat | k < |fdrs| && k != fd :: fdrs'[k] == fdrs[k]
    requires forall k: nat | k < |fdrs| :: CoveredAt(fdrs, ws, lists, ctl, gone, k)
    ensures forall k: nat | k < |fdrs'| && k != fd :: CoveredAt(fdrs', ws, lists, ctl, gone, k)
  {
    forall k: nat | k < |fdrs'| && k != fd ensures CoveredAt(fdrs', ws, lists, ctl, gone, k) {
      assert CoveredAt(fdrs, ws, lists, ctl, gone, k);
    }
  }

  lemma UpdEnds(fdrs: seq<FdRec>, head: nat, upd: seq<nat>)
    requires UpdInv(fdrs, head, upd) && head == SENTINEL
    ensures upd == []
  {
    assert upd != [] ==> UpdAt(fdrs, upd, 0);
  }

  /** Where the walk over `l` stands: heads and ends of the two chains built so far. */
  ghost predicate Progress(
    ws0: seq<Slot>, ws: seq<Slot>, l: seq<nat>, i: nat, imask: Mask, gone: set<nat>, whead: nat, taken: nat,
    khead: nat, kept: nat)
    requires i <= |l|
  {
    var t, k := Picked(ws0, l[..i], imask, gone, true), Picked(ws0, l[..i], imask, gone, false);
    && Chain(ws0, l) && Walking(ws0, ws, l, i, t, k)
    && whead == Head(t) && taken == Last(t) && khead == Head(k) && kept == Last(k)
  }

  lemma ProgressStep(
    ws0: seq<Slot>, ws: seq<Slot>, l: seq<nat>, i: nat, imask: Mask, gone: set<nat>, whead: nat, taken: nat,
    khead: nat, kept: nat)
    requires i < |l| && Progress(ws0, ws, l, i, imask, gone, whead, taken, khead, kept)
    ensures 1 <= l[i] <= |ws| && taken <= |ws| && kept <= |ws| && ws[l[i] - 1].wlink == Next(l, i)
    ensures Next(l, i) == 0 <==> i + 1 == |l|
    ensures if Wanted(ViewAt(ws, l[i]), imask, gone)
            then Progress(ws0, Linked(ws, taken, l[i]), l, i + 1, imask, gone,
                          if taken == 0 then l[i] else whead, l[i], khead, kept)
            else Progress(ws0, Linked(ws, kept, l[i]), l, i + 1, imask, gone,
                          whead, taken, if kept == 0 then l[i] else khead, l[i])
  {
    assert LinkAt(ws0, l, i);
    if i + 1 < |l| {
      assert LinkAt(ws0, l, i + 1);
    }
    var want := Wanted(ViewAt(ws0, l[i]), imask, gone);
    WalkStep(ws0, ws, l, i, imask, gone, want);
    var t, k := Picked(ws0, l[..i], imask, gone, true), Picked(ws0, l[..i], imask, gone, false);
    LinksInside(ws, t);
    LinksInside(ws, k);
    HeadGrows(if want then t else k, l[i]);
  }

  lemma LinksInside(ws: seq<Slot>, l: seq<nat>)
    requires OpenChain(ws, l)
    ensures 0 !in l && Last(l) <= |ws|
  {
  }

  lemma ProgressChain(
    ws0: seq<Slot>, ws: seq<Slot>, l: seq<nat>, i: nat, imask: Mask, gone: set<nat>, whead: nat, taken: nat,
    khead: nat, kept: nat)
    requires i == |l| && Progress(ws0, ws, l, i, imask, gone, whead, taken, khead, kept)
    ensures taken <= |ws| && kept <= |ws|
    ensures var t, k := Picked(ws0, l, imask, gone, true), Picked(ws0, l, imask, gone, false);
            && whead == Head(t) && khead == Head(k) && kept == Last(k)
            && Walked(ws0, Linked(Linked(ws, taken, 0), kept, 0), l, t, k)
  {
    assert l[..i] == l;
    PickedParts(ws0, l, imask, gone);
    WalkEnds(ws0, ws, l, Picked(ws0, l, imask, gone, true), Picked(ws0, l, imask, gone, false));
  }

  /** One turn of the walk: the slot joins the end of one of the two chains. */
  method SplitStep(
    ghost ws0: seq<Slot>, ws: seq<Slot>, wix: nat, imask: Mask, gone: set<nat>,
    whead: nat, taken: nat, khead: nat, kept: nat, ghost l: seq<nat>, ghost i: nat)
    returns (ws': seq<Slot>, whead': nat, taken': nat, khead': nat, kept': nat, next: nat)
    requires i < |l| && wix == l[i] && Progress(ws0, ws, l, i, imask, gone, whead, taken, khead, kept)
    ensures Progress(ws0, ws', l, i + 1, imask, gone, whead', taken', khead', kept')
    ensures next == (if i + 1 < |l| then l[i + 1] else 0) && (next == 0 <==> i + 1 == |l|)
  {
    ProgressStep(ws0, ws, l, i, imask, gone, whead, taken, khead, kept);
    var wr := ws[wix - 1];
    next := wr.wlink;
    whead', taken', khead', kept' := whead, taken, khead, kept;
    if imask & wr.mask != 0 || wr.ev in gone {
      ws' := Linked(ws, taken, wix);
      whead', taken' := if taken == 0 then wix else whead, wix;
    } else {
      ws' := Linked(ws, kept, wix);
      khead', kept' := if kept == 0 then wix else khead, wix;
    }
  }

  /** Walk the chain from `start`, linking wanted slots into one chain and the others into another. */
  method SplitChain(ws0: seq<Slot>, start: nat, imask: Mask, gone: set<nat>, ghost l: seq<nat>)
    returns (ws: seq<Slot>, whead: nat, khead: nat, kept: nat)
    requires Chain(ws0, l) && start == Head(l) && 0 !in l
    ensures var t, k := Picked(ws0, l, imask, gone, true), Picked(ws0, l, imask, gone, false);
            Walked(ws0, ws, l, t, k) && whead == Head(t) && khead == Head(k) && kept == Last(k)
  {
    ghost var i: nat := 0;
    ws, whead, khead, kept := ws0, 0, 0, 0;
    var taken: nat, wix := 0, start;
    while wix != 0
      invariant i <= |l| && wix == (if i < |l| then l[i] else 0)
      invariant Progress(ws0, ws, l, i, imask, gone, whead, taken, khead, kept)
      decreases |l| - i
    {
      ws, whead, taken, khead, kept, wix := SplitStep(ws0, ws, wix, imask, gone, whead, taken, khead, kept, l, i);
      i := i + 1;
    }
    ProgressChain(ws0, ws, l, i, imask, gone, whead, taken, khead, kept);
    ws := Linked(Linked(ws, taken, 0), kept, 0);
  }

  class FdTable {
    var fdrs: seq<FdRec>
    var ws: seq<Slot>
    var freeLink: nat
    var updateLink: nat
    var fdctl: seq<bv64>
    var nfdctl: nat
    /** Events that are empty: nothing waits for them any more. */
    var gone: set<nat>
    /** What was delivered to events, kept in their user flags. */
    var delivered: map<nat, Mask>

    ghost var owner: seq<Owner>
    ghost var lists: Lists
    ghost var upd: seq<nat>

    ghost predicate Valid() reads this {
      SlotsInv(ws, owner, lists) && HeadsOk(fdrs, freeLink, lists) && UpdInv(fdrs, updateLink, upd)
    }

    ghost predicate Registered() reads this {
      CtlInv(fdctl, nfdctl) && forall fd: nat | fd < |fdrs| :: CoveredAt(fdrs, ws, lists, fdctl, gone, fd)
    }

    /** The watches on a descriptor, oldest first. */
    ghost function Watches(fd: nat): seq<Watch> reads this { View(ws, ListOf(lists, OfFd(fd))) }

    /** The watches on a list detached for delivery. */
    ghost function Batch(key: nat): seq<Watch> reads this { View(ws, ListOf(lists, Taken(key))) }

    constructor ()
      ensures Valid() && Registered() && fdrs == [] && upd == []
    {
      fdrs, ws, freeLink, updateLink := [], [], 0, SENTINEL;
      fdctl, nfdctl, gone, delivered := [], 0, {}, map[];
      owner, lists, upd := [], map[Free := []], [];
    }

    /** An event becomes empty, outside the driver's control. */
    method Abandon(ev: nat)
      requires Valid()
      modifies this`gone
      ensures Valid() && gone == old(gone) + {ev}
      ensures old(Registered()) ==> Registered()
    {
      gone := gone + {ev};
      forall fd: nat | old(Registered()) && fd < |fdrs| ensures CoveredAt(fdrs, ws, lists, fdctl, gone, fd) {
        assert old(CoveredAt(fdrs, ws, lists, fdctl, gone, fd));
        assert forall v: Watch :: CoversAt(Entry(fdctl, fd), v, old(gone)) ==> CoversAt(Entry(fdctl, fd), v, gone);
      }
    }

    method Capacity(fd: nat) returns (n: nat)
      requires |fdrs| <= fd < MAX_FDS
      ensures fd < n <= MAX_FDS
    {
      if fd >= 1024 {
        n := (fd / 1024 + 1) * 1024;
      } else {
        n := if |fdrs| * 2 > 128 then |fdrs| * 2 else 128;
        while fd >= n
          invariant 128 <= n <= 2048
          decreases 2048 - n
        {
          n := n * 2;
        }
      }
    }

    /** Make room for `fd`: nothing changes but the number of records. */
    method HardEnsure(fd: nat)
      requires Valid() && |fdrs| <= fd < MAX_FDS
      modifies this`fdrs
      ensures Valid() && fd < |fdrs| && |old(fdrs)| <= |fdrs|
      ensures forall k: nat | k < |fdrs| :: fdrs[k] == if k < |old(fdrs)| then old(fdrs)[k] else BLANK
      ensures old(Registered()) ==> Registered()
    {
      var n := Capacity(fd);
      ghost var was := fdrs;
      fdrs := fdrs + seq(n - |fdrs|, i => BLANK);
      UpdFrame(was, fdrs, updateLink, upd);
      forall k: nat | k < |fdrs| ensures HeadAt(fdrs, lists, k) {
        assert k < |was| ==> HeadAt(was, lists, k);
      }
      if old(Registered()) {
        forall k: nat | k < |fdrs| ensures CoveredAt(fdrs, ws, lists, fdctl, gone, k) {
          assert k < |was| ==> CoveredAt(was, ws, lists, fdctl, gone, k);
        }
      }
    }

    /** Put `fd` on the update list unless it is there. */
    method Enqueue(fd: nat)
      requires Valid() && fd < |fdrs|
      modifies this`fdrs, this`updateLink, this`upd
      ensures Valid() && |fdrs| == |old(fdrs)| && fdrs[fd].updateLink != 0
      ensures fdrs[fd] == old(fdrs)[fd].(updateLink := fdrs[fd].updateLink)
      ensures forall k: nat | k < |fdrs| && k != fd :: fdrs[k] == old(fdrs)[k]
      ensures fd in upd && upd == if old(fdrs)[fd].updateLink != 0 then old(upd) else [fd] + old(upd)
    {
      if fdrs[fd].updateLink == 0 {
        ghost var was := fdrs;
        EnqueueKeeps(fdrs, updateLink, upd, fd);
        fdrs, updateLink := fdrs[fd := fdrs[fd].(updateLink := updateLink)], fd + 1;
        upd := [fd] + upd;
        assert HeadAt(was, lists, fd);
        HeadsKeep(was, lists, freeLink, fdrs, lists, freeLink, fd);
      }
      assert QueuedOk(fdrs, upd, fd);
    }

    /** Fill a slot: the first free one if there is one, else a new one. */
    method FillSlot(mask: Mask, ev: nat) returns (wix: nat)
      requires Free in lists && freeLink == Head(lists[Free])
      requires lists[Free] != [] ==> 1 <= freeLink <= |ws| && ws[freeLink - 1].wlink == Head(lists[Free][1..])
      modifies this`ws, this`freeLink
      ensures wix == Spare(old(ws), lists[Free]) && 1 <= wix <= |old(ws)| + 1
      ensures ws == Filled(old(ws), wix, ev, mask) && freeLink == Head(Tail(lists[Free]))
    {
      wix := freeLink;
      if wix != 0 {
        freeLink := ws[wix - 1].wlink;
        ws := ws[wix - 1 := Slot(ev, mask, 0)];
      } else {
        ws := ws + [Slot(ev, mask, 0)];
        wix := |ws|;
      }
    }

    /** Link slot `wix` behind the last slot of the list of `fd`. */
    method LinkSlot(fd: nat, wix: nat)
      requires fd < |fdrs| && fdrs[fd].wtail <= |ws| && (fdrs[fd].whead == 0 <==> fdrs[fd].wtail == 0)
      modifies this`ws, this`fdrs
      ensures ws == Linked(old(ws), old(fdrs[fd].wtail), wix)
      ensures fdrs == old(fdrs)[fd := Lengthened(old(fdrs)[fd], wix)]
    {
      if fdrs[fd].whead != 0 {
        ws := ws[fdrs[fd].wtail - 1 := ws[fdrs[fd].wtail - 1].(wlink := wix)];
      } else {
        fdrs := fdrs[fd := fdrs[fd].(whead := wix)];
      }
      fdrs := fdrs[fd := fdrs[fd].(wtail := wix)];
    }

    /** Fill a slot and put it at the end of the list of `fd`. */
    method PlaceSlot(fd: nat, mask: Mask, ev: nat) returns (wix: nat)
      requires SlotsInv(ws, owner, lists) && HeadsOk(fdrs, freeLink, lists) && fd < |fdrs|
      modifies this`fdrs, this`ws, this`freeLink
      ensures wix == Spare(old(ws), lists[Free]) && 1 <= wix <= |old(ws)| + 1
      ensures Last(ListOf(lists, OfFd(fd))) <= |old(ws)|
      ensures ws == Linked(Filled(old(ws), wix, ev, mask), Last(ListOf(lists, OfFd(fd))), wix)
      ensures freeLink == Head(Tail(lists[Free]))
      ensures fdrs == old(fdrs)[fd := Lengthened(old(fdrs)[fd], wix)]
      ensures old(fdrs)[fd].whead == 0 <==> ListOf(lists, OfFd(fd)) == []
    {
      assert HeadAt(fdrs, lists, fd);
      HeadBounds(ws, owner, lists, OfFd(fd));
      HeadBounds(ws, owner, lists, Free);
      wix := FillSlot(mask, ev);
      LinkSlot(fd, wix);
    }

    /** Give `fd` one more watch. */
    method AppendWatch(fd: nat, mask: Mask, ev: nat)
      requires Valid() && fd < |fdrs| && ev != 0
      modifies this`fdrs, this`ws, this`freeLink, this`owner, this`lists
      ensures Valid() && |fdrs| == |old(fdrs)|
      ensures fdrs[fd] == old(fdrs)[fd].(whead := fdrs[fd].whead, wtail := fdrs[fd].wtail)
      ensures forall k: nat | k < |fdrs| && k != fd :: fdrs[k] == old(fdrs)[k]
      ensures Watches(fd) == old(Watches(fd)) + [Watch(ev, mask)]
      ensures SameBut(old(ws), old(lists), ws, lists, OfFd(fd))
    {
      ghost var o := OfFd(fd);
      ghost var l := ListOf(lists, o);
      AppendToFd(ws, owner, lists, fd, ev, mask);
      var wix := PlaceSlot(fd, mask, ev);
      owner := Taker(owner, wix, o);
      lists := Relist(lists, o, l + [wix], Tail(lists[Free]));
      AppendRecords(old(fdrs), old(freeLink), old(lists), updateLink, upd, fd, wix, fdrs);
    }

    method SetBody(fd: nat, body: nat)
      requires Valid() && fd < |fdrs|
      modifies this`fdrs
      ensures Valid() && fdrs == old(fdrs)[fd := old(fdrs)[fd].(body := body)]
    {
      ghost var was := fdrs;
      fdrs := fdrs[fd := fdrs[fd].(body := body)];
      assert HeadAt(was, lists, fd);
      HeadsKeep(was, lists, freeLink, fdrs, lists, freeLink, fd);
      UpdFrame(was, fdrs, updateLink, upd);
    }

    /** Record the body of `fd` and queue it for registration. */
    method Admit(fd: nat, body: nat)
      requires Valid() && Registered() && fd < |fdrs|
      modifies this`fdrs, this`updateLink, this`upd
      ensures Valid() && Registered() && |fdrs| == |old(fdrs)| && fdrs[fd].updateLink != 0 && fdrs[fd].body == body
                && fd in upd
      ensures OthersKept(old(fdrs), fdrs, fd) && fdrs[fd].epoch == old(fdrs)[fd].epoch
    {
      ghost var was := fdrs;
      SetBody(fd, body);
      Enqueue(fd);
      CoverKeeps(was, ws, lists, fdrs, ws, lists, fdctl, gone, fd);
    }

    /** Install a watch on `fd` and queue the descriptor for registration. A record still held by another
        body, which must have been closed, is closed first. */
    method Install(fd: int, mask: Mask, body: nat, ev: nat, shut: set<nat>) returns (handle: nat, fired: seq<nat>)
      requires Valid() && Registered() && fd < MAX_FDS && ev != 0
      requires 0 <= fd < |fdrs| && Replaces(fdrs, fd, body) && mask != 0 ==> fdrs[fd].body in shut
      modifies this`fdrs, this`ws, this`freeLink, this`updateLink, this`owner, this`lists, this`upd
      ensures Valid() && Registered() && handle == ev
      ensures fd < 0 || mask == 0 ==>
                fdrs == old(fdrs) && ws == old(ws) && lists == old(lists) && upd == old(upd) && fired == []
      ensures fd >= 0 && mask != 0 ==>
                var evicts := Replaces(old(fdrs), fd, body);
                && fired == (if evicts then Events(old(Watches(fd))) else [])
                && Watches(fd) == (if evicts then [] else old(Watches(fd))) + [Watch(ev, mask)]
                && SameBut(old(ws), old(lists), ws, lists, OfFd(fd))
                && fd < |fdrs| && fdrs[fd].body == body && fd in upd
                && OthersKept(old(fdrs), fdrs, fd)
                && fdrs[fd].epoch == (if fd >= |old(fdrs)| then 0
                                      else if evicts then (old(fdrs)[fd].epoch + 1) % 0x1_0000_0000
                                      else old(fdrs)[fd].epoch)
    {
      handle, fired := ev, [];
      if fd < 0 || mask == 0 {
        return;
      }
      if fd >= |fdrs| {
        HardEnsure(fd);
      }
      fired := Evict(fd, body, shut);
      ghost var ws1, lists1 := ws, lists;
      InstallAt(fd, mask, body, ev);
      SameButChains(old(ws), old(lists), ws1, lists1, ws, lists, OfFd(fd));
    }

    method Evict(fd: nat, body: nat, shut: set<nat>) returns (fired: seq<nat>)
      requires Valid() && Registered() && fd < |fdrs| && (Replaces(fdrs, fd, body) ==> fdrs[fd].body in shut)
      modifies this`fdrs, this`ws, this`freeLink, this`updateLink, this`owner, this`lists, this`upd
      ensures Valid() && Registered() && |fdrs| == |old(fdrs)| && !Replaces(fdrs, fd, body)
      ensures OthersKept(old(fdrs), fdrs, fd) && SameBut(old(ws), old(lists), ws, lists, OfFd(fd))
      ensures var evicts := Replaces(old(fdrs), fd, body);
              && fdrs[fd].epoch == (if evicts then (old(fdrs)[fd].epoch + 1) % 0x1_0000_0000 else old(fdrs)[fd].epoch)
              && fired == (if evicts then Events(old(Watches(fd))) else [])
              && Watches(fd) == (if evicts then [] else old(Watches(fd)))
    {
      fired := [];
      if fdrs[fd].body != body && fdrs[fd].body != 0 {
        var r;
        r, fired := FdClose(fd, shut);
      }
    }

    method InstallAt(fd: nat, mask: Mask, body: nat, ev: nat)
      requires Valid() && Registered() && fd < |fdrs| && ev != 0
      modifies this`fdrs, this`ws, this`freeLink, this`updateLink, this`owner, this`lists, this`upd
      ensures Valid() && Registered()
      ensures Watches(fd) == old(Watches(fd)) + [Watch(ev, mask)]
      ensures SameBut(old(ws), old(lists), ws, lists, OfFd(fd))
      ensures fd < |fdrs| && fdrs[fd].body == body && fd in upd
      ensures OthersKept(old(fdrs), fdrs, fd) && fdrs[fd].epoch == old(fdrs)[fd].epoch
    {
      Admit(fd, body);
      AppendCovered(fd, mask, ev);
    }

    method AppendCovered(fd: nat, mask: Mask, ev: nat)
      requires Valid() && Registered() && fd < |fdrs| && ev != 0 && fdrs[fd].updateLink != 0
      modifies this`fdrs, this`ws, this`freeLink, this`owner, this`lists
      ensures Valid() && Registered() && |fdrs| == |old(fdrs)| && fdrs[fd].body == old(fdrs)[fd].body
      ensures OthersKept(old(fdrs), fdrs, fd) && fdrs[fd].epoch == old(fdrs)[fd].epoch
      ensures Watches(fd) == old(Watches(fd)) + [Watch(ev, mask)]
      ensures SameBut(old(ws), old(lists), ws, lists, OfFd(fd))
    {
      ghost var was := fdrs;
      AppendWatch(fd, mask, ev);
      CoverKeeps(was, old(ws), old(lists), fdrs, ws, lists, fdctl, gone, fd);
    }

    /** Walk the list of `fd`, moving wanted watches to a list of their own. */
    method Walk(fd: nat, imask: Mask) returns (whead: nat)
      requires Valid() && fd < |fdrs|
      modifies this`ws, this`fdrs
      ensures var l := ListOf(lists, OfFd(fd));
              var taken, kept := Picked(old(ws), l, imask, gone, true), Picked(old(ws), l, imask, gone, false);
              && Walked(old(ws), ws, l, taken, kept)
              && whead == Head(taken)
              && fdrs == old(fdrs)[fd := old(fdrs)[fd].(whead := Head(kept), wtail := Last(kept))]
    {
      ghost var l := ListOf(lists, OfFd(fd));
      assert HeadAt(fdrs, lists, fd);
      assert Chain(ws, l) && 0 !in l by {
        if l != [] {
          OkIsChain(ws, owner, l, OfFd(fd));
          OwnedSlots(ws, owner, lists, OfFd(fd));
        }
      }
      var after, head, khead, kept := SplitChain(ws, fdrs[fd].whead, imask, gone, l);
      whead := head;
      ws := after;
      fdrs := fdrs[fd := fdrs[fd].(whead := khead, wtail := kept)];
    }

    /** Detach the wanted watches of `fd` as a list of their own. */
    method Detach(fd: nat, imask: Mask, ghost key: nat) returns (whead: nat)
      requires Valid() && fd < |fdrs| && Taken(key) !in lists && OfFd(fd) in lists
      modifies this`ws, this`fdrs, this`owner, this`lists
      ensures Valid() && |fdrs| == |old(fdrs)| && Taken(key) in lists && whead == Head(lists[Taken(key)])
      ensures fdrs[fd] == old(fdrs)[fd].(whead := fdrs[fd].whead, wtail := fdrs[fd].wtail)
      ensures forall k: nat | k < |fdrs| && k != fd :: fdrs[k] == old(fdrs)[k]
      ensures Batch(key) == Filter(old(Watches(fd)), imask, gone, true)
      ensures Watches(fd) == Filter(old(Watches(fd)), imask, gone, false)
      ensures OthersSame(old(ws), old(lists), ws, lists, OfFd(fd), Taken(key))
    {
      ghost var ws0, o, t := ws, OfFd(fd), Taken(key);
      ghost var taken, kept := Picked(ws, lists[o], imask, gone, true), Picked(ws, lists[o], imask, gone, false);
      whead := Walk(fd, imask);
      Split(ws0, ws, owner, lists, o, t, imask, gone);
      DetachSame(ws0, ws, lists, o, t, kept, taken);
      owner, lists := Reowned(owner, taken, t), lists[o := kept][t := taken];
      DetachRecords(old(fdrs), freeLink, old(lists), updateLink, upd, fd, kept, t, taken, fdrs);
    }

    /** `take_watch_list`: detach what a notification for `fd` delivers, unless it is stale. */
    method TakeWatchList(fd: int, imask: Mask, epoch: nat, ghost key: nat) returns (whead: nat)
      requires Valid() && Registered() && Taken(key) !in lists
      modifies this`ws, this`fdrs, this`updateLink, this`owner, this`lists, this`upd
      ensures Valid() && Registered() && whead == Head(ListOf(lists, Taken(key)))
      ensures fd < 0 || fd >= |old(fdrs)| || old(Watches(fd)) == [] || (epoch != 0 && epoch != old(fdrs)[fd].epoch) ==>
                whead == 0 && ws == old(ws) && fdrs == old(fdrs) && lists == old(lists) && upd == old(upd)
      ensures 0 <= fd < |old(fdrs)| && (epoch == 0 || epoch == old(fdrs)[fd].epoch) ==>
                && Batch(key) == Filter(old(Watches(fd)), imask, gone, true)
                && Watches(fd) == Filter(old(Watches(fd)), imask, gone, false)
                && (whead != 0 ==> fd in upd)
                && OthersKept(old(fdrs), fdrs, fd) && |fdrs| == |old(fdrs)|
                && fdrs[fd].body == old(fdrs)[fd].body && fdrs[fd].epoch == old(fdrs)[fd].epoch
                && OthersSame(old(ws), old(lists), ws, lists, OfFd(fd), Taken(key))
    {
      if fd < 0 || fd >= |fdrs| {
        return 0;
      }
      assert HeadAt(fdrs, lists, fd);
      HeadBounds(ws, owner, lists, OfFd(fd));
      if fdrs[fd].whead == 0 || (epoch != 0 && epoch != fdrs[fd].epoch) {
        return 0;
      }
      whead := TakeAt(fd, imask, key);
    }

    method TakeAt(fd: nat, imask: Mask, ghost key: nat) returns (whead: nat)
      requires Valid() && Registered() && fd < |fdrs| && Taken(key) !in lists && OfFd(fd) in lists
      modifies this`ws, this`fdrs, this`updateLink, this`owner, this`lists, this`upd
      ensures Valid() && Registered() && whead == Head(ListOf(lists, Taken(key)))
      ensures Batch(key) == Filter(old(Watches(fd)), imask, gone, true)
      ensures Watches(fd) == Filter(old(Watches(fd)), imask, gone, false)
      ensures whead != 0 ==> fd in upd
      ensures OthersKept(old(fdrs), fdrs, fd) && |fdrs| == |old(fdrs)|
      ensures fdrs[fd].body == old(fdrs)[fd].body && fdrs[fd].epoch == old(fdrs)[fd].epoch
      ensures OthersSame(old(ws), old(lists), ws, lists, OfFd(fd), Taken(key))
    {
      whead := Detach(fd, imask, key);
      TakeCovers(old(fdrs), old(ws), old(lists), fdrs, ws, lists, fdctl, gone, fd, key, imask);
      if whead != 0 {
        EnqueueRegistered(fd);
      }
    }

    method EnqueueRegistered(fd: nat)
      requires Valid() && Registered() && fd < |fdrs|
      modifies this`fdrs, this`updateLink, this`upd
      ensures Valid() && Registered() && fd in upd
      ensures OthersKept(old(fdrs), fdrs, fd) && |fdrs| == |old(fdrs)|
      ensures fdrs[fd].body == old(fdrs)[fd].body && fdrs[fd].epoch == old(fdrs)[fd].epoch
    {
      ghost var was := fdrs;
      Enqueue(fd);
      CoverKeeps(was, ws, lists, fdrs, ws, lists, fdctl, gone, fd);
    }

    /** Take the first event off a detached list, note the mask delivered to it, and recycle its slot. */
    method PopWatchListEvent(wix: nat, mask: Mask, ghost key: nat) returns (next: nat, ev: nat)
      requires Valid() && ListOf(lists, Taken(key)) != [] && wix == Head(ListOf(lists, Taken(key)))
      modifies this`ws, this`freeLink, this`delivered, this`owner, this`lists
      ensures Valid() && old(Batch(key)) == [Watch(ev, old(Batch(key))[0].mask)] + Batch(key)
      ensures next == Head(ListOf(lists, Taken(key)))
      ensures delivered == if mask != 0 then old(delivered)[ev := mask] else old(delivered)
      ensures SameBut(old(ws), old(lists), ws, lists, Taken(key))
      ensures old(Registered()) ==> Registered()
    {
      HeadBounds(ws, owner, lists, Taken(key));
      next, ev := Recycle(wix, Taken(key));
      if mask != 0 {
        delivered := delivered[ev := mask];
      }
      OtherFds(old(ws), old(lists), ws, lists, Taken(key));
      HeadsSame(fdrs, old(freeLink), old(lists), freeLink, lists);
      if old(Registered()) {
        CoverSame(fdrs, old(ws), old(lists), ws, lists, fdctl, gone, Taken(key));
      }
    }

    /** Move the first slot of a list to the free list. */
    method Recycle(wix: nat, ghost o: Owner) returns (next: nat, ev: nat)
      requires SlotsInv(ws, owner, lists) && Free in lists && freeLink == Head(lists[Free])
      requires o != Free && ListOf(lists, o) != [] && wix == Head(lists[o]) && 1 <= wix <= |ws|
      modifies this`ws, this`freeLink, this`owner, this`lists
      ensures SlotsInv(ws, owner, lists) && Free in lists && freeLink == Head(lists[Free])
      ensures o in lists && lists[o] == old(lists)[o][1..] && next == Head(lists[o])
      ensures View(old(ws), old(lists)[o]) == [Watch(ev, View(old(ws), old(lists)[o])[0].mask)] + View(ws, lists[o])
      ensures SameBut(old(ws), old(lists), ws, lists, o)
      ensures forall p | p in lists && p.OfFd? :: p in old(lists)
    {
      ghost var lists' := Relist(lists, o, lists[o][1..], [wix] + lists[Free]);
      ghost var ws' := Released(ws, wix, lists[Free]);
      ReleaseTo(ws, owner, lists, o);
      var wr := ws[wix - 1];
      next, ev := wr.wlink, wr.ev;
      ws := ws[wix - 1 := Slot(0, wr.mask, freeLink)];
      assert ws == ws';
      freeLink := wix;
      owner, lists := owner[wix - 1 := Free], lists';
    }

    /** Recycle the whole list of `fd`, collecting its events in order. */
    method DrainList(fd: nat) returns (fired: seq<nat>)
      requires Valid() && fd < |fdrs|
      modifies this`ws, this`freeLink, this`owner, this`lists, this`fdrs
      ensures Valid() && fired == Events(old(Watches(fd))) && Watches(fd) == []
      ensures fdrs == old(fdrs)[fd := old(fdrs)[fd].(whead := 0, wtail := 0)]
      ensures SameBut(old(ws), old(lists), ws, lists, OfFd(fd))
    {
      fired := [];
      ghost var o, was := OfFd(fd), fdrs;
      assert HeadAt(fdrs, lists, fd);
      var wix := fdrs[fd].whead;
      HeadBounds(ws, owner, lists, o);
      while wix != 0
        invariant fdrs == was && SlotsInv(ws, owner, lists) && Free in lists && freeLink == Head(lists[Free])
        invariant wix == Head(ListOf(lists, o)) && (wix == 0 <==> ListOf(lists, o) == [])
        invariant SameBut(old(ws), old(lists), ws, lists, o)
        invariant forall p | p in lists && p.OfFd? :: p in old(lists)
        invariant Events(old(Watches(fd))) == fired + Events(View(ws, ListOf(lists, o)))
        decreases |ListOf(lists, o)|
      {
        ghost var ws1, lists1 := ws, lists;
        var next, ev := Recycle(wix, o);
        HeadBounds(ws, owner, lists, o);
        SameButChains(old(ws), old(lists), ws1, lists1, ws, lists, o);
        EventsFirst(View(ws1, lists1[o]), ev, View(ws, lists[o]));
        fired := fired + [ev];
        wix := next;
      }
      fdrs := fdrs[fd := fdrs[fd].(whead := 0, wtail := 0)];
      OtherFds(old(ws), old(lists), ws, lists, o);
      HeadsKeep(was, old(lists), old(freeLink), fdrs, lists, freeLink, fd);
      UpdFrame(was, fdrs, updateLink, upd);
    }

    /** A closed descriptor loses all its watches; their events fire, oldest first. */
    method FdClose(fd: int, shut: set<nat>) returns (r: Option<Closed>, fired: seq<nat>)
      requires Valid() && Registered()
      modifies this`ws, this`freeLink, this`owner, this`lists, this`fdrs, this`updateLink, this`upd
      ensures Valid() && Registered()
      ensures r.None? <==> fd < 0 || fd >= |old(fdrs)| || old(fdrs)[fd].body == 0 || old(fdrs)[fd].body !in shut
      ensures r.None? ==> fired == [] && ws == old(ws) && lists == old(lists) && fdrs == old(fdrs) && upd == old(upd)
      ensures r.Some? ==>
                && r.value == Closed(old(fdrs)[fd].body, old(fdrs)[fd].epoch)
                && fired == Events(old(Watches(fd))) && Watches(fd) == [] && fd in upd
                && |fired| == |old(Watches(fd))|
                && (forall k | 0 <= k < |fired| :: fired[k] == old(Watches(fd))[k].ev)
                && |fdrs| == |old(fdrs)| && fdrs[fd].body == 0
                && fdrs[fd].epoch == (old(fdrs)[fd].epoch + 1) % 0x1_0000_0000
                && OthersKept(old(fdrs), fdrs, fd)
                && SameBut(old(ws), old(lists), ws, lists, OfFd(fd))
    {
      if fd < 0 || fd >= |fdrs| || fdrs[fd].body == 0 || fdrs[fd].body !in shut {
        return None, [];
      }
      ghost var was := fdrs;
      fired := DrainList(fd);
      r := Some(Closed(fdrs[fd].body, fdrs[fd].epoch));
      Retire(fd);
      CoverKeeps(was, old(ws), old(lists), fdrs, ws, lists, fdctl, gone, fd);
    }

    method Retire(fd: nat)
      requires Valid() && fd < |fdrs|
      modifies this`fdrs, this`updateLink, this`upd
      ensures Valid() && |fdrs| == |old(fdrs)| && fdrs[fd].updateLink != 0 && fd in upd
      ensures fdrs[fd].body == 0 && fdrs[fd].epoch == (old(fdrs)[fd].epoch + 1) % 0x1_0000_0000
      ensures forall k: nat | k < |fdrs| && k != fd :: fdrs[k] == old(fdrs)[k]
    {
      SetEpoch(fd, (fdrs[fd].epoch + 1) % 0x1_0000_0000);
      Enqueue(fd);
      SetBody(fd, 0);
    }

    method SetEpoch(fd: nat, epoch: nat)
      requires Valid() && fd < |fdrs|
      modifies this`fdrs
      ensures Valid() && fdrs == old(fdrs)[fd := old(fdrs)[fd].(epoch := epoch)]
    {
      ghost var was := fdrs;
      fdrs := fdrs[fd := fdrs[fd].(epoch := epoch)];
      assert HeadAt(was, lists, fd);
      HeadsKeep(was, lists, freeLink, fdrs, lists, freeLink, fd);
      UpdFrame(was, fdrs, updateLink, upd);
    }

    /** What the live watches on a list wait for. */
    method WatchListMask(start: nat, ghost o: Owner) returns (mask: Mask)
      requires SlotsInv(ws, owner, lists) && start == Head(ListOf(lists, o))
      ensures mask == LiveMask(View(ws, ListOf(lists, o)), gone)
    {
      ghost var l, i: nat := ListOf(lists, o), 0;
      HeadBounds(ws, owner, lists, o);
      mask := 0;
      var wix := start;
      while wix != 0
        invariant i <= |l| && wix == (if i < |l| then l[i] else 0) && (wix == 0 <==> i == |l|)
        invariant mask == LiveMask(View(ws, l)[..i], gone)
        decreases |l| - i
      {
        LinkInside(ws, owner, lists, o, i);
        var wr := ws[wix - 1];
        LiveMaskNext(ws, l, i, gone);
        if wr.ev != 0 && wr.ev !in gone {
          mask := mask | wr.mask;
        }
        wix := wr.wlink;
        i := i + 1;
      }
      assert View(ws, l)[..i] == View(ws, l);
    }

    /** Take one descriptor off the update list and recompute its mask. */
    method PopUpdate() returns (r: Option<Update>)
      requires Valid()
      modifies this`fdrs, this`updateLink, this`upd
      ensures Valid() && |fdrs| == |old(fdrs)|
      ensures old(upd) == [] ==> r == None && fdrs == old(fdrs) && upd == []
      ensures old(upd) != [] ==>
                && upd == old(upd)[1..] && r.Some? && r.value.fd == old(upd)[0] < |fdrs|
                && r.value.mask == LiveMask(Watches(r.value.fd), gone)
                && fdrs == Cleaned(old(fdrs), r.value.fd, fdrs[r.value.fd].epoch)
                && (r.value.mask == 0 ==>
                      && r.value.epoch == old(fdrs)[r.value.fd].epoch
                      && fdrs[r.value.fd].epoch == (r.value.epoch + 1) % 0x1_0000_0000)
                && (r.value.mask != 0 ==>
                      && r.value.epoch == fdrs[r.value.fd].epoch
                      && r.value.epoch == if old(fdrs)[r.value.fd].epoch < 2 then 2 else old(fdrs)[r.value.fd].epoch)
    {
      if updateLink == SENTINEL {
        UpdEnds(fdrs, updateLink, upd);
        return None;
      }
      ghost var was := fdrs;
      DequeueKeeps(fdrs, updateLink, upd);
      var fd: nat := updateLink - 1;
      updateLink := fdrs[fd].updateLink;
      fdrs := fdrs[fd := fdrs[fd].(updateLink := 0)];
      upd := upd[1..];
      assert HeadAt(was, lists, fd);
      HeadsKeep(was, lists, freeLink, fdrs, lists, freeLink, fd);
      var mask := WatchListMask(fdrs[fd].whead, OfFd(fd));
      var epoch := fdrs[fd].epoch;
      if mask == 0 {
        SetEpoch(fd, (epoch + 1) % 0x1_0000_0000);
      } else if epoch < USER_EPOCH {
        epoch := USER_EPOCH;
        SetEpoch(fd, epoch);
      }
      r := Some(Update(fd, mask, epoch));
    }

    /** Record a mask in the packed table. */
    method ApplyFdUpdate(fd: nat, mask: Mask)
      requires CtlInv(fdctl, nfdctl)
      modifies this`fdctl, this`nfdctl
      ensures CtlInv(fdctl, nfdctl)
      ensures forall k: nat :: Entry(fdctl, k) == if k == fd then mask else old(Entry(fdctl, k))
    {
      ghost var was := fdctl;
      WidenCounts(fdctl, nfdctl, fd);
      fdctl := Widened(fdctl, fd);
      ghost var wide := fdctl;
      forall k: nat ensures Entry(wide, k) == Entry(was, k) && fd / 16 < |wide| {
        WidenedSame(was, fd, k);
      }
      var before := Entry(fdctl, fd);
      if before == mask {
        return;
      }
      RecordCounts(fdctl, nfdctl, fd, mask);
      fdctl := Recorded(fdctl, fd, mask);
      if before == 0 {
        nfdctl := nfdctl + 1;
      } else if mask == 0 {
        nfdctl := nfdctl - 1;
      }
      forall k: nat ensures Entry(fdctl, k) == if k == fd then mask else Entry(wide, k) {
        RecordedIsUpdate(wide, fd, mask, k);
      }
    }

    /** Bring the table up to date: afterwards it covers every live watch of every descriptor. */
    method ApplyUpdates()
      requires Valid() && Registered()
      modifies this`fdrs, this`updateLink, this`upd, this`fdctl, this`nfdctl
      ensures Valid() && Registered() && upd == [] && |fdrs| == |old(fdrs)|
      ensures forall fd: nat | fd < |fdrs| :: Covers(Entry(fdctl, fd), Watches(fd), gone)
      ensures AllApplied(old(fdctl), fdctl, old(upd), ws, lists, gone)
    {
      var more := true;
      ghost var done := [];
      while more
        invariant Valid() && Registered() && |fdrs| == |old(fdrs)| && (!more ==> upd == [])
        invariant old(upd) == done + upd
        invariant AllApplied(old(fdctl), fdctl, done, ws, lists, gone)
        decreases |upd| + if more then 1 else 0
      {
        ghost var ctl, queue := fdctl, upd;
        var r := ApplyNext();
        more := r.Some?;
        if more {
          AppliedNext(old(fdctl), ctl, fdctl, done, queue[0], ws, lists, gone);
          MoveOver(done, queue);
          done := done + [queue[0]];
        }
      }
      assert done == old(upd);
      DrainedCovers(fdrs, updateLink, ws, lists, fdctl, gone);
    }

    /** Bring the first queued descriptor up to date, if there is one. */
    method ApplyNext() returns (r: Option<Update>)
      requires Valid() && Registered()
      modifies this`fdrs, this`updateLink, this`upd, this`fdctl, this`nfdctl
      ensures Valid() && Registered() && |fdrs| == |old(fdrs)| && (r.Some? <==> old(upd) != [])
      ensures r.None? ==> upd == [] && fdctl == old(fdctl)
      ensures r.Some? ==>
                && r.value.fd < |fdrs| && fdrs == Cleaned(old(fdrs), r.value.fd, fdrs[r.value.fd].epoch)
                && (r.value.mask == 0 ==>
                      && r.value.epoch == old(fdrs)[r.value.fd].epoch
                      && fdrs[r.value.fd].epoch == (r.value.epoch + 1) % 0x1_0000_0000)
                && upd == old(upd)[1..]
                && AllApplied(old(fdctl), fdctl, [old(upd)[0]], ws, lists, gone)
    {
      ghost var was := fdrs;
      r := PopUpdate();
      if r.Some? {
        PopCovers(was, fdrs, ws, lists, fdctl, gone, r.value.fd);
        ApplyOne(r.value);
      }
    }

    method ApplyOne(u: Update)
      requires Valid() && CtlInv(fdctl, nfdctl) && u.mask == LiveMask(Watches(u.fd), gone)
      requires forall k: nat | k < |fdrs| && k != u.fd :: CoveredAt(fdrs, ws, lists, fdctl, gone, k)
      modifies this`fdctl, this`nfdctl
      ensures Registered()
      ensures forall k: nat :: Entry(fdctl, k) == if k == u.fd then u.mask else old(Entry(fdctl, k))
    {
      ghost var ctl := fdctl;
      ApplyFdUpdate(u.fd, u.mask);
      LiveMaskCovers(Watches(u.fd), gone, u.mask);
      forall k: nat | k < |fdrs| ensures CoveredAt(fdrs, ws, lists, fdctl, gone, k) {
        assert k != u.fd ==> CoveredAt(fdrs, ws, lists, ctl, gone, k);
      }
    }

    /** A close reported to the driver: the watches fire and nothing stays registered. */
    method NotifyClose(fd: int, shut: set<nat>) returns (r: Option<Closed>, fired: seq<nat>)
      requires Valid() && Registered()
      modifies this
      ensures Valid() && Registered() && gone == old(gone) && delivered == old(delivered)
      ensures r.None? <==> fd < 0 || fd >= |old(fdrs)| || old(fdrs)[fd].body == 0 || old(fdrs)[fd].body !in shut
      ensures r.None? ==>
                fired == [] && ws == old(ws) && lists == old(lists) && fdrs == old(fdrs) && fdctl == old(fdctl)
      ensures r.Some? ==>
                && fired == Events(old(Watches(fd))) && Watches(fd) == []
                && (forall k: nat :: Applied(old(fdctl), fdctl, [fd], k, 0))
                && SameBut(old(ws), old(lists), ws, lists, OfFd(fd))
    {
      r, fired := FdClose(fd, shut);
      if r.Some? {
        ghost var ctl := fdctl;
        ApplyFdUpdate(fd, 0);
        forall k: nat | k < |fdrs| ensures CoveredAt(fdrs, ws, lists, fdctl, gone, k) {
          assert CoveredAt(fdrs, ws, lists, ctl, gone, k);
        }
      }
    }
  }
}