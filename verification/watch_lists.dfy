/** Singly linked lists threaded through the slots of one array: the free list, one watch list per
    file descriptor, and lists detached for delivery. Links are 1-based; 0 ends a list. */
module WatchLists {

  type Mask = bv4

  datatype Slot = Slot(ev: nat, mask: Mask, wlink: nat)

  /** What a watch list means: events and the masks they wait for, in order. */
  datatype Watch = Watch(ev: nat, mask: Mask)

  /** The lists a slot can be on. */
  datatype Owner = Free | OfFd(fd: nat) | Taken(key: nat)

  type Lists = map<Owner, seq<nat>>

  // Chains

  function Next(l: seq<nat>, i: nat): nat { if i + 1 < |l| then l[i + 1] else 0 }

  function Head(l: seq<nat>): nat { if l == [] then 0 else l[0] }

  function Last(l: seq<nat>): nat { if l == [] then 0 else l[|l| - 1] }

  ghost predicate LinkAt(ws: seq<Slot>, l: seq<nat>, i: nat)
    requires i < |l|
  { 1 <= l[i] <= |ws| && ws[l[i] - 1].wlink == Next(l, i) }

  /** `l` names the slots reached by following links from its first. */
  ghost predicate Chain(ws: seq<Slot>, l: seq<nat>) { forall i: nat | i < |l| :: LinkAt(ws, l, i) }

  /** A chain that ends has no cycle: no slot is on it twice. */
  lemma {:induction false} ChainAcyclic(ws: seq<Slot>, l: seq<nat>, i: nat, j: nat)
    requires Chain(ws, l) && i < j < |l|
    ensures l[i] != l[j]
    decreases |l| - j
  {
    assert LinkAt(ws, l, i) && LinkAt(ws, l, j);
    if j + 1 < |l| {
      ChainAcyclic(ws, l, i + 1, j + 1);
    } else {
      assert LinkAt(ws, l, i + 1);
    }
  }

  function ViewAt(ws: seq<Slot>, w: nat): Watch {
    if 1 <= w <= |ws| then Watch(ws[w - 1].ev, ws[w - 1].mask) else Watch(0, 0)
  }

  function View(ws: seq<Slot>, l: seq<nat>): seq<Watch> { seq(|l|, i requires 0 <= i < |l| => ViewAt(ws, l[i])) }

  // Every slot is on exactly one list

  ghost predicate ListOk(ws: seq<Slot>, owner: seq<Owner>, l: seq<nat>, o: Owner)
    requires |owner| == |ws|
  { forall i: nat | i < |l| :: LinkAt(ws, l, i) && owner[l[i] - 1] == o }

  /** A slot is on the list of its owner; it holds an event exactly when it is not free. */
  ghost predicate SlotOk(ws: seq<Slot>, owner: seq<Owner>, lists: Lists, w: nat)
    requires |owner| == |ws| && w < |ws|
  { owner[w] in lists && w + 1 in lists[owner[w]] && (owner[w] == Free <==> ws[w].ev == 0) }

  ghost predicate SlotsInv(ws: seq<Slot>, owner: seq<Owner>, lists: Lists) {
    && |owner| == |ws|
    && (forall o | o in lists :: ListOk(ws, owner, lists[o], o))
    && (forall w: nat | w < |ws| :: SlotOk(ws, owner, lists, w))
  }

  /** Slot conservation: every slot is on exactly one list, once, and every link of a list is a slot. */
  lemma SlotConservation(ws: seq<Slot>, owner: seq<Owner>, lists: Lists, w: nat)
    requires SlotsInv(ws, owner, lists) && 1 <= w <= |ws|
    ensures exists o :: o in lists && w in lists[o]
    ensures forall o, p | o in lists && p in lists && w in lists[o] && w in lists[p] :: o == p
    ensures forall o, i: nat, j: nat | o in lists && i < |lists[o]| && j < |lists[o]|
              && lists[o][i] == w == lists[o][j] :: i == j
  {
    assert SlotOk(ws, owner, lists, w - 1);
    forall o | o in lists && w in lists[o] ensures owner[w - 1] == o {
      assert ListOk(ws, owner, lists[o], o);
      var i: nat :| i < |lists[o]| && lists[o][i] == w;
      assert LinkAt(ws, lists[o], i);
    }
    forall o, i: nat, j: nat | o in lists && i < |lists[o]| && j < |lists[o]| && lists[o][i] == w == lists[o][j]
      ensures i == j
    {
      OkIsChain(ws, owner, lists[o], o);
      if i < j {
        ChainAcyclic(ws, lists[o], i, j);
      } else if j < i {
        ChainAcyclic(ws, lists[o], j, i);
      }
    }
  }

  lemma OkIsChain(ws: seq<Slot>, owner: seq<Owner>, l: seq<nat>, o: Owner)
    requires |owner| == |ws| && ListOk(ws, owner, l, o)
    ensures Chain(ws, l)
  {
  }

  /** A list whose slots did not change. */
  lemma Framed(ws: seq<Slot>, owner: seq<Owner>, ws': seq<Slot>, owner': seq<Owner>, l: seq<nat>, o: Owner)
    requires |owner| == |ws| <= |ws'| == |owner'| && ListOk(ws, owner, l, o)
    requires forall w: nat | w < |ws| && owner[w] == o :: ws'[w] == ws[w] && owner'[w] == o
    ensures ListOk(ws', owner', l, o) && View(ws', l) == View(ws, l)
  {
    forall i: nat | i < |l|
      ensures LinkAt(ws', l, i) && owner'[l[i] - 1] == o && ViewAt(ws', l[i]) == ViewAt(ws, l[i])
    {
      assert LinkAt(ws, l, i);
    }
  }

  ghost predicate Untouched(ws: seq<Slot>, owner: seq<Owner>, ws': seq<Slot>, owner': seq<Owner>, a: Owner, b: Owner)
    requires |owner| == |ws| <= |ws'| == |owner'|
  { forall w: nat | w < |ws| && owner[w] != a && owner[w] != b :: ws'[w] == ws[w] && owner'[w] == owner[w] }

  /** The lists of `a` and `b` were rebuilt from their slots and any new ones. */
  lemma Relisted(
    ws: seq<Slot>, owner: seq<Owner>, lists: Lists, ws': seq<Slot>, owner': seq<Owner>, lists': Lists, a: Owner,
    b: Owner)
    requires SlotsInv(ws, owner, lists) && |ws| <= |ws'| == |owner'|
    requires Untouched(ws, owner, ws', owner', a, b)
    requires a != b && a in lists' && b in lists'
    requires ListOk(ws', owner', lists'[a], a) && ListOk(ws', owner', lists'[b], b)
    requires forall o | o in lists && o != a && o != b :: o in lists' && lists'[o] == lists[o]
    requires forall o | o in lists' && o != a && o != b :: o in lists
    requires forall w: nat | w < |ws'| && (w >= |ws| || owner[w] == a || owner[w] == b) ::
               SlotOk(ws', owner', lists', w)
    ensures SlotsInv(ws', owner', lists')
    ensures forall o | o in lists && o != a && o != b :: View(ws', lists[o]) == View(ws, lists[o])
  {
    forall o | o in lists && o != a && o != b
      ensures ListOk(ws', owner', lists'[o], o) && View(ws', lists[o]) == View(ws, lists[o])
    {
      assert ListOk(ws, owner, lists[o], o);
      Framed(ws, owner, ws', owner', lists[o], o);
    }
    forall w: nat | w < |ws'| ensures SlotOk(ws', owner', lists', w) {
      if w < |ws| && owner[w] != a && owner[w] != b {
        assert SlotOk(ws, owner, lists, w);
      }
    }
  }

  // Popping the front slot to the free list

  function Released(ws: seq<Slot>, w: nat, free: seq<nat>): seq<Slot>
    requires 1 <= w <= |ws|
  { ws[w - 1 := Slot(0, ws[w - 1].mask, Head(free))] }

  function ReleasedLists(lists: Lists, o: Owner): Lists
    requires o in lists && Free in lists && lists[o] != []
  { lists[o := lists[o][1..]][Free := [lists[o][0]] + lists[Free]] }

  lemma ReleaseFreeAt(ws: seq<Slot>, owner: seq<Owner>, free: seq<nat>, w: nat, i: nat)
    requires |owner| == |ws| && ListOk(ws, owner, free, Free) && 1 <= w <= |ws| && owner[w - 1] != Free
    requires i < |[w] + free|
    ensures var l' := [w] + free;
            LinkAt(Released(ws, w, free), l', i) && owner[w - 1 := Free][l'[i] - 1] == Free
  {
    if i > 0 {
      assert LinkAt(ws, free, i - 1) && owner[free[i - 1] - 1] == Free;
      assert ([w] + free)[i] == free[i - 1] && Next([w] + free, i) == Next(free, i - 1);
    }
  }

  lemma ReleaseFree(ws: seq<Slot>, owner: seq<Owner>, free: seq<nat>, w: nat)
    requires |owner| == |ws| && ListOk(ws, owner, free, Free) && 1 <= w <= |ws| && owner[w - 1] != Free
    ensures ListOk(Released(ws, w, free), owner[w - 1 := Free], [w] + free, Free)
  {
    var ws', l', owner' := Released(ws, w, free), [w] + free, owner[w - 1 := Free];
    forall i: nat | i < |l'| ensures LinkAt(ws', l', i) && owner'[l'[i] - 1] == Free {
      ReleaseFreeAt(ws, owner, free, w, i);
    }
  }

  lemma ReleaseRestAt(ws: seq<Slot>, owner: seq<Owner>, l: seq<nat>, o: Owner, free: seq<nat>, i: nat)
    requires |owner| == |ws| && ListOk(ws, owner, l, o) && i + 1 < |l| && 1 <= l[0] <= |ws| && o != Free
    ensures LinkAt(Released(ws, l[0], free), l[1..], i) && owner[l[0] - 1 := Free][l[1..][i] - 1] == o
    ensures ViewAt(Released(ws, l[0], free), l[1..][i]) == ViewAt(ws, l[i + 1])
  {
    assert LinkAt(ws, l, i + 1);
    assert l[i + 1] != l[0] by {
      OkIsChain(ws, owner, l, o);
      ChainAcyclic(ws, l, 0, i + 1);
    }
    assert Next(l[1..], i) == Next(l, i + 1);
  }

  lemma ReleaseRest(ws: seq<Slot>, owner: seq<Owner>, l: seq<nat>, o: Owner, free: seq<nat>)
    requires |owner| == |ws| && ListOk(ws, owner, l, o) && l != [] && 1 <= l[0] <= |ws| && o != Free
    ensures ListOk(Released(ws, l[0], free), owner[l[0] - 1 := Free], l[1..], o)
    ensures View(Released(ws, l[0], free), l[1..]) == View(ws, l)[1..]
  {
    forall i: nat | i < |l| - 1
      ensures LinkAt(Released(ws, l[0], free), l[1..], i) && owner[l[0] - 1 := Free][l[1..][i] - 1] == o
      ensures ViewAt(Released(ws, l[0], free), l[1..][i]) == ViewAt(ws, l[i + 1])
    {
      ReleaseRestAt(ws, owner, l, o, free, i);
    }
  }

  lemma ReleaseSlots(ws: seq<Slot>, owner: seq<Owner>, lists: Lists, o: Owner, v: nat)
    requires SlotsInv(ws, owner, lists) && o in lists && Free in lists && o != Free && lists[o] != []
    requires 1 <= lists[o][0] <= |ws| && v < |ws| && (owner[v] == o || owner[v] == Free)
    ensures SlotOk(Released(ws, lists[o][0], lists[Free]), owner[lists[o][0] - 1 := Free], ReleasedLists(lists, o), v)
  {
    assert SlotOk(ws, owner, lists, v);
    assert lists[o] == [lists[o][0]] + lists[o][1..];
  }

  lemma ReleaseUntouched(ws: seq<Slot>, owner: seq<Owner>, o: Owner, w: nat, free: seq<nat>)
    requires |owner| == |ws| && 1 <= w <= |ws| && owner[w - 1] == o
    ensures Untouched(ws, owner, Released(ws, w, free), owner[w - 1 := Free], o, Free)
  {
  }

  lemma FrontOk(ws: seq<Slot>, owner: seq<Owner>, lists: Lists, o: Owner)
    requires SlotsInv(ws, owner, lists) && o in lists && o != Free && lists[o] != []
    ensures 1 <= lists[o][0] <= |ws| && owner[lists[o][0] - 1] == o
    ensures ws[lists[o][0] - 1].wlink == Head(lists[o][1..]) && ws[lists[o][0] - 1].ev != 0
  {
    assert ListOk(ws, owner, lists[o], o);
    assert LinkAt(ws, lists[o], 0);
    assert SlotOk(ws, owner, lists, lists[o][0] - 1);
  }

  lemma Release(ws: seq<Slot>, owner: seq<Owner>, lists: Lists, o: Owner)
    requires SlotsInv(ws, owner, lists) && o in lists && Free in lists && o != Free && lists[o] != []
    ensures 1 <= lists[o][0] <= |ws| && ws[lists[o][0] - 1].wlink == Head(lists[o][1..]) && ws[lists[o][0] - 1].ev != 0
    ensures SlotsInv(Released(ws, lists[o][0], lists[Free]), owner[lists[o][0] - 1 := Free], ReleasedLists(lists, o))
    ensures View(Released(ws, lists[o][0], lists[Free]), lists[o][1..]) == View(ws, lists[o])[1..]
    ensures forall p | p in lists && p != o && p != Free ::
              View(Released(ws, lists[o][0], lists[Free]), lists[p]) == View(ws, lists[p])
  {
    var l, free := lists[o], lists[Free];
    var w := l[0];
    FrontOk(ws, owner, lists, o);
    assert ListOk(ws, owner, l, o) && ListOk(ws, owner, free, Free);
    var ws', owner', lists' := Released(ws, w, free), owner[w - 1 := Free], ReleasedLists(lists, o);
    ReleaseFree(ws, owner, free, w);
    ReleaseRest(ws, owner, l, o, free);
    ReleaseUntouched(ws, owner, o, w, free);
    forall v: nat | v < |ws'| && (v >= |ws| || owner[v] == o || owner[v] == Free)
      ensures SlotOk(ws', owner', lists', v)
    {
      ReleaseSlots(ws, owner, lists, o, v);
    }
    Relisted(ws, owner, lists, ws', owner', lists', o, Free);
  }

  // Appending a watch

  /** Slots after a fresh or recycled slot `w` was filled and linked behind the last slot of `l`. */
  function Filled(ws: seq<Slot>, w: nat, ev: nat, mask: Mask): seq<Slot>
    requires 1 <= w <= |ws| + 1
  { if w == |ws| + 1 then ws + [Slot(ev, mask, 0)] else ws[w - 1 := Slot(ev, mask, 0)] }

  function Linked(ws: seq<Slot>, last: nat, w: nat): seq<Slot>
    requires last <= |ws|
  { if last == 0 then ws else ws[last - 1 := ws[last - 1].(wlink := w)] }

  function Taker(owner: seq<Owner>, w: nat, o: Owner): seq<Owner>
    requires 1 <= w <= |owner| + 1
  { if w == |owner| + 1 then owner + [o] else owner[w - 1 := o] }

  /** The slot a new watch goes to: the first free one, or one more. */
  function Spare(ws: seq<Slot>, free: seq<nat>): nat { if free == [] then |ws| + 1 else free[0] }

  function Tail(l: seq<nat>): seq<nat> { if l == [] then [] else l[1..] }

  lemma AppendListAt(ws: seq<Slot>, owner: seq<Owner>, l: seq<nat>, o: Owner, w: nat, ev: nat, mask: Mask, i: nat)
    requires |owner| == |ws| && Chain(ws, l) && 1 <= w <= |ws| + 1 && i < |l| && Last(l) <= |ws|
    requires 1 <= l[i] <= |ws| && owner[l[i] - 1] == o && (w <= |ws| ==> owner[w - 1] != o)
    ensures var ws' := Linked(Filled(ws, w, ev, mask), Last(l), w);
            LinkAt(ws', l + [w], i) && Taker(owner, w, o)[l[i] - 1] == o && ViewAt(ws', l[i]) == ViewAt(ws, l[i])
  {
    assert LinkAt(ws, l, i);
    if i < |l| - 1 {
      ChainAcyclic(ws, l, i, |l| - 1);
    }
  }

  lemma AppendList(ws: seq<Slot>, owner: seq<Owner>, l: seq<nat>, o: Owner, w: nat, ev: nat, mask: Mask)
    requires |owner| == |ws| && ListOk(ws, owner, l, o) && 1 <= w <= |ws| + 1 && (w <= |ws| ==> owner[w - 1] != o)
    requires Last(l) <= |ws| && Last(l) != w
    ensures var ws' := Linked(Filled(ws, w, ev, mask), Last(l), w);
            && ListOk(ws', Taker(owner, w, o), l + [w], o)
            && View(ws', l + [w]) == View(ws, l) + [Watch(ev, mask)]
  {
    OkIsChain(ws, owner, l, o);
    var ws', l', owner' := Linked(Filled(ws, w, ev, mask), Last(l), w), l + [w], Taker(owner, w, o);
    assert LinkAt(ws', l', |l|) && owner'[w - 1] == o && ViewAt(ws', w) == Watch(ev, mask);
    forall i: nat | i < |l|
      ensures LinkAt(ws', l', i) && owner'[l'[i] - 1] == o && ViewAt(ws', l'[i]) == ViewAt(ws, l[i])
    {
      assert LinkAt(ws, l, i);
      AppendListAt(ws, owner, l, o, w, ev, mask, i);
    }
  }

  lemma AppendFreeAt(ws: seq<Slot>, owner: seq<Owner>, free: seq<nat>, o: Owner, last: nat, ev: nat, mask: Mask, i: nat)
    requires |owner| == |ws| && Chain(ws, free) && o != Free && i + 1 < |free|
    requires last <= |ws| && (last > 0 ==> owner[last - 1] == o)
    requires 1 <= free[0] <= |ws| && 1 <= free[i + 1] <= |ws| && owner[free[i + 1] - 1] == Free
    ensures LinkAt(Linked(Filled(ws, free[0], ev, mask), last, free[0]), free[1..], i)
    ensures Taker(owner, free[0], o)[free[i + 1] - 1] == Free
  {
    assert LinkAt(ws, free, i + 1);
    ChainAcyclic(ws, free, 0, i + 1);
  }

  lemma AppendFree(ws: seq<Slot>, owner: seq<Owner>, free: seq<nat>, o: Owner, last: nat, ev: nat, mask: Mask)
    requires |owner| == |ws| && ListOk(ws, owner, free, Free) && o != Free && 1 <= Spare(ws, free) <= |ws| + 1
    requires last <= |ws| && (last > 0 ==> owner[last - 1] == o)
    ensures var w := Spare(ws, free);
            ListOk(Linked(Filled(ws, w, ev, mask), last, w), Taker(owner, w, o), Tail(free), Free)
  {
    if free != [] {
      OkIsChain(ws, owner, free, Free);
      assert LinkAt(ws, free, 0);
      var rest, ws', owner' :=
        free[1..], Linked(Filled(ws, free[0], ev, mask), last, free[0]), Taker(owner, free[0], o);
      forall i: nat | i < |rest| ensures LinkAt(ws', rest, i) && owner'[rest[i] - 1] == Free {
        assert LinkAt(ws, free, i + 1);
        AppendFreeAt(ws, owner, free, o, last, ev, mask, i);
      }
    }
  }

  ghost predicate Spares(ws: seq<Slot>, owner: seq<Owner>, lists: Lists, o: Owner) {
    && |owner| == |ws| && o in lists && Free in lists
    && 1 <= Spare(ws, lists[Free]) <= |ws| + 1 && Last(lists[o]) <= |ws|
    && (lists[Free] != [] ==>
          && Spare(ws, lists[Free]) <= |ws| && owner[lists[Free][0] - 1] == Free
          && ws[lists[Free][0] - 1].wlink == Head(lists[Free][1..]))
    && (Last(lists[o]) > 0 ==> owner[Last(lists[o]) - 1] == o)
  }

  lemma AppendBounds(ws: seq<Slot>, owner: seq<Owner>, lists: Lists, o: Owner)
    requires SlotsInv(ws, owner, lists) && o in lists && Free in lists
    ensures Spares(ws, owner, lists, o)
  {
    var l, free := lists[o], lists[Free];
    assert ListOk(ws, owner, l, o) && ListOk(ws, owner, free, Free);
    if free != [] {
      assert LinkAt(ws, free, 0);
    }
    if l != [] {
      assert LinkAt(ws, l, |l| - 1);
    }
  }

  lemma AppendSlots(ws: seq<Slot>, owner: seq<Owner>, lists: Lists, o: Owner, ev: nat, mask: Mask, v: nat)
    requires Spares(ws, owner, lists, o) && o != Free && ev != 0
    requires v < |ws| ==> SlotOk(ws, owner, lists, v) && (owner[v] == o || owner[v] == Free)
    ensures var w := Spare(ws, lists[Free]);
            var ws' := Linked(Filled(ws, w, ev, mask), Last(lists[o]), w);
            v < |ws'| ==> SlotOk(ws', Taker(owner, w, o), lists[o := lists[o] + [w]][Free := Tail(lists[Free])], v)
  {
    var w := Spare(ws, lists[Free]);
    assert w in lists[o] + [w];
    if v < |ws| && v + 1 != w {
      if owner[v] == o {
        assert v + 1 in lists[o] + [w];
      } else {
        assert lists[Free] == [w] + Tail(lists[Free]);
      }
    }
  }

  lemma AppendUntouched(ws: seq<Slot>, owner: seq<Owner>, lists: Lists, o: Owner, ev: nat, mask: Mask)
    requires Spares(ws, owner, lists, o)
    ensures var w := Spare(ws, lists[Free]);
            var ws' := Linked(Filled(ws, w, ev, mask), Last(lists[o]), w);
            && |ws| <= |ws'| == |Taker(owner, w, o)|
            && Untouched(ws, owner, ws', Taker(owner, w, o), o, Free)
  {
  }

  lemma Append(ws: seq<Slot>, owner: seq<Owner>, lists: Lists, o: Owner, ev: nat, mask: Mask)
    requires SlotsInv(ws, owner, lists) && o in lists && Free in lists && o != Free && ev != 0
    ensures Spares(ws, owner, lists, o)
    ensures var w := Spare(ws, lists[Free]);
            var ws' := Linked(Filled(ws, w, ev, mask), Last(lists[o]), w);
            && SlotsInv(ws', Taker(owner, w, o), lists[o := lists[o] + [w]][Free := Tail(lists[Free])])
            && View(ws', lists[o] + [w]) == View(ws, lists[o]) + [Watch(ev, mask)]
            && forall p | p in lists && p != o && p != Free :: View(ws', lists[p]) == View(ws, lists[p])
  {
    var l, free := lists[o], lists[Free];
    assert ListOk(ws, owner, l, o) && ListOk(ws, owner, free, Free);
    AppendBounds(ws, owner, lists, o);
    var w := Spare(ws, free);
    AppendList(ws, owner, l, o, w, ev, mask);
    AppendFree(ws, owner, free, o, Last(l), ev, mask);
    var ws', owner' := Linked(Filled(ws, w, ev, mask), Last(l), w), Taker(owner, w, o);
    var lists' := lists[o := l + [w]][Free := Tail(free)];
    AppendSlotsAll(ws, owner, lists, o, ev, mask);
    AppendUntouched(ws, owner, lists, o, ev, mask);
    Relisted(ws, owner, lists, ws', owner', lists', o, Free);
  }

  lemma AppendSlotsAll(ws: seq<Slot>, owner: seq<Owner>, lists: Lists, o: Owner, ev: nat, mask: Mask)
    requires SlotsInv(ws, owner, lists) && Spares(ws, owner, lists, o) && o != Free && ev != 0
    ensures var w := Spare(ws, lists[Free]);
            var ws' := Linked(Filled(ws, w, ev, mask), Last(lists[o]), w);
            var lists' := lists[o := lists[o] + [w]][Free := Tail(lists[Free])];
            forall v: nat | v < |ws'| && (v >= |ws| || owner[v] == o || owner[v] == Free) ::
              SlotOk(ws', Taker(owner, w, o), lists', v)
  {
    var w := Spare(ws, lists[Free]);
    var ws', owner' := Linked(Filled(ws, w, ev, mask), Last(lists[o]), w), Taker(owner, w, o);
    var lists' := lists[o := lists[o] + [w]][Free := Tail(lists[Free])];
    forall v: nat | v < |ws'| && (v >= |ws| || owner[v] == o || owner[v] == Free)
      ensures SlotOk(ws', owner', lists', v)
    {
      assert v < |ws| ==> SlotOk(ws, owner, lists, v);
      AppendSlots(ws, owner, lists, o, ev, mask, v);
    }
  }

  // Splitting a list in two

  /** A watch to be delivered: its mask meets `imask`, or nobody listens to its event any more. */
  predicate Wanted(v: Watch, imask: Mask, gone: set<nat>) { imask & v.mask != 0 || v.ev in gone }

  function Picked(ws: seq<Slot>, l: seq<nat>, imask: Mask, gone: set<nat>, want: bool): seq<nat> {
    if l == [] then []
    else
      var rest, x := Picked(ws, l[..|l| - 1], imask, gone, want), l[|l| - 1];
      if Wanted(ViewAt(ws, x), imask, gone) == want then rest + [x] else rest
  }

  /** The watches that are wanted, or those that are not, in order. */
  function Filter(vs: seq<Watch>, imask: Mask, gone: set<nat>, want: bool): seq<Watch> {
    if vs == [] then []
    else
      var rest, v := Filter(vs[..|vs| - 1], imask, gone, want), vs[|vs| - 1];
      if Wanted(v, imask, gone) == want then rest + [v] else rest
  }

  /** Splitting loses and repeats nothing, and separates wanted from unwanted. */
  lemma FilterPartitions(vs: seq<Watch>, imask: Mask, gone: set<nat>)
    ensures multiset(Filter(vs, imask, gone, true)) + multiset(Filter(vs, imask, gone, false)) == multiset(vs)
    ensures forall v | v in Filter(vs, imask, gone, true) :: imask & v.mask != 0 || v.ev in gone
    ensures forall v | v in Filter(vs, imask, gone, false) :: imask & v.mask == 0 && v.ev !in gone
  {
    FilterSplits(vs, imask, gone);
  }

  lemma {:induction false} FilterSplits(vs: seq<Watch>, imask: Mask, gone: set<nat>)
    ensures multiset(Filter(vs, imask, gone, true)) + multiset(Filter(vs, imask, gone, false)) == multiset(vs)
    ensures forall v | v in Filter(vs, imask, gone, true) :: Wanted(v, imask, gone)
    ensures forall v | v in Filter(vs, imask, gone, false) :: !Wanted(v, imask, gone)
  {
    if vs != [] {
      FilterSplits(vs[..|vs| - 1], imask, gone);
      assert vs == vs[..|vs| - 1] + [vs[|vs| - 1]];
    }
  }

  /** Splitting keeps the order: each half is the list at rising positions. */
  lemma {:induction false} FilterInOrder(vs: seq<Watch>, imask: Mask, gone: set<nat>, want: bool)
    returns (at: seq<nat>)
    ensures |at| == |Filter(vs, imask, gone, want)|
    ensures forall k | 0 <= k < |at| :: at[k] < |vs| && Filter(vs, imask, gone, want)[k] == vs[at[k]]
    ensures forall j, k | 0 <= j < k < |at| :: at[j] < at[k]
  {
    at := [];
    if vs != [] {
      at := FilterInOrder(vs[..|vs| - 1], imask, gone, want);
      if Wanted(vs[|vs| - 1], imask, gone) == want {
        at := at + [|vs| - 1];
      }
    }
  }

  lemma {:induction false} PickedView(ws: seq<Slot>, l: seq<nat>, imask: Mask, gone: set<nat>, want: bool)
    ensures View(ws, Picked(ws, l, imask, gone, want)) == Filter(View(ws, l), imask, gone, want)
  {
    if l != [] {
      PickedView(ws, l[..|l| - 1], imask, gone, want);
      assert View(ws, l)[..|l| - 1] == View(ws, l[..|l| - 1]);
    }
  }

  ghost predicate Distinct(l: seq<nat>) { forall i, j | 0 <= i < j < |l| :: l[i] != l[j] }

  lemma {:induction false} PickedMeans(ws: seq<Slot>, l: seq<nat>, imask: Mask, gone: set<nat>, want: bool)
    requires Distinct(l)
    ensures Distinct(Picked(ws, l, imask, gone, want))
    ensures forall x :: x in Picked(ws, l, imask, gone, want) <==> x in l && Wanted(ViewAt(ws, x), imask, gone) == want
  {
    if l != [] {
      PickedMeans(ws, l[..|l| - 1], imask, gone, want);
      assert l == l[..|l| - 1] + [l[|l| - 1]];
    }
  }

  /** Linked up to its last slot, whose link does not matter. */
  ghost predicate OpenChain(ws: seq<Slot>, l: seq<nat>) {
    && (forall i | 0 <= i < |l| :: 1 <= l[i] <= |ws|)
    && (forall i | 0 <= i < |l| - 1 :: ws[l[i] - 1].wlink == l[i + 1])
  }

  lemma OpenGrows(ws: seq<Slot>, l: seq<nat>, x: nat)
    requires OpenChain(ws, l) && Distinct(l) && 1 <= x <= |ws|
    ensures Last(l) <= |ws|
    ensures OpenChain(Linked(ws, Last(l), x), l + [x])
  {
  }

  lemma OpenCloses(ws: seq<Slot>, l: seq<nat>)
    requires OpenChain(ws, l) && Distinct(l)
    ensures Last(l) <= |ws|
    ensures Chain(Linked(ws, Last(l), 0), l)
  {
    forall i: nat | i < |l| ensures LinkAt(Linked(ws, Last(l), 0), l, i) {
    }
  }

  lemma OpenKept(ws: seq<Slot>, l: seq<nat>, last: nat, x: nat)
    requires OpenChain(ws, l) && last <= |ws| && last !in l
    ensures OpenChain(Linked(ws, last, x), l)
  {
  }

  lemma ChainKept(ws: seq<Slot>, l: seq<nat>, last: nat, x: nat)
    requires Chain(ws, l) && last <= |ws| && last !in l
    ensures Chain(Linked(ws, last, x), l)
  {
    forall i: nat | i < |l| ensures LinkAt(Linked(ws, last, x), l, i) {
      assert LinkAt(ws, l, i);
      assert l[i] in l;
    }
  }

  /** Where the walk over `l` stands before its `i`th slot: what it has seen is on two open chains,
      and what it has not seen is as it was. */
  ghost predicate Walking(ws0: seq<Slot>, ws: seq<Slot>, l: seq<nat>, i: nat, taken: seq<nat>, kept: seq<nat>)
    requires i <= |l|
  {
    |ws| == |ws0| && OpenChain(ws, taken) && OpenChain(ws, kept) && SameOff(ws0, ws, l[..i])
  }

  /** Only links of slots on `l` differ. */
  ghost predicate SameOff(ws0: seq<Slot>, ws: seq<Slot>, l: seq<nat>)
    requires |ws| == |ws0|
  {
    && (forall v | 0 <= v < |ws| :: ws[v].ev == ws0[v].ev && ws[v].mask == ws0[v].mask)
    && (forall v | 0 <= v < |ws| && v + 1 !in l :: ws[v] == ws0[v])
  }

  lemma {:induction false} ChainDistinct(ws: seq<Slot>, l: seq<nat>)
    requires Chain(ws, l)
    ensures Distinct(l)
  {
    forall i, j | 0 <= i < j < |l| ensures l[i] != l[j] {
      ChainAcyclic(ws, l, i, j);
    }
  }

  lemma LastIn(l: seq<nat>)
    ensures l != [] ==> Last(l) in l
    ensures 0 !in l ==> (Last(l) == 0 <==> l == [])
  {
  }

  lemma SeenGrows(l: seq<nat>, i: nat)
    requires i < |l|
    ensures l[..i + 1] == l[..i] + [l[i]]
    ensures forall x :: x in l[..i + 1] <==> x in l[..i] || x == l[i]
    ensures Distinct(l) ==> l[i] !in l[..i] && Distinct(l[..i])
  {
  }

  lemma WalkLinks(ws0: seq<Slot>, ws: seq<Slot>, l: seq<nat>, i: nat, mine: seq<nat>, other: seq<nat>)
    requires i < |l| && 1 <= l[i] <= |ws| && Distinct(mine)
    requires Walking(ws0, ws, l, i, mine, other)
    requires mine != [] ==> Last(mine) in l[..i] && Last(mine) !in other
    ensures Last(mine) <= |ws|
    ensures Walking(ws0, Linked(ws, Last(mine), l[i]), l, i + 1, mine + [l[i]], other)
  {
    OpenGrows(ws, mine, l[i]);
    if mine != [] {
      OpenKept(ws, other, Last(mine), l[i]);
    }
    SeenGrows(l, i);
  }

  /** One step of the walk: the slot goes to the end of the chain it belongs to. */
  lemma WalkStep(ws0: seq<Slot>, ws: seq<Slot>, l: seq<nat>, i: nat, imask: Mask, gone: set<nat>, want: bool)
    requires i < |l| && Chain(ws0, l)
    requires Walking(ws0, ws, l, i, Picked(ws0, l[..i], imask, gone, true), Picked(ws0, l[..i], imask, gone, false))
    requires Wanted(ViewAt(ws0, l[i]), imask, gone) == want
    ensures ViewAt(ws, l[i]) == ViewAt(ws0, l[i]) && 1 <= l[i] <= |ws| && ws[l[i] - 1] == ws0[l[i] - 1]
    ensures var last := Last(Picked(ws0, l[..i], imask, gone, want));
            && last <= |ws|
            && Walking(ws0, Linked(ws, last, l[i]), l, i + 1,
                       Picked(ws0, l[..i + 1], imask, gone, true), Picked(ws0, l[..i + 1], imask, gone, false))
            && Picked(ws0, l[..i + 1], imask, gone, want) == Picked(ws0, l[..i], imask, gone, want) + [l[i]]
            && Picked(ws0, l[..i + 1], imask, gone, !want) == Picked(ws0, l[..i], imask, gone, !want)
  {
    ChainDistinct(ws0, l);
    assert LinkAt(ws0, l, i);
    SeenGrows(l, i);
    var mine, other := Picked(ws0, l[..i], imask, gone, want), Picked(ws0, l[..i], imask, gone, !want);
    PickedMeans(ws0, l[..i], imask, gone, want);
    PickedMeans(ws0, l[..i], imask, gone, !want);
    LastIn(mine);
    WalkLinks(ws0, ws, l, i, mine, other);
    assert l[..i + 1][..i] == l[..i];
  }

  /** Both chains ended: the slots after the walk. */
  ghost predicate Walked(ws0: seq<Slot>, ws: seq<Slot>, l: seq<nat>, taken: seq<nat>, kept: seq<nat>) {
    |ws| == |ws0| && Chain(ws, taken) && Chain(ws, kept) && SameOff(ws0, ws, l)
  }

  /** `taken` and `kept` share out the slots of `l`. */
  ghost predicate Parts(l: seq<nat>, taken: seq<nat>, kept: seq<nat>) {
    && Distinct(taken) && Distinct(kept)
    && (forall x | x in taken :: x in l && x !in kept)
    && (forall x | x in kept :: x in l)
    && (forall x | x in l :: x in taken || x in kept)
  }

  lemma PickedParts(ws: seq<Slot>, l: seq<nat>, imask: Mask, gone: set<nat>)
    requires Chain(ws, l)
    ensures Parts(l, Picked(ws, l, imask, gone, true), Picked(ws, l, imask, gone, false))
  {
    ChainDistinct(ws, l);
    PickedMeans(ws, l, imask, gone, true);
    PickedMeans(ws, l, imask, gone, false);
  }

  lemma CloseTaken(ws: seq<Slot>, l: seq<nat>, taken: seq<nat>, kept: seq<nat>)
    requires OpenChain(ws, taken) && OpenChain(ws, kept) && Parts(l, taken, kept)
    ensures Last(taken) <= |ws|
    ensures Chain(Linked(ws, Last(taken), 0), taken) && OpenChain(Linked(ws, Last(taken), 0), kept)
  {
    LastIn(taken);
    OpenCloses(ws, taken);
    if taken != [] {
      OpenKept(ws, kept, Last(taken), 0);
    }
  }

  lemma CloseKept(ws: seq<Slot>, l: seq<nat>, taken: seq<nat>, kept: seq<nat>)
    requires Chain(ws, taken) && OpenChain(ws, kept) && Parts(l, taken, kept)
    ensures Last(kept) <= |ws|
    ensures Chain(Linked(ws, Last(kept), 0), taken) && Chain(Linked(ws, Last(kept), 0), kept)
  {
    LastIn(kept);
    OpenCloses(ws, kept);
    if kept != [] {
      ChainKept(ws, taken, Last(kept), 0);
    }
  }

  /** Ending a chain changes one slot of it, and no event. */
  lemma LinkedKeeps(ws0: seq<Slot>, ws: seq<Slot>, l: seq<nat>, last: nat)
    requires |ws| == |ws0| && last <= |ws| && (last > 0 ==> last in l) && SameOff(ws0, ws, l)
    ensures SameOff(ws0, Linked(ws, last, 0), l)
  {
  }

  lemma WalkEnds(ws0: seq<Slot>, ws: seq<Slot>, l: seq<nat>, taken: seq<nat>, kept: seq<nat>)
    requires Walking(ws0, ws, l, |l|, taken, kept) && Parts(l, taken, kept)
    ensures Last(taken) <= |ws| && Last(kept) <= |ws|
    ensures Walked(ws0, Linked(Linked(ws, Last(taken), 0), Last(kept), 0), l, taken, kept)
  {
    assert l[..|l|] == l;
    LastIn(taken);
    LastIn(kept);
    CloseTaken(ws, l, taken, kept);
    LinkedKeeps(ws0, ws, l, Last(taken));
    var ws1 := Linked(ws, Last(taken), 0);
    CloseKept(ws1, l, taken, kept);
    LinkedKeeps(ws0, ws1, l, Last(kept));
  }

  function Reowned(owner: seq<Owner>, taken: seq<nat>, o: Owner): seq<Owner> {
    seq(|owner|, v requires 0 <= v < |owner| => if v + 1 in taken then o else owner[v])
  }

  ghost predicate OwnedBy(owner: seq<Owner>, x: nat, o: Owner) { 1 <= x <= |owner| && owner[x - 1] == o }

  ghost predicate OwnedAll(owner: seq<Owner>, l: seq<nat>, o: Owner) {
    forall x {:trigger OwnedBy(owner, x, o)} | x in l :: OwnedBy(owner, x, o)
  }

  lemma ReownedBy(owner: seq<Owner>, taken: seq<nat>, t: Owner, o: Owner, x: nat)
    requires OwnedBy(owner, x, o)
    ensures OwnedBy(Reowned(owner, taken, t), x, if x in taken then t else o)
  {
  }

  lemma {:induction false} WalkedList(
    ws0: seq<Slot>, ws: seq<Slot>, l: seq<nat>, taken: seq<nat>, kept: seq<nat>, mine: seq<nat>, owner: seq<Owner>,
    o: Owner, a: Owner)
    requires Walked(ws0, ws, l, taken, kept) && |owner| == |ws| && Chain(ws, mine)
    requires OwnedAll(Reowned(owner, taken, o), mine, a)
    ensures ListOk(ws, Reowned(owner, taken, o), mine, a) && View(ws, mine) == View(ws0, mine)
  {
    forall i: nat | i < |mine|
      ensures LinkAt(ws, mine, i) && Reowned(owner, taken, o)[mine[i] - 1] == a
                && ViewAt(ws, mine[i]) == ViewAt(ws0, mine[i])
    {
      assert OwnedBy(Reowned(owner, taken, o), mine[i], a);
    }
  }

  lemma SplitSlots(
    ws: seq<Slot>, ws': seq<Slot>, owner: seq<Owner>, lists: Lists, o: Owner, t: Owner, l: seq<nat>, taken: seq<nat>,
    kept: seq<nat>, v: nat)
    requires |owner| == |ws| && o in lists && lists[o] == l && Walked(ws, ws', l, taken, kept) && o != Free && t != Free
    requires o != t
    requires v < |ws| && SlotOk(ws, owner, lists, v) && owner[v] == o
    requires forall x | x in l :: x in taken <==> x !in kept
    ensures SlotOk(ws', Reowned(owner, taken, t), lists[o := kept][t := taken], v)
  {
  }

  lemma OwnedSlots(ws: seq<Slot>, owner: seq<Owner>, lists: Lists, o: Owner)
    requires SlotsInv(ws, owner, lists) && o in lists
    ensures forall x | x in lists[o] :: 1 <= x <= |ws| && owner[x - 1] == o
    ensures forall v: nat | v < |ws| :: owner[v] in lists
  {
    var l := lists[o];
    assert ListOk(ws, owner, l, o);
    forall x | x in l ensures 1 <= x <= |ws| && owner[x - 1] == o {
      var i: nat :| i < |l| && l[i] == x;
      assert LinkAt(ws, l, i);
    }
    forall v: nat | v < |ws| ensures owner[v] in lists {
      assert SlotOk(ws, owner, lists, v);
    }
  }

  lemma WalkedUntouched(
    ws: seq<Slot>, ws': seq<Slot>, owner: seq<Owner>, o: Owner, t: Owner, l: seq<nat>, taken: seq<nat>, kept: seq<nat>)
    requires Walked(ws, ws', l, taken, kept) && Parts(l, taken, kept) && |owner| == |ws|
    requires forall x | x in l :: 1 <= x <= |ws| && owner[x - 1] == o
    ensures Untouched(ws, owner, ws', Reowned(owner, taken, t), o, t)
  {
    var owner' := Reowned(owner, taken, t);
    forall w: nat | w < |ws| && owner[w] != o && owner[w] != t ensures ws'[w] == ws[w] && owner'[w] == owner[w] {
      assert w + 1 !in l;
    }
  }

  /** Both new lists are in order, and slots off the old one are untouched. */
  lemma SplitWalked(
    ws: seq<Slot>, ws': seq<Slot>, owner: seq<Owner>, lists: Lists, o: Owner, t: Owner, taken: seq<nat>,
    kept: seq<nat>)
    requires SlotsInv(ws, owner, lists) && o in lists && t !in lists
    requires Walked(ws, ws', lists[o], taken, kept) && Parts(lists[o], taken, kept)
    ensures ListOk(ws', Reowned(owner, taken, t), taken, t) && ListOk(ws', Reowned(owner, taken, t), kept, o)
    ensures View(ws', taken) == View(ws, taken) && View(ws', kept) == View(ws, kept)
    ensures Untouched(ws, owner, ws', Reowned(owner, taken, t), o, t)
  {
    var l := lists[o];
    OwnedSlots(ws, owner, lists, o);
    forall x | x in l ensures OwnedBy(Reowned(owner, taken, t), x, if x in taken then t else o) {
      ReownedBy(owner, taken, t, o, x);
    }
    WalkedList(ws, ws', l, taken, kept, taken, owner, t, t);
    WalkedList(ws, ws', l, taken, kept, kept, owner, t, o);
    WalkedUntouched(ws, ws', owner, o, t, l, taken, kept);
  }

  lemma SplitParts(
    ws: seq<Slot>, ws': seq<Slot>, owner: seq<Owner>, lists: Lists, o: Owner, t: Owner, taken: seq<nat>,
    kept: seq<nat>)
    requires SlotsInv(ws, owner, lists) && o in lists && t !in lists && o != Free && t != Free
    requires Walked(ws, ws', lists[o], taken, kept) && Parts(lists[o], taken, kept)
    ensures SlotsInv(ws', Reowned(owner, taken, t), lists[o := kept][t := taken])
    ensures View(ws', taken) == View(ws, taken) && View(ws', kept) == View(ws, kept)
    ensures forall p | p in lists && p != o :: View(ws', lists[p]) == View(ws, lists[p])
  {
    SplitWalked(ws, ws', owner, lists, o, t, taken, kept);
    SplitSlotsAll(ws, ws', owner, lists, o, t, taken, kept);
    Relisted(ws, owner, lists, ws', Reowned(owner, taken, t), lists[o := kept][t := taken], o, t);
  }

  lemma SplitSlotsAll(
    ws: seq<Slot>, ws': seq<Slot>, owner: seq<Owner>, lists: Lists, o: Owner, t: Owner, taken: seq<nat>,
    kept: seq<nat>)
    requires SlotsInv(ws, owner, lists) && o in lists && t !in lists && o != Free && t != Free
    requires Walked(ws, ws', lists[o], taken, kept) && Parts(lists[o], taken, kept)
    ensures forall v: nat | v < |ws'| && (v >= |ws| || owner[v] == o || owner[v] == t) ::
              SlotOk(ws', Reowned(owner, taken, t), lists[o := kept][t := taken], v)
  {
    var owner', lists' := Reowned(owner, taken, t), lists[o := kept][t := taken];
    forall v: nat | v < |ws'| && (v >= |ws| || owner[v] == o || owner[v] == t) ensures SlotOk(ws', owner', lists', v) {
      assert SlotOk(ws, owner, lists, v);
      SplitSlots(ws, ws', owner, lists, o, t, lists[o], taken, kept, v);
    }
  }

  /** Splitting a watch list is a stable partition, and every slot stays on exactly one list. */
  lemma Split(
    ws: seq<Slot>, ws': seq<Slot>, owner: seq<Owner>, lists: Lists, o: Owner, t: Owner, imask: Mask, gone: set<nat>)
    requires SlotsInv(ws, owner, lists) && o in lists && t !in lists && o != Free && t != Free
    requires Walked(ws, ws', lists[o], Picked(ws, lists[o], imask, gone, true),
               Picked(ws, lists[o], imask, gone, false))
    ensures var taken, kept := Picked(ws, lists[o], imask, gone, true), Picked(ws, lists[o], imask, gone, false);
            && SlotsInv(ws', Reowned(owner, taken, t), lists[o := kept][t := taken])
            && View(ws', taken) == Filter(View(ws, lists[o]), imask, gone, true)
            && View(ws', kept) == Filter(View(ws, lists[o]), imask, gone, false)
    ensures forall p | p in lists && p != o :: View(ws', lists[p]) == View(ws, lists[p])
  {
    var l, taken, kept := lists[o], Picked(ws, lists[o], imask, gone, true), Picked(ws, lists[o], imask, gone, false);
    assert ListOk(ws, owner, l, o);
    OkIsChain(ws, owner, l, o);
    PickedParts(ws, l, imask, gone);
    PickedView(ws, l, imask, gone, true);
    PickedView(ws, l, imask, gone, false);
    SplitParts(ws, ws', owner, lists, o, t, taken, kept);
  }

  lemma AddEmpty(ws: seq<Slot>, owner: seq<Owner>, lists: Lists, o: Owner)
    requires SlotsInv(ws, owner, lists) && o !in lists
    ensures SlotsInv(ws, owner, lists[o := []])
  {
    var lists' := lists[o := []];
    forall w: nat | w < |ws| ensures SlotOk(ws, owner, lists', w) {
      assert SlotOk(ws, owner, lists, w);
    }
  }

  // The mask of a list

  /** What the live watches of a list wait for. */
  function LiveMask(vs: seq<Watch>, gone: set<nat>): Mask {
    if vs == [] then 0
    else
      var rest, v := LiveMask(vs[..|vs| - 1], gone), vs[|vs| - 1];
      if v.ev != 0 && v.ev !in gone then rest | v.mask else rest
  }

  lemma LiveMaskNext(ws: seq<Slot>, l: seq<nat>, i: nat, gone: set<nat>)
    requires i < |l| && 1 <= l[i] <= |ws|
    ensures var rest, v := LiveMask(View(ws, l)[..i], gone), ws[l[i] - 1];
            LiveMask(View(ws, l)[..i + 1], gone) == if v.ev != 0 && v.ev !in gone then rest | v.mask else rest
  {
    assert View(ws, l)[..i + 1][..i] == View(ws, l)[..i];
  }

  ghost predicate CoversAt(entry: Mask, v: Watch, gone: set<nat>) {
    v.ev == 0 || v.ev in gone || v.mask & entry == v.mask
  }

  /** Every live watch waits only for what `entry` includes. */
  ghost predicate Covers(entry: Mask, vs: seq<Watch>, gone: set<nat>) {
    forall i | 0 <= i < |vs| :: CoversAt(entry, vs[i], gone)
  }

  /** The computed mask covers every live watch, and is no larger than it has to be. */
  lemma {:induction false} LiveMaskCovers(vs: seq<Watch>, gone: set<nat>, entry: Mask)
    ensures Covers(entry, vs, gone) <==> LiveMask(vs, gone) & entry == LiveMask(vs, gone)
  {
    if vs != [] {
      var n := |vs| - 1;
      LiveMaskCovers(vs[..n], gone, entry);
      OrCovered(LiveMask(vs[..n], gone), vs[n].mask, entry);
      assert Covers(entry, vs, gone) <==> Covers(entry, vs[..n], gone) && CoversAt(entry, vs[n], gone);
    }
  }

  lemma OrCovered(a: Mask, b: Mask, e: Mask)
    ensures (a | b) & e == (a | b) <==> a & e == a && b & e == b
  {
  }
}