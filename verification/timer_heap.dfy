/** The driver's timers: a d-ary heap in a growing array, from which any element can be removed. */
module TimerHeap {
  import opened Basics
  import opened CircularInt
  import opened HeapOrder

  /** A timer for time `when`; `order` is the stamp that breaks ties. */
  datatype Element = Element(when: int, order: Word, value: nat)

  /** `element::operator<`. */
  predicate Before(x: Element, y: Element) {
    x.when < y.when || (x.when == y.when && Less(x.order, y.order))
  }

  /** Position in time, then in order of insertion. */
  ghost function Rank(e: Element, now: Word): int { e.when * 0x1_0000_0000 - Age(e.order, now) }

  ghost function Ranks(s: seq<Element>, now: Word): seq<int> { seq(|s|, i requires 0 <= i < |s| => Rank(s[i], now)) }

  /** The stamps in use lie less than half the range behind the last one given out. */
  ghost predicate Fits(m: multiset<Element>, now: Word) {
    forall e {:trigger FitsAt(e, now)} | e in m :: FitsAt(e, now)
  }

  ghost predicate FitsAt(e: Element, now: Word) { Age(e.order, now) < HALF }

  lemma BeforeIsRank(x: Element, y: Element, now: Word)
    requires FitsAt(x, now) && FitsAt(y, now)
    ensures Before(x, y) <==> Rank(x, now) < Rank(y, now)
  {
    LessIsOlder(x.order, y.order, now);
  }

  lemma SwappedKeeps(s: seq<Element>, i: nat, j: nat, now: Word)
    requires i < |s| && j < |s|
    ensures multiset(Swapped(s, i, j)) == multiset(s)
    ensures Ranks(Swapped(s, i, j), now) == Swapped(Ranks(s, now), i, j)
  {
  }

  /** The sequence without the element at `pos`, the last one moved into its place. */
  function LastMoved(s: seq<Element>, pos: nat): seq<Element>
    requires pos < |s|
  { if pos == |s| - 1 then s[..|s| - 1] else s[..|s| - 1][pos := s[|s| - 1]] }

  lemma MovedLast(s: seq<Element>, pos: nat)
    requires pos < |s|
    ensures multiset(s) == multiset(LastMoved(s, pos)) + multiset{s[pos]}
  {
    assert s == s[..|s| - 1] + [s[|s| - 1]];
  }

  lemma LastMovedFits(s: seq<Element>, now: Word, pos: nat)
    requires pos < |s| && Fits(multiset(s), now)
    ensures Fits(multiset(LastMoved(s, pos)), now)
  {
    MovedLast(s, pos);
  }

  lemma LastMovedRanks(s: seq<Element>, now: Word, pos: nat)
    requires pos < |s| - 1
    ensures Ranks(LastMoved(s, pos), now) == Ranks(s, now)[..|s| - 1][pos := Ranks(s, now)[|s| - 1]]
  {
  }

  lemma ReplacedByLast(s: seq<Element>, d: nat, now: Word, pos: nat)
    requires d >= 2 && pos < |s| && Fits(multiset(s), now) && Heap(Ranks(s, now), d)
    ensures pos == |s| - 1 ==> Heap(Ranks(LastMoved(s, pos), now), d)
    ensures pos < |s| - 1 ==> Misplaced(Ranks(LastMoved(s, pos), now), d, pos)
    ensures Fits(multiset(LastMoved(s, pos)), now)
  {
    LastMovedFits(s, now, pos);
    var n := |s| - 1;
    var t := LastMoved(s, pos);
    if pos == n {
      Shortened(Ranks(s, now), d, n);
      assert Ranks(t, now) == Ranks(s, now)[..n];
    } else {
      LastKeyMoved(Ranks(s, now), d, pos);
      LastMovedRanks(s, now, pos);
    }
  }

  // Insertion numbers

  /** Timers by the number of their insertion. */
  type Births = map<Element, nat>

  /** `log` lists all insertions. Each timer in `m` is there once, is the insertion that `birth` says, has
      the stamp of that number, and is among the last 2^31 before `count`. */
  ghost predicate Tracked(m: multiset<Element>, birth: Births, log: seq<Element>, count: nat) {
    forall e {:trigger TrackedAt(m, e, birth, log, count)} | e in m :: TrackedAt(m, e, birth, log, count)
  }

  ghost predicate TrackedAt(m: multiset<Element>, e: Element, birth: Births, log: seq<Element>, count: nat) {
    && m[e] == 1 && e in birth && birth[e] < |log| && log[birth[e]] == e
    && e.order == StampOf(birth[e] + 1) && count - HALF <= birth[e]
  }

  /** `e` has an earlier deadline than `f`, or the same deadline and was inserted earlier. */
  ghost predicate Sooner(e: Element, f: Element, birth: Births) {
    e in birth && f in birth && (e.when < f.when || (e.when == f.when && birth[e] < birth[f]))
  }

  ghost predicate Earliest(e: Element, m: multiset<Element>, birth: Births) {
    forall f {:trigger Sooner(e, f, birth)} | f in m :: Sooner(e, f, birth)
  }

  ghost predicate InOrder(s: seq<Element>, birth: Births) {
    forall i, j {:trigger Sooner(s[i], s[j], birth)} | 0 <= i < j < |s| :: Sooner(s[i], s[j], birth)
  }

  ghost predicate AllBefore(s: seq<Element>, m: multiset<Element>, birth: Births) {
    forall i {:trigger Earliest(s[i], m, birth)} | 0 <= i < |s| :: Earliest(s[i], m, birth)
  }

  /** `after` lacks only timers that are empty. */
  ghost predicate OnlyDeadGone(before: multiset<Element>, after: multiset<Element>, dead: set<nat>) {
    forall e {:trigger KeptAt(before, after, dead, e)} :: KeptAt(before, after, dead, e)
  }

  ghost predicate KeptAt(before: multiset<Element>, after: multiset<Element>, dead: set<nat>, e: Element) {
    after[e] <= before[e] && (e.value !in dead ==> after[e] == before[e])
  }

  lemma DeadGoneTracked(
    m: multiset<Element>, n: multiset<Element>, dead: set<nat>, birth: Births, log: seq<Element>, count: nat)
    requires OnlyDeadGone(m, n, dead) && Tracked(m, birth, log, count)
    ensures Tracked(n, birth, log, count)
  {
    forall e | e in n ensures TrackedAt(n, e, birth, log, count) {
      assert KeptAt(m, n, dead, e);
      assert TrackedAt(m, e, birth, log, count);
    }
  }

  lemma DeadGoneChains(a: multiset<Element>, b: multiset<Element>, c: multiset<Element>, dead: set<nat>)
    requires OnlyDeadGone(a, b, dead) && OnlyDeadGone(b, c, dead)
    ensures OnlyDeadGone(a, c, dead)
  {
    forall e ensures KeptAt(a, c, dead, e) {
      assert KeptAt(a, b, dead, e) && KeptAt(b, c, dead, e);
    }
  }

  ghost predicate AllLater(m: multiset<Element>, now: int) {
    forall e {:trigger Later(e, now)} | e in m :: Later(e, now)
  }

  ghost predicate Later(e: Element, now: int) { e.when > now }

  /** Recent insertion numbers are ages in disguise. */
  lemma AgeIsNumber(e: Element, m: multiset<Element>, birth: Births, log: seq<Element>)
    requires Tracked(m, birth, log, |log|) && e in m
    ensures e in birth && birth[e] < |log| && log[birth[e]] == e
    ensures Age(e.order, StampOf(|log|)) == |log| - 1 - birth[e] < HALF
  {
    assert TrackedAt(m, e, birth, log, |log|);
    StampsApart(birth[e] + 1, |log|);
  }

  lemma TrackedFits(m: multiset<Element>, birth: Births, log: seq<Element>)
    requires Tracked(m, birth, log, |log|)
    ensures Fits(m, StampOf(|log|))
  {
    forall e | e in m ensures FitsAt(e, StampOf(|log|)) {
      AgeIsNumber(e, m, birth, log);
    }
  }

  lemma SubTracked(m: multiset<Element>, n: multiset<Element>, birth: Births, log: seq<Element>, count: nat)
    requires Tracked(m, birth, log, count) && n <= m
    ensures Tracked(n, birth, log, count)
  {
    forall e | e in n ensures TrackedAt(n, e, birth, log, count) {
      assert e in m && TrackedAt(m, e, birth, log, count) && n[e] <= m[e];
    }
  }

  lemma TopIsEarliest(s: seq<Element>, d: nat, birth: Births, log: seq<Element>)
    requires d >= 2 && s != [] && Heap(Ranks(s, StampOf(|log|)), d) && Tracked(multiset(s), birth, log, |log|)
    ensures Earliest(s[0], multiset(s) - multiset{s[0]}, birth)
  {
    var m, now := multiset(s), StampOf(|log|);
    InItems(s, 0);
    assert TrackedAt(m, s[0], birth, log, |log|);
    forall f | f in m - multiset{s[0]} ensures Sooner(s[0], f, birth) {
      assert f in m && f != s[0];
      var i: nat :| i < |s| && s[i] == f;
      RootIsLeast(Ranks(s, now), d, i);
      AgeIsNumber(s[0], m, birth, log);
      AgeIsNumber(f, m, birth, log);
    }
  }

  lemma NoneDue(s: seq<Element>, d: nat, birth: Births, log: seq<Element>, t: int)
    requires d >= 2 && Heap(Ranks(s, StampOf(|log|)), d) && Tracked(multiset(s), birth, log, |log|)
    requires s != [] ==> s[0].when > t
    ensures AllLater(multiset(s), t)
  {
    if s != [] {
      TopIsEarliest(s, d, birth, log);
      forall e | e in multiset(s) ensures Later(e, t) {
        if e != s[0] {
          assert e in multiset(s) - multiset{s[0]};
          assert Sooner(s[0], e, birth);
        }
      }
    }
  }

  /** The next insertion gets a number and a stamp of its own. */
  lemma TrackNext(m: multiset<Element>, birth: Births, log: seq<Element>, e: Element)
    requires Tracked(m, birth, log, |log| + 1) && e.order == StampOf(|log| + 1)
    ensures Tracked(m + multiset{e}, birth[e := |log|], log + [e], |log + [e]|)
  {
    var m', birth', log' := m + multiset{e}, birth[e := |log|], log + [e];
    forall f | f in m ensures f != e {
      assert TrackedAt(m, f, birth, log, |log| + 1);
      StampsApart(birth[f] + 1, |log| + 1);
      StampsApart(|log| + 1, |log| + 1);
    }
    forall f | f in m' ensures TrackedAt(m', f, birth', log', |log'|) {
      assert f != e ==> f in m && TrackedAt(m, f, birth, log, |log| + 1);
    }
  }

  ghost predicate AgesAt(e: Element, now: Word) { Age(e.order, Next(now)) == Age(e.order, now) + 1 }

  /** Ageing all stamps keeps their order. */
  lemma RanksAge(s: seq<Element>, d: nat, now: Word)
    requires d >= 2 && Heap(Ranks(s, now), d)
    requires forall e {:trigger AgesAt(e, now)} | e in multiset(s) :: AgesAt(e, now)
    ensures Heap(Ranks(s, Next(now)), d)
  {
    var ks, us := Ranks(s, now), Ranks(s, Next(now));
    HeapMeans(ks, d);
    HeapMeans(us, d);
    forall i: nat | i < |s| ensures us[i] == ks[i] - 1 {
      InItems(s, i);
      assert AgesAt(s[i], now);
    }
    forall i: nat ensures OkAt(us, d, i) {
      assert OkAt(ks, d, i);
    }
  }

  lemma StampsAge(m: multiset<Element>, birth: Births, log: seq<Element>)
    requires Tracked(m, birth, log, |log| + 1)
    ensures forall e {:trigger AgesAt(e, StampOf(|log|))} | e in m :: AgesAt(e, StampOf(|log|))
  {
    forall e | e in m ensures AgesAt(e, StampOf(|log|)) {
      assert TrackedAt(m, e, birth, log, |log| + 1);
      StampsApart(birth[e] + 1, |log|);
      NextAges(e.order, StampOf(|log|));
    }
  }

  /** The next timer joins at the end, where alone it may be out of order. */
  lemma StampNext(s: seq<Element>, d: nat, birth: Births, log: seq<Element>, now: Word, e: Element)
    requires d >= 2 && now == StampOf(|log|) && Heap(Ranks(s, now), d) && e.order == Next(now)
    requires Tracked(multiset(s), birth, log, |log| + 1)
    ensures Fits(multiset(s) + multiset{e}, Next(now)) && HeapButUp(Ranks(s + [e], Next(now)), d, |s|)
    ensures Tracked(multiset(s) + multiset{e}, birth[e := |log|], log + [e], |log + [e]|)
    ensures Next(now) == StampOf(|log + [e]|)
  {
    var m := multiset(s);
    TrackNext(m, birth, log, e);
    assert Fits(m + multiset{e}, Next(now)) by { TrackedFits(m + multiset{e}, birth[e := |log|], log + [e]); }
    StampsAge(m, birth, log);
    RanksAge(s, d, now);
    Extended(Ranks(s, Next(now)), d, Rank(e, Next(now)));
    assert Ranks(s + [e], Next(now)) == Ranks(s, Next(now)) + [Rank(e, Next(now))];
  }

  /** `due` is in order, and `rest` comes after it. */
  ghost predicate Taken(due: seq<Element>, rest: multiset<Element>, birth: Births) {
    InOrder(due, birth) && AllBefore(due, rest, birth)
  }

  lemma TakenGrows(due: seq<Element>, m: multiset<Element>, n: multiset<Element>, e: Element, birth: Births)
    requires Taken(due, m, birth) && m == n + multiset{e} && Earliest(e, n, birth)
    ensures Taken(due + [e], n, birth)
  {
    var due' := due + [e];
    forall i | 0 <= i < |due'| ensures Earliest(due'[i], n, birth) {
      if i < |due| {
        assert Earliest(due[i], m, birth);
        forall f | f in n ensures Sooner(due[i], f, birth) {
          assert f in m;
        }
      }
    }
    forall i, j | 0 <= i < j < |due'| ensures Sooner(due'[i], due'[j], birth) {
      if j < |due| {
        assert Sooner(due[i], due[j], birth);
      } else {
        assert Earliest(due[i], m, birth) && e in m;
      }
    }
  }

  ghost predicate Shares(all: multiset<Element>, due: seq<Element>, rest: multiset<Element>) {
    all == rest + multiset(due)
  }

  lemma SharesMove(all: multiset<Element>, due: seq<Element>, m: multiset<Element>, n: multiset<Element>, e: Element)
    requires Shares(all, due, m) && m == n + multiset{e}
    ensures Shares(all, due + [e], n)
  {
    assert multiset(due + [e]) == multiset(due) + multiset{e};
  }

  ghost predicate AllDue(due: seq<Element>, now: int) {
    forall i {:trigger Later(due[i], now)} | 0 <= i < |due| :: !Later(due[i], now)
  }

  lemma InItems(s: seq<Element>, i: nat)
    requires i < |s|
    ensures s[i] in multiset(s)
  {
  }

  class Timers {
    const arity: nat
    var es: array<Element>
    var size: nat
    var order: Word
    var cullRand: Word
    /** All insertions ever made, and which of them each timer is. */
    ghost var log: seq<Element>
    ghost var birth: Births

    ghost predicate Valid() reads this { arity >= 2 && size <= es.Length }

    /** The elements in heap order. */
    ghost function Items(): seq<Element> reads this, es requires Valid() { es[..size] }

    ghost function Contents(): multiset<Element> reads this, es requires Valid() { multiset(Items()) }

    ghost predicate Ordered() reads this, es requires Valid() { Heap(Ranks(Items(), order), arity) }

    /** In heap order, and all timers are among the last 2^31 insertions. */
    ghost predicate Sound() reads this, es requires Valid() {
      order == StampOf(|log|) && Tracked(Contents(), birth, log, |log|) && Ordered()
    }

    constructor (d: nat)
      requires d >= 2
      ensures Valid() && arity == d && Contents() == multiset{} && Sound()
      ensures fresh(es)
    {
      arity := d;
      es := new Element[0];
      size, order, cullRand := 0, 0, 8173;
      log, birth := [], map[];
    }

    method Swap(i: nat, j: nat)
      requires Valid() && i < size && j < size
      modifies es
      ensures Items() == Swapped(old(Items()), i, j)
    {
      es[i], es[j] := es[j], es[i];
    }

    method SiftUp(start: nat)
      requires Valid() && start < size
      modifies es
      ensures Contents() == old(Contents())
      ensures old(Fits(Contents(), order) && HeapButUp(Ranks(Items(), order), arity, start)) ==> Ordered()
    {
      ghost var good := Fits(Contents(), order) && HeapButUp(Ranks(Items(), order), arity, start);
      var pos: nat := start;
      while pos != 0
        invariant pos < size && Contents() == old(Contents())
        invariant good ==> HeapButUp(Ranks(Items(), order), arity, pos)
      {
        var p: nat := Parent(pos, arity);
        ParentIsBelow(pos, arity);
        InItems(Items(), pos);
        InItems(Items(), p);
        if good {
          BeforeIsRank(es[pos], es[p], order);
        }
        if !Before(es[pos], es[p]) {
          break;
        }
        ghost var s := Items();
        SwappedKeeps(s, pos, p, order);
        if good {
          UpStep(Ranks(s, order), arity, pos);
        }
        Swap(pos, p);
        pos := p;
      }
      if good {
        UpDone(Ranks(Items(), order), arity, pos);
      }
    }

    /** The first of `pos` and its children. */
    method Smallest(pos: nat) returns (c: nat)
      requires Valid() && pos < size
      ensures c == pos || (0 < c < size && Parent(c, arity) == pos)
      ensures Fits(Contents(), order) ==> LeastChild(Ranks(Items(), order), arity, pos, c)
    {
      c := pos;
      var first: nat, end: nat := FirstChild(pos, arity), LastChild(pos, arity, size);
      ChildRange(arity, pos, size);
      var t: nat := first;
      while t < end
        invariant first <= t
        invariant c == pos || first <= c < end
        invariant Fits(Contents(), order) ==> Rank(es[c], order) <= Rank(es[pos], order)
        invariant Fits(Contents(), order) ==> forall i: nat | first <= i < t && i < end ::
                    Rank(es[c], order) <= Rank(es[i], order)
      {
        InItems(Items(), c);
        InItems(Items(), t);
        if Fits(Contents(), order) {
          BeforeIsRank(es[t], es[c], order);
        }
        if Before(es[t], es[c]) {
          c := t;
        }
        t := t + 1;
      }
    }

    method SiftDown(start: nat)
      requires Valid() && start < size
      modifies es
      ensures Contents() == old(Contents())
      ensures old(Fits(Contents(), order) && HeapButDown(Ranks(Items(), order), arity, start)) ==> Ordered()
    {
      ghost var good := Fits(Contents(), order) && HeapButDown(Ranks(Items(), order), arity, start);
      var pos: nat := start;
      while true
        invariant pos < size && Contents() == old(Contents())
        invariant good ==> HeapButDown(Ranks(Items(), order), arity, pos)
        decreases size - pos
      {
        var c := Smallest(pos);
        if c == pos {
          break;
        }
        ParentIsBelow(c, arity);
        ghost var s := Items();
        SwappedKeeps(s, pos, c, order);
        if good {
          DownStep(Ranks(s, order), arity, pos, c);
        }
        Swap(pos, c);
        pos := c;
      }
      if good {
        DownDone(Ranks(Items(), order), arity, pos);
      }
    }

    /** Remove the element at `pos`: exactly that one, wherever it is, and the order is kept. */
    method HardCull(at: nat)
      requires Valid() && at < size
      modifies this`size, es
      ensures Valid() && size == old(size) - 1
      ensures old(Contents()) == Contents() + multiset{old(es[at])}
      ensures old(Fits(Contents(), order) && Ordered()) ==> Ordered()
    {
      ghost var s := Items();
      MovedLast(s, at);
      ghost var good := Fits(multiset(s), order) && Heap(Ranks(s, order), arity);
      if good {
        ReplacedByLast(s, arity, order, at);
      }
      MoveLast(at);
      if at < size {
        Settle(at);
      }
    }

    /** Overwrite the element at `at` with the last one. */
    method MoveLast(at: nat)
      requires Valid() && at < size
      modifies this`size, es
      ensures Valid() && size == old(size) - 1
      ensures Items() == LastMoved(old(Items()), at)
    {
      size := size - 1;
      if at != size {
        es[size], es[at] := es[at], es[size];
      }
    }

    /** Move the element at `at` up or down to where it belongs. */
    method Settle(at: nat)
      requires Valid() && at < size
      modifies es
      ensures Contents() == old(Contents())
      ensures old(Fits(Contents(), order) && Misplaced(Ranks(Items(), order), arity, at)) ==> Ordered()
    {
      if at > 0 {
        ParentIsBelow(at, arity);
        InItems(Items(), at);
        InItems(Items(), Parent(at, arity));
        if Fits(Contents(), order) {
          BeforeIsRank(es[at], es[Parent(at, arity)], order);
        }
      }
      if at == 0 || !Before(es[at], es[Parent(at, arity)]) {
        SiftDown(at);
      } else {
        SiftUp(at);
      }
    }

    /** Remove the earliest timer: no other has an earlier deadline, nor the same deadline and an
        earlier insertion. */
    method Pop() returns (e: Element)
      requires Valid() && size > 0
      modifies this`size, es
      ensures Valid() && size == old(size) - 1
      ensures old(Contents()) == Contents() + multiset{e}
      ensures e == old(Items())[0]
      ensures old(Sound()) ==> Sound() && Earliest(e, Contents(), birth)
    {
      e := es[0];
      ghost var s, sound := Items(), Sound();
      if sound {
        TopIsEarliest(s, arity, birth, log);
        TrackedFits(multiset(s), birth, log);
      }
      HardCull(0);
      assert Contents() == multiset(s) - multiset{e};
      if sound {
        SubTracked(multiset(s), Contents(), birth, log, |log|);
      }
    }

    /** Drop empty timers from the top, so that the top, if any, is live. */
    method Cull(dead: set<nat>)
      requires Valid()
      modifies this`size, es
      ensures Valid() && OnlyDeadGone(old(Contents()), Contents(), dead)
      ensures size > 0 ==> es[0].value !in dead
      ensures old(Sound()) ==> Sound()
    {
      ghost var m := Contents();
      while size != 0 && es[0].value in dead
        invariant Valid() && OnlyDeadGone(m, Contents(), dead)
        invariant old(Sound()) ==> Sound()
        decreases size
      {
        ghost var c := Contents();
        CullAt(0, dead);
        DeadGoneChains(m, c, Contents(), dead);
      }
    }

    /** Remove an empty timer. */
    method CullAt(at: nat, dead: set<nat>)
      requires Valid() && at < size && es[at].value in dead
      modifies this`size, es
      ensures Valid() && size == old(size) - 1
      ensures OnlyDeadGone(old(Contents()), Contents(), dead)
      ensures old(Sound()) ==> Sound()
    {
      ghost var m, e := Contents(), es[at];
      ghost var sound := Sound();
      if sound {
        TrackedFits(m, birth, log);
      }
      HardCull(at);
      assert Contents() <= m;
      if sound {
        SubTracked(m, Contents(), birth, log, |log|);
      }
    }

    /** Probe random positions for empty timers while the heap is large. */
    method AutoCull(dead: set<nat>)
      requires Valid()
      modifies this`size, this`cullRand, es
      ensures Valid() && OnlyDeadGone(old(Contents()), Contents(), dead)
      ensures old(Sound()) ==> Sound()
    {
      ghost var m := Contents();
      while size >= 32
        invariant Valid() && OnlyDeadGone(m, Contents(), dead)
        invariant old(Sound()) ==> Sound()
        decreases size
      {
        var pos: nat := cullRand % size;
        cullRand := (cullRand * 1664525 + 1013904223) % 0x1_0000_0000;
        if es[pos].value !in dead {
          break;
        }
        ghost var c := Contents();
        CullAt(pos, dead);
        DeadGoneChains(m, c, Contents(), dead);
      }
    }

    method Expand()
      requires Valid()
      modifies this`es
      ensures Valid() && fresh(es) && es.Length > size && Items() == old(Items())
    {
      var capacity := es.Length;
      var more := new Element[if capacity != 0 then capacity * 4 + 3 else 31];
      forall i | 0 <= i < size {
        more[i] := es[i];
      }
      es := more;
      assert es[..size] == old(es[..size]);
    }

    method Append(e: Element)
      requires Valid()
      modifies this`es, this`size, es
      ensures Valid() && (es == old(es) || fresh(es))
      ensures Items() == old(Items()) + [e]
    {
      if size == es.Length {
        Expand();
      }
      es[size] := e;
      size := size + 1;
    }

    /** Add a timer. Only timers that are empty leave; the new one has the next insertion number. Order is
        kept as long as the timers left are among the last 2^31 insertions, the new one included. */
    method Emplace(when: int, value: nat, dead: set<nat>) returns (ghost kept: multiset<Element>)
      requires Valid()
      modifies this, es
      ensures Valid() && (es == old(es) || fresh(es)) && order == Next(old(order))
      ensures Contents() == kept + multiset{Element(when, order, value)} && OnlyDeadGone(old(Contents()), kept, dead)
      ensures log == old(log) + [Element(when, order, value)]
      ensures birth == old(birth)[Element(when, order, value) := |old(log)|]
      ensures old(Sound() && Tracked(Contents(), birth, log, |log| + 1)) ==> Sound()
    {
      ghost var m := Contents();
      AutoCull(dead);
      kept := Contents();
      if Tracked(m, birth, log, |log| + 1) {
        DeadGoneTracked(m, kept, dead, birth, log, |log| + 1);
      }
      Insert(when, value);
    }

    /** Stamp a timer, append it and move it up to its place. */
    method Insert(when: int, value: nat)
      requires Valid()
      modifies this, es
      ensures Valid() && (es == old(es) || fresh(es)) && order == Next(old(order))
      ensures Contents() == old(Contents()) + multiset{Element(when, order, value)}
      ensures log == old(log) + [Element(when, order, value)]
      ensures birth == old(birth)[Element(when, order, value) := |old(log)|]
      ensures old(Sound() && Tracked(Contents(), birth, log, |log| + 1)) ==> Sound()
    {
      ghost var s, good := Items(), Sound() && Tracked(Contents(), birth, log, |log| + 1);
      var e := Element(when, Next(order), value);
      if good {
        StampNext(s, arity, birth, log, order, e);
      }
      order := Next(order);
      Push(e);
      birth, log := birth[e := |log|], log + [e];
    }

    method Push(e: Element)
      requires Valid()
      modifies this`es, this`size, es
      ensures Valid() && (es == old(es) || fresh(es))
      ensures Contents() == old(Contents()) + multiset{e}
      ensures old(Fits(Contents() + multiset{e}, order) && HeapButUp(Ranks(Items() + [e], order), arity, size)) ==>
                Ordered()
    {
      ghost var s := Items();
      assert multiset(s + [e]) == multiset(s) + multiset{e};
      Append(e);
      assert Items() == s + [e];
      SiftUp(size - 1);
    }

    /** Take the earliest timer if it is due by `now`. */
    method PopDue(now: int) returns (r: Option<Element>)
      requires Valid()
      modifies this`size, es
      ensures Valid() && (r.Some? <==> old(size) > 0 && old(Items())[0].when <= now)
      ensures r.None? ==> size == old(size) && Contents() == old(Contents())
      ensures r.Some? ==>
                && size == old(size) - 1 && r.value.when <= now
                && old(Contents()) == Contents() + multiset{r.value}
      ensures old(Sound()) ==>
                && Sound()
                && if r.Some? then Earliest(r.value, Contents(), birth) else AllLater(Contents(), now)
    {
      if size != 0 && es[0].when <= now {
        var e := Pop();
        r := Some(e);
      } else {
        r := None;
        if Sound() {
          NoneDue(Items(), arity, birth, log, now);
        }
      }
    }

    /** One turn of the loop over due timers; `all` are the timers it began with. */
    method TakeNext(now: int, due: seq<Element>, ghost all: multiset<Element>) returns (more: bool, due': seq<Element>)
      requires Valid() && Shares(all, due, Contents()) && AllDue(due, now)
      modifies this`size, es
      ensures Valid() && Shares(all, due', Contents()) && AllDue(due', now)
                && if more then size < old(size) else size == old(size)
      ensures old(Sound() && Taken(due, Contents(), birth)) ==>
                Sound() && Taken(due', Contents(), birth) && (!more ==> AllLater(Contents(), now))
    {
      ghost var m := Contents();
      var next := PopDue(now);
      more := next.Some?;
      due' := due;
      if more {
        due' := due + [next.value];
        SharesMove(all, due, m, Contents(), next.value);
        if Taken(due, m, birth) && Earliest(next.value, Contents(), birth) {
          TakenGrows(due, m, Contents(), next.value, birth);
        }
      }
    }

    /** Take every timer due by `now`, in order of deadline and, for equal deadlines, of insertion. */
    method TakeDue(now: int) returns (due: seq<Element>)
      requires Valid()
      modifies this`size, es
      ensures Valid() && Shares(old(Contents()), due, Contents()) && AllDue(due, now)
      ensures old(Sound()) ==> Sound() && InOrder(due, birth) && AllLater(Contents(), now)
    {
      due := [];
      ghost var all, sound := Contents(), Sound();
      var more := true;
      while more
        invariant Valid() && Shares(all, due, Contents()) && AllDue(due, now)
        invariant sound ==> Sound() && Taken(due, Contents(), birth) && (!more ==> AllLater(Contents(), now))
        decreases size, more
      {
        more, due := TakeNext(now, due, all);
      }
    }
  }
}
