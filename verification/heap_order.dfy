/** A d-ary heap laid out in a sequence, on plain keys. */
module HeapOrder {

  /** Division by repeated subtraction. Written out, it keeps the index arithmetic linear. */
  function Quotient(n: nat, d: nat): nat
    requires d > 0
  { if n < d then 0 else 1 + Quotient(n - d, d) }

  lemma {:induction false} QuotientDivides(n: nat, d: nat)
    requires d > 0
    ensures Quotient(n, d) == n / d
  {
    if n < d {
      DivideExactly(n, d, 0);
    } else {
      QuotientDivides(n - d, d);
      var q := (n - d) / d;
      DivideExactly(n - d, d, q);
      assert (q + 1) * d == q * d + d;
      DivideExactly(n, d, q + 1);
    }
  }

  function Parent(i: nat, d: nat): (p: nat)
    requires i > 0 && d >= 2
  { Quotient(if d == 2 then i - 1 else i, d) }

  function FirstChild(i: nat, d: nat): nat { i * d + if d == 2 || i == 0 then 1 else 0 }

  function ChildEnd(i: nat, d: nat): nat { i * d + d + if d == 2 then 1 else 0 }

  function LastChild(i: nat, d: nat, size: nat): nat {
    var p := ChildEnd(i, d);
    if p < size then p else size
  }

  lemma {:induction false} ScalesUp(a: nat, b: nat, d: nat)
    requires a < b
    ensures a * d + d <= b * d
    decreases b
  {
    if a + 1 < b {
      ScalesUp(a, b - 1, d);
      assert (b - 1) * d + d == b * d;
    } else {
      assert (a + 1) * d == a * d + d;
    }
  }

  lemma DivideExactly(t: nat, d: nat, i: nat)
    requires d > 0
    ensures t / d == i <==> i * d <= t < i * d + d
  {
    var q, r := t / d, t % d;
    assert t == q * d + r && 0 <= r < d;
    if q < i {
      ScalesUp(q, i, d);
    } else if q > i {
      ScalesUp(i, q, d);
    }
  }

  lemma ParentIsBelow(t: nat, d: nat)
    requires d >= 2 && t > 0
    ensures Parent(t, d) < t
  {
    var u := if d == 2 then t - 1 else t;
    var p := u / d;
    QuotientDivides(u, d);
    DivideExactly(u, d, p);
    if p > 0 {
      ScalesUp(1, d, p);
      assert p * d == d * p;
    }
  }

  /** The index functions agree: the children of `i` are the indexes whose parent is `i`. */
  lemma ChildrenAreExact(t: nat, d: nat, i: nat)
    requires d >= 2 && t > 0
    ensures FirstChild(i, d) <= t < ChildEnd(i, d) <==> Parent(t, d) == i
    ensures Parent(t, d) < t
  {
    ParentIsBelow(t, d);
    QuotientDivides(if d == 2 then t - 1 else t, d);
    if d == 2 {
      DivideExactly(t - 1, 2, i);
    } else {
      DivideExactly(t, d, i);
    }
  }

  lemma ChildRange(d: nat, i: nat, size: nat)
    requires d >= 2
    ensures forall t: nat {:trigger Parent(t, d)} | 0 < t < size ::
              FirstChild(i, d) <= t < LastChild(i, d, size) <==> Parent(t, d) == i
    ensures 0 < FirstChild(i, d)
    ensures LastChild(i, d, size) <= size
  {
    forall t: nat | 0 < t < size
      ensures FirstChild(i, d) <= t < LastChild(i, d, size) <==> Parent(t, d) == i
    {
      ChildrenAreExact(t, d, i);
    }
    if i > 0 {
      ScalesUp(0, i, d);
    }
  }

  /** No element comes before its parent. */
  ghost predicate OkAt(ks: seq<int>, d: nat, i: nat)
    requires d >= 2
  { 0 < i < |ks| && Parent(i, d) < i ==> ks[Parent(i, d)] <= ks[i] }

  ghost predicate OkBelow(ks: seq<int>, d: nat, n: nat)
    requires d >= 2
  { n == 0 || (OkAt(ks, d, n - 1) && OkBelow(ks, d, n - 1)) }

  ghost predicate Heap(ks: seq<int>, d: nat)
    requires d >= 2
  { OkBelow(ks, d, |ks|) }

  lemma {:induction false} OkBelowMeans(ks: seq<int>, d: nat, n: nat)
    requires d >= 2 && n <= |ks|
    ensures OkBelow(ks, d, n) <==> forall i: nat | i < n :: OkAt(ks, d, i)
  {
    if n > 0 {
      OkBelowMeans(ks, d, n - 1);
    }
  }

  lemma HeapMeans(ks: seq<int>, d: nat)
    requires d >= 2
    ensures Heap(ks, d) <==> forall i: nat :: OkAt(ks, d, i)
  {
    OkBelowMeans(ks, d, |ks|);
  }

  /** Children of `pos` do not come before the parent of `pos`. */
  ghost predicate Bridged(ks: seq<int>, d: nat, pos: nat)
    requires d >= 2
  {
    0 < pos < |ks| && Parent(pos, d) < pos ==>
      forall i: nat | 0 < i < |ks| && Parent(i, d) == pos :: ks[Parent(pos, d)] <= ks[i]
  }

  /** Only the element at `pos` may come before its parent. */
  ghost predicate HeapButUp(ks: seq<int>, d: nat, pos: nat)
    requires d >= 2
  { Bridged(ks, d, pos) && forall i: nat :: i != pos ==> OkAt(ks, d, i) }

  /** Only the children of `pos` may come before their parent. */
  ghost predicate HeapButDown(ks: seq<int>, d: nat, pos: nat)
    requires d >= 2
  { Bridged(ks, d, pos) && forall i: nat :: 0 < i && Parent(i, d) != pos ==> OkAt(ks, d, i) }

  /** No later than `pos` and its children. */
  ghost predicate LeastChild(ks: seq<int>, d: nat, pos: nat, c: nat)
    requires d >= 2 && pos < |ks| && c < |ks|
  { ks[c] <= ks[pos] && forall i: nat | 0 < i < |ks| && Parent(i, d) == pos :: ks[c] <= ks[i] }

  function Swapped<T>(s: seq<T>, i: nat, j: nat): seq<T>
    requires i < |s| && j < |s|
  { s[i := s[j]][j := s[i]] }

  lemma UpStep(ks: seq<int>, d: nat, pos: nat)
    requires d >= 2 && 0 < pos < |ks| && HeapButUp(ks, d, pos)
    requires Parent(pos, d) < pos && ks[pos] < ks[Parent(pos, d)]
    ensures HeapButUp(Swapped(ks, pos, Parent(pos, d)), d, Parent(pos, d))
  {
    var p := Parent(pos, d);
    var us := Swapped(ks, pos, p);
    forall i: nat | i != p ensures OkAt(us, d, i) {
      if 0 < i < |ks| && i != pos {
        assert OkAt(ks, d, i);
      }
    }
    if 0 < p {
      ChildrenAreExact(p, d, Parent(p, d));
      assert OkAt(ks, d, p);
      forall i: nat | 0 < i < |us| && Parent(i, d) == p ensures us[Parent(p, d)] <= us[i] {
        ChildrenAreExact(i, d, p);
        if i != pos {
          assert OkAt(ks, d, i);
        }
      }
    }
  }

  lemma UpDone(ks: seq<int>, d: nat, pos: nat)
    requires d >= 2 && pos < |ks| && HeapButUp(ks, d, pos)
    requires pos > 0 ==> OkAt(ks, d, pos)
    ensures Heap(ks, d)
  {
    HeapMeans(ks, d);
    assert pos == 0 ==> OkAt(ks, d, 0);
  }

  lemma DownStep(ks: seq<int>, d: nat, pos: nat, c: nat)
    requires d >= 2 && 0 < c < |ks| && Parent(c, d) == pos && pos < c && HeapButDown(ks, d, pos)
    requires LeastChild(ks, d, pos, c)
    ensures HeapButDown(Swapped(ks, pos, c), d, c)
  {
    var us := Swapped(ks, pos, c);
    forall i: nat | 0 < i && Parent(i, d) != c ensures OkAt(us, d, i) {
      if i < |ks| && Parent(i, d) != pos {
        assert OkAt(ks, d, i);
        ChildrenAreExact(i, d, pos);
      }
    }
    forall i: nat | 0 < i < |us| && Parent(i, d) == c ensures us[pos] <= us[i] {
      ChildrenAreExact(i, d, c);
      assert OkAt(ks, d, i);
    }
  }

  lemma DownDone(ks: seq<int>, d: nat, pos: nat)
    requires d >= 2 && pos < |ks| && HeapButDown(ks, d, pos)
    requires LeastChild(ks, d, pos, pos)
    ensures Heap(ks, d)
  {
    HeapMeans(ks, d);
    forall i: nat ensures OkAt(ks, d, i) {
      if i > 0 && Parent(i, d) != pos {
        assert OkAt(ks, d, i);
      }
    }
  }

  /** Overwriting one element of a heap disturbs it there only. */
  lemma Replaced(ks: seq<int>, d: nat, pos: nat, k: int)
    requires d >= 2 && pos < |ks| && Heap(ks, d)
    ensures pos > 0 && Parent(pos, d) < pos && k < ks[Parent(pos, d)] ==> HeapButUp(ks[pos := k], d, pos)
    ensures pos == 0 || (Parent(pos, d) < pos && k >= ks[Parent(pos, d)]) ==> HeapButDown(ks[pos := k], d, pos)
  {
    HeapMeans(ks, d);
    var us := ks[pos := k];
    if pos > 0 {
      ChildrenAreExact(pos, d, Parent(pos, d));
    }
    assert OkAt(ks, d, pos);
    assert Bridged(us, d, pos) by {
      forall i: nat | 0 < i < |us| && Parent(i, d) == pos && 0 < pos ensures us[Parent(pos, d)] <= us[i] {
        ChildrenAreExact(i, d, pos);
        assert OkAt(ks, d, i);
      }
    }
    forall i: nat | 0 < i && i != pos && Parent(i, d) != pos ensures OkAt(us, d, i) {
      assert OkAt(ks, d, i);
    }
    if pos > 0 && k < ks[Parent(pos, d)] {
      forall i: nat | i != pos ensures OkAt(us, d, i) {
        assert OkAt(ks, d, i);
      }
    }
  }

  /** A heap cut short is a heap, and one element more disturbs it at the end only. */
  lemma Shortened(ks: seq<int>, d: nat, n: nat)
    requires d >= 2 && n <= |ks| && Heap(ks, d)
    ensures Heap(ks[..n], d)
  {
    HeapMeans(ks, d);
    HeapMeans(ks[..n], d);
    forall i: nat ensures OkAt(ks[..n], d, i) {
      assert OkAt(ks, d, i);
    }
  }

  /** In order but for the element at `pos`, which may belong further up or further down. */
  ghost predicate Misplaced(ks: seq<int>, d: nat, pos: nat)
    requires d >= 2 && pos < |ks|
  {
    if pos == 0 || (Parent(pos, d) < pos && ks[pos] >= ks[Parent(pos, d)]) then HeapButDown(ks, d, pos)
    else HeapButUp(ks, d, pos)
  }

  /** The last element moved to `pos` may belong further up or further down. */
  lemma LastKeyMoved(ks: seq<int>, d: nat, pos: nat)
    requires d >= 2 && pos < |ks| - 1 && Heap(ks, d)
    ensures Misplaced(ks[..|ks| - 1][pos := ks[|ks| - 1]], d, pos)
  {
    if pos > 0 {
      ParentIsBelow(pos, d);
    }
    Shortened(ks, d, |ks| - 1);
    Replaced(ks[..|ks| - 1], d, pos, ks[|ks| - 1]);
  }

  lemma Extended(ks: seq<int>, d: nat, k: int)
    requires d >= 2 && Heap(ks, d)
    ensures HeapButUp(ks + [k], d, |ks|)
  {
    HeapMeans(ks, d);
    var us := ks + [k];
    forall i: nat | i != |ks| ensures OkAt(us, d, i) {
      assert OkAt(ks, d, i);
    }
    forall i: nat | 0 < i < |us| ensures Parent(i, d) != |ks| {
      ParentIsBelow(i, d);
    }
  }

  lemma {:induction false} RootIsLeast(ks: seq<int>, d: nat, i: nat)
    requires d >= 2 && Heap(ks, d) && i < |ks|
    ensures ks[0] <= ks[i]
  {
    HeapMeans(ks, d);
    if i > 0 {
      ChildrenAreExact(i, d, Parent(i, d));
      assert OkAt(ks, d, i);
      RootIsLeast(ks, d, Parent(i, d));
    }
  }
}
