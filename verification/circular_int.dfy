/** Stamps that wrap around, compared by the sign of their difference. */
module CircularInt {

  const MODULUS: int := 0x1_0000_0000
  const HALF: int := 0x8000_0000

  type Word = x: int | 0 <= x < MODULUS

  /** Unsigned subtraction. */
  function Minus(a: Word, b: Word): Word { if a >= b then a - b else a - b + MODULUS }

  /** The same bits read as a signed number. */
  function Signed(a: Word): int { if a < HALF then a else a - MODULUS }

  /** `circular_int::operator<`. */
  predicate Less(a: Word, b: Word) { a != b && Signed(Minus(a, b)) < 0 }

  /** The comparison by value: the difference, as an unsigned number, is at least half the range. */
  lemma LessMeans(a: Word, b: Word)
    ensures Less(a, b) <==> (a - b) % 0x1_0000_0000 >= 0x8000_0000
  {
  }

  function Next(a: Word): Word { if a + 1 < MODULUS then a + 1 else 0 }

  /** How many stamps ago `a` was given out, if `now` was the last. */
  function Age(a: Word, now: Word): Word { Minus(now, a) }

  /** Within half the range behind `now`, the comparison is by age, older first, and stamps are told
      apart. */
  lemma LessIsOlder(a: Word, b: Word, now: Word)
    requires Age(a, now) < HALF && Age(b, now) < HALF
    ensures Less(a, b) <==> Age(a, now) > Age(b, now)
    ensures a == b <==> Age(a, now) == Age(b, now)
  {
  }

  /** Giving out the next stamp makes every stamp one older, until its age wraps. */
  lemma NextAges(a: Word, now: Word)
    ensures Age(now, now) == 0
    ensures Age(a, now) < MODULUS - 1 ==> Age(a, Next(now)) == Age(a, now) + 1
  {
  }

  /** The stamp of the `k`th insertion, counting from one: the counter incremented `k` times. */
  ghost function StampOf(k: nat): Word { if k == 0 then 0 else Next(StampOf(k - 1)) }

  /** The counter is the number of insertions modulo its range. */
  lemma {:induction false} StampIsRemainder(k: nat)
    ensures StampOf(k) == k % MODULUS
  {
    if k > 0 {
      StampIsRemainder(k - 1);
      var q, r := (k - 1) / MODULUS, (k - 1) % MODULUS;
      assert k == q * MODULUS + (r + 1);
      if r + 1 == MODULUS {
        assert k == (q + 1) * MODULUS;
      }
    }
  }

  /** Stamps less than the whole range apart are as far apart as their numbers. */
  lemma {:induction false} StampsApart(j: nat, k: nat)
    requires j <= k < j + MODULUS
    ensures Age(StampOf(j), StampOf(k)) == k - j
    decreases k
  {
    if j < k {
      StampsApart(j, k - 1);
      NextAges(StampOf(j), StampOf(k - 1));
    }
  }

  // When the comparison is an order

  ghost predicate Total(s: set<Word>) {
    forall a, b | a in s && b in s :: if a == b then !Less(a, b) else Less(a, b) != Less(b, a)
  }

  ghost predicate Transitive(s: set<Word>) {
    forall a, b, c | a in s && b in s && c in s && Less(a, b) && Less(b, c) :: Less(a, c)
  }

  ghost predicate StrictTotalOrder(s: set<Word>) { Total(s) && Transitive(s) }

  /** All of `s` lies less than half the range after `base`. */
  ghost predicate WindowFrom(s: set<Word>, base: Word) { forall a | a in s :: Minus(a, base) < HALF }

  lemma LessFromBase(a: Word, b: Word, base: Word)
    requires Minus(a, base) < HALF && Minus(b, base) < HALF
    ensures Less(a, b) <==> Minus(a, base) < Minus(b, base)
    ensures a == b <==> Minus(a, base) == Minus(b, base)
  {
  }

  lemma WindowIsOrdered(s: set<Word>, base: Word)
    requires WindowFrom(s, base)
    ensures StrictTotalOrder(s)
  {
    forall a, b | a in s && b in s
      ensures Less(a, b) <==> Minus(a, base) < Minus(b, base)
      ensures a == b <==> Minus(a, base) == Minus(b, base)
    {
      LessFromBase(a, b, base);
    }
  }

  lemma {:induction false} Least(s: set<Word>) returns (m: Word)
    requires s != {} && StrictTotalOrder(s)
    ensures m in s && forall a | a in s && a != m :: Less(m, a)
    decreases |s|
  {
    var x :| x in s;
    if s == {x} {
      m := x;
    } else {
      var rest := s - {x};
      assert rest != {};
      m := Least(rest);
      if Less(x, m) {
        m := x;
      }
    }
  }

  /** The comparison is a strict total order on a set of stamps exactly when they all lie less than
      half the range after one of them. */
  lemma OrderedExactly(s: set<Word>)
    requires s != {}
    ensures StrictTotalOrder(s) <==> exists base | base in s :: WindowFrom(s, base)
  {
    if StrictTotalOrder(s) {
      var m := Least(s);
      forall a | a in s ensures Minus(a, m) < HALF {
        assert a == m || (Less(m, a) && !Less(a, m));
      }
      assert WindowFrom(s, m);
    }
    if base :| base in s && WindowFrom(s, base) {
      WindowIsOrdered(s, base);
    }
  }
}
