/** What the parameters of a query string are: split on `&`, drop empty pieces, split each at its first
    `=`, and decode both sides. */
module QuerySpec {
  import opened Basics

  const AMP: Byte := 38
  const EQUALS: Byte := 61
  const PERCENT: Byte := 37
  const PLUS: Byte := 43
  const SPACE: Byte := 32
  const HASH: Byte := 35
  const QUESTION: Byte := 63
  const SLASH: Byte := 47

  datatype Param = Param(name: Bytes, value: Bytes)

  predicate Hex(c: Byte) { 48 <= c <= 57 || 65 <= c <= 70 || 97 <= c <= 102 }

  function HexValue(c: Byte): (v: int)
    requires Hex(c)
    ensures 0 <= v < 16
  { if c <= 57 then c - 48 else if c <= 70 then c - 55 else c - 87 }

  function HexPair(a: Byte, b: Byte): Byte
    requires Hex(a) && Hex(b)
  { HexValue(a) * 16 + HexValue(b) }

  /** Where `c` first occurs, or the length. */
  function Find(q: Bytes, c: Byte): (k: nat)
    ensures k <= |q| && (k < |q| ==> q[k] == c) && forall i | 0 <= i < k :: q[i] != c
  { if q == [] || q[0] == c then 0 else 1 + Find(q[1..], c) }

  lemma {:induction false} FoundAt(q: Bytes, c: Byte, k: nat)
    requires k <= |q| && (k < |q| ==> q[k] == c) && forall i | 0 <= i < k :: q[i] != c
    ensures Find(q, c) == k
  {
    var j := Find(q, c);
    assert !(j < k) && !(k < j);
  }

  /** An escape starts here. */
  predicate Escape(q: Bytes) { |q| >= 3 && q[0] == PERCENT && Hex(q[1]) && Hex(q[2]) }

  function Decode(q: Bytes): Bytes {
    if q == [] then []
    else if Escape(q) then [HexPair(q[1], q[2])] + Decode(q[3..])
    else [if q[0] == PLUS then SPACE else q[0]] + Decode(q[1..])
  }

  /** The bytes before the first `&`, and those after it. */
  function Piece(q: Bytes): Bytes { q[..Find(q, AMP)] }

  function Later(q: Bytes): Bytes {
    var k := Find(q, AMP);
    if k < |q| then q[k + 1..] else []
  }

  /** The bytes of a piece before its first `=`, and those after it. Without `=` it is all name. */
  function NamePart(p: Bytes): Bytes { p[..Find(p, EQUALS)] }

  function ValuePart(p: Bytes): Bytes {
    var e := Find(p, EQUALS);
    if e < |p| then p[e + 1..] else []
  }

  function ParamOf(p: Bytes): Param { Param(Decode(NamePart(p)), Decode(ValuePart(p))) }

  function Params(q: Bytes): seq<Param>
    decreases |q|
  {
    if q == [] then []
    else (if Piece(q) == [] then [] else [ParamOf(Piece(q))]) + Params(Later(q))
  }

  // One pass over the bytes

  datatype Mode = Fresh | InName | InValue

  /** How many bytes the next step of the scan consumes. */
  function Width(q: Bytes): nat
    requires q != []
  { if Escape(q) then 3 else 1 }

  /** The byte it decodes to. */
  function Symbol(q: Bytes): Byte
    requires q != []
  { if Escape(q) then HexPair(q[1], q[2]) else if q[0] == PLUS then SPACE else q[0] }

  /** The parameters still to come when `name` and `value` have been decoded of the current piece. */
  function Scan(mode: Mode, name: Bytes, value: Bytes, q: Bytes): seq<Param>
    decreases |q|
  {
    if q == [] then if mode.Fresh? then [] else [Param(name, value)]
    else if q[0] == AMP then
      (if mode.Fresh? then [] else [Param(name, value)]) + Scan(Fresh, [], [], q[1..])
    else if q[0] == EQUALS && !mode.InValue? then Scan(InValue, name, value, q[1..])
    else if mode.InValue? then Scan(InValue, name, value + [Symbol(q)], q[Width(q)..])
    else Scan(InName, name + [Symbol(q)], value, q[Width(q)..])
  }

  /** A step that is not on a separator stays inside the piece. */
  lemma FindSkips(q: Bytes, c: Byte)
    requires q != [] && q[0] != c && !Hex(c)
    ensures Find(q, c) == Width(q) + Find(q[Width(q)..], c)
  {
    if Escape(q) {
      assert q[1..][0] == q[1] && q[1..][1..] == q[2..] && q[2..][0] == q[2] && q[2..][1..] == q[3..];
      assert Find(q, c) == 1 + Find(q[1..], c);
      assert Find(q[1..], c) == 1 + Find(q[2..], c);
    }
  }

  lemma PieceStep(q: Bytes)
    requires q != [] && q[0] != AMP
    ensures Piece(q) != [] && Width(Piece(q)) == Width(q) <= |Piece(q)| && Symbol(Piece(q)) == Symbol(q)
              && Piece(q)[0] == q[0]
    ensures Piece(q)[Width(q)..] == Piece(q[Width(q)..]) && Later(q) == Later(q[Width(q)..])
  {
    FindSkips(q, AMP);
    var k, w := Find(q, AMP), Width(q);
    var p := Piece(q);
    assert w <= k && |p| == k && forall i | 0 <= i < k :: p[i] == q[i];
    assert Escape(q) <==> Escape(p);
    assert p[w..] == q[w..][..k - w];
    assert k < |q| ==> q[k + 1..] == q[w..][k - w + 1..];
  }

  lemma DecodeStep(p: Bytes)
    requires p != []
    ensures Decode(p) == [Symbol(p)] + Decode(p[Width(p)..])
  {
  }

  /** Before the first `=`, the name takes the same steps as the scan. */
  lemma NameStep(p: Bytes)
    requires p != [] && p[0] != EQUALS
    ensures Decode(NamePart(p)) == [Symbol(p)] + Decode(NamePart(p[Width(p)..]))
    ensures ValuePart(p) == ValuePart(p[Width(p)..])
  {
    FindSkips(p, EQUALS);
    var n, w := NamePart(p), Width(p);
    assert n[0] == p[0] && Width(n) == w && Symbol(n) == Symbol(p);
    assert n[w..] == NamePart(p[w..]);
    DecodeStep(n);
  }

  lemma Joined(a: Bytes, x: Byte, b: Bytes)
    ensures a + [x] + b == a + ([x] + b)
  {
  }

  /** In a value, the scan decodes up to the next `&`. */
  lemma {:induction false} ScanValue(name: Bytes, value: Bytes, q: Bytes)
    ensures Scan(InValue, name, value, q) == [Param(name, value + Decode(Piece(q)))] + Params(Later(q))
    decreases |q|, 0
  {
    if q == [] || q[0] == AMP {
      assert value + Decode(Piece(q)) == value;
      if q != [] {
        ScanFresh(q[1..]);
      }
    } else {
      var r := q[Width(q)..];
      PieceStep(q);
      DecodeStep(Piece(q));
      ScanValue(name, value + [Symbol(q)], r);
      Joined(value, Symbol(q), Decode(Piece(r)));
    }
  }

  ghost function Named(name: Bytes, p: Bytes): Param { Param(name + Decode(NamePart(p)), Decode(ValuePart(p))) }

  /** In a name, it decodes up to the next `=` of the piece, if there is one. */
  lemma {:induction false} ScanName(name: Bytes, q: Bytes)
    ensures Scan(InName, name, [], q) == [Named(name, Piece(q))] + Params(Later(q))
    decreases |q|, 0
  {
    if q == [] || q[0] == AMP {
      assert name + Decode(NamePart(Piece(q))) == name;
      if q != [] {
        ScanFresh(q[1..]);
      }
    } else if q[0] == EQUALS {
      PieceStep(q);
      ScanValue(name, [], q[1..]);
      var p := Piece(q);
      assert NamePart(p) == [] && ValuePart(p) == p[1..] == Piece(q[1..]);
      assert name + [] == name && [] + Decode(Piece(q[1..])) == Decode(Piece(q[1..]));
    } else {
      var r := q[Width(q)..];
      PieceStep(q);
      NameStep(Piece(q));
      ScanName(name + [Symbol(q)], r);
      Joined(name, Symbol(q), Decode(NamePart(Piece(r))));
    }
  }

  /** The one-pass scan computes the parameters. */
  lemma {:induction false} ScanFresh(q: Bytes)
    ensures Scan(Fresh, [], [], q) == Params(q)
    decreases |q|, 1
  {
    if q != [] {
      if q[0] == AMP {
        ScanFresh(q[1..]);
        assert Piece(q) == [] && Later(q) == q[1..];
      } else {
        assert Scan(Fresh, [], [], q) == Scan(InName, [], [], q);
        ScanName([], q);
        PieceStep(q);
        assert [] + Decode(NamePart(Piece(q))) == Decode(NamePart(Piece(q)));
      }
    }
  }
}
