/** A sender's side of query strings, and what the scan makes of it: whatever bytes parameters hold, encoded
    they come back. */
module QueryEncode {
  import opened Basics
  import opened QuerySpec
  import opened HttpInfo

  const UPPER: string := "0123456789ABCDEF"
  const LOWER: string := "0123456789abcdef"

  /** The digit for `k`. */
  function Digit(k: nat, upper: bool): char
    requires k < 16
  { if upper then UPPER[k] else LOWER[k] }

  lemma DigitIsHex(k: nat, upper: bool)
    requires k < 16
    ensures Digit(k, upper) < 128 as char && Hex(Digit(k, upper) as int) && HexValue(Digit(k, upper) as int) == k
  {
    assert UPPER[0] == '0' && UPPER[9] == '9' && UPPER[10] == 'A' && UPPER[15] == 'F';
  }

  /** The hexadecimal digits are those of the two alphabets, and nothing else. */
  lemma HexMeans(c: Byte)
    ensures Hex(c) <==> c as char in UPPER || c as char in LOWER
  {
  }

  /** The two digits of a byte, in either case, give the byte. */
  lemma HexPairMeans(x: Byte, u: bool, v: bool)
    ensures Digit(x / 16, u) < 128 as char && Digit(x % 16, v) < 128 as char
    ensures Hex(Digit(x / 16, u) as int) && Hex(Digit(x % 16, v) as int)
    ensures HexPair(Digit(x / 16, u) as int, Digit(x % 16, v) as int) == x
  {
    DigitIsHex(x / 16, u);
    DigitIsHex(x % 16, v);
  }

  /** How a sender encodes: the case of its digits, and the bytes it leaves alone where it may. */
  datatype Style = Style(upper: bool, keep: set<Byte>)

  predicate Reserved(c: Byte) { c as char in "&=+%#" }

  /** A space kept is a `+`; a byte not kept is `%` and two digits. */
  function EncodeByte(x: Byte, st: Style): Bytes {
    if x in st.keep && x as char == ' ' then ['+' as int]
    else if x in st.keep && !Reserved(x) then [x]
    else
      DigitIsHex(x / 16, st.upper);
      DigitIsHex(x % 16, st.upper);
      ['%' as int, Digit(x / 16, st.upper) as int, Digit(x % 16, st.upper) as int]
  }

  function Encode(b: Bytes, st: Style): Bytes {
    if b == [] then [] else EncodeByte(b[0], st) + Encode(b[1..], st)
  }

  lemma DecodeByte(x: Byte, st: Style, rest: Bytes)
    ensures Decode(EncodeByte(x, st) + rest) == [x] + Decode(rest)
  {
    var e := EncodeByte(x, st);
    assert e + rest != [] && (e + rest)[|e|..] == rest;
    if |e| == 1 {
      assert (e + rest)[0] == e[0] && (e + rest)[1..] == rest;
    } else {
      HexPairMeans(x, st.upper, st.upper);
      assert (e + rest)[0] == e[0] && (e + rest)[1] == e[1] && (e + rest)[2] == e[2] && (e + rest)[3..] == rest;
      assert Escape(e + rest);
    }
  }

  /** Encoding any bytes and decoding them gives the bytes. */
  lemma {:induction false} DecodeEncode(b: Bytes, st: Style)
    ensures Decode(Encode(b, st)) == b
  {
    if b != [] {
      DecodeByte(b[0], st, Encode(b[1..], st));
      DecodeEncode(b[1..], st);
      assert b == [b[0]] + b[1..];
    }
  }

  /** No separator is left in encoded text. */
  ghost predicate Clean(q: Bytes) { forall i | 0 <= i < |q| :: q[i] != AMP && q[i] != EQUALS && q[i] != HASH }

  lemma HexClean(c: Byte)
    requires Hex(c)
    ensures c != AMP && c != EQUALS && c != HASH
  {
  }

  lemma {:induction false} EncodeClean(b: Bytes, st: Style)
    ensures Clean(Encode(b, st))
  {
    if b != [] {
      EncodeClean(b[1..], st);
      ByteClean(b[0], st);
      CleanJoins(EncodeByte(b[0], st), Encode(b[1..], st));
    }
  }

  lemma ByteClean(x: Byte, st: Style)
    ensures Clean(EncodeByte(x, st))
  {
    var e := EncodeByte(x, st);
    if |e| == 3 {
      DigitIsHex(x / 16, st.upper);
      DigitIsHex(x % 16, st.upper);
      HexClean(e[1]);
      HexClean(e[2]);
    }
  }

  lemma CleanJoins(a: Bytes, b: Bytes)
    requires Clean(a) && Clean(b)
    ensures Clean(a + b)
  {
  }

  function FormPiece(p: Param, st: Style): Bytes { Encode(p.name, st) + ['=' as int] + Encode(p.value, st) }

  /** `name=value` for each parameter, with `&` between. */
  function Form(ps: seq<Param>, st: Style): Bytes {
    if ps == [] then []
    else FormPiece(ps[0], st) + if |ps| == 1 then [] else ['&' as int] + Form(ps[1..], st)
  }

  lemma PieceParam(p: Param, st: Style)
    ensures ParamOf(FormPiece(p, st)) == p
  {
    var n, v := Encode(p.name, st), Encode(p.value, st);
    var q := FormPiece(p, st);
    EncodeClean(p.name, st);
    assert q[|n|] == EQUALS && forall i | 0 <= i < |n| :: q[i] == n[i];
    FoundAt(q, EQUALS, |n|);
    assert q[..|n|] == n && q[|n| + 1..] == v;
    DecodeEncode(p.name, st);
    DecodeEncode(p.value, st);
  }

  lemma NoAmp(p: Param, st: Style)
    ensures forall i | 0 <= i < |FormPiece(p, st)| :: FormPiece(p, st)[i] != AMP
  {
    EncodeClean(p.name, st);
    EncodeClean(p.value, st);
  }

  lemma PieceEnds(p: Bytes, more: Bytes)
    requires (forall i | 0 <= i < |p| :: p[i] != AMP) && (more != [] ==> more[0] == AMP)
    ensures Piece(p + more) == p && Later(p + more) == if more == [] then [] else more[1..]
  {
    var q := p + more;
    assert forall i | 0 <= i < |p| :: q[i] == p[i];
    assert more != [] ==> q[|p|] == more[0];
    FoundAt(q, AMP, |p|);
    assert q[..|p|] == p;
  }

  lemma FirstPiece(ps: seq<Param>, st: Style)
    requires ps != []
    ensures Piece(Form(ps, st)) == FormPiece(ps[0], st)
    ensures Later(Form(ps, st)) == Form(ps[1..], st)
  {
    var p, q := FormPiece(ps[0], st), Form(ps, st);
    var more := if |ps| == 1 then [] else ['&' as int] + Form(ps[1..], st);
    NoAmp(ps[0], st);
    PieceEnds(p, more);
    assert q == p + more;
    if |ps| > 1 {
      assert more[1..] == Form(ps[1..], st);
    }
  }

  lemma ParamsStep(q: Bytes, piece: Bytes, later: Bytes, p: Param, more: seq<Param>)
    requires Piece(q) == piece != [] && Later(q) == later && ParamOf(piece) == p && Params(later) == more
    ensures Params(q) == [p] + more
  {
  }

  /** Any parameters, encoded and joined, come back as they were. */
  lemma {:induction false} FormRoundTrip(ps: seq<Param>, st: Style)
    ensures Params(Form(ps, st)) == ps
  {
    if ps != [] {
      FirstPiece(ps, st);
      PieceParam(ps[0], st);
      FormRoundTrip(ps[1..], st);
      ParamsStep(Form(ps, st), FormPiece(ps[0], st), Form(ps[1..], st), ps[0], ps[1..]);
      assert ps == [ps[0]] + ps[1..];
    }
  }

  // In a target

  /** The text has only bytes allowed in a target, and no `#`. */
  ghost predicate Sendable(q: Bytes) { forall i | 0 <= i < |q| :: Safe(q[i]) }

  lemma {:induction false} EncodeSendable(b: Bytes, st: Style)
    requires forall c | c in st.keep :: Safe(c) || c as char == ' '
    ensures Sendable(Encode(b, st))
  {
    if b != [] {
      EncodeSendable(b[1..], st);
      DigitIsHex(b[0] / 16, st.upper);
      DigitIsHex(b[0] % 16, st.upper);
      assert Sendable(EncodeByte(b[0], st));
    }
  }

  lemma {:induction false} FormSendable(ps: seq<Param>, st: Style)
    requires forall c | c in st.keep :: Safe(c) || c as char == ' '
    ensures Sendable(Form(ps, st))
  {
    if ps != [] {
      EncodeSendable(ps[0].name, st);
      EncodeSendable(ps[0].value, st);
      if |ps| > 1 {
        FormSendable(ps[1..], st);
      }
    }
  }

  function Target(path: Bytes, ps: seq<Param>, st: Style): Bytes { path + ['?' as int] + Form(ps, st) }

  lemma TargetQuery(path: Bytes, ps: seq<Param>, st: Style)
    requires path != [] && path[0] as char == '/' && Sendable(path)
    requires forall c | c in st.keep :: Safe(c) || c as char == ' '
    ensures QueryOf(Target(path, ps, st)) == Form(ps, st)
  {
    FormSendable(ps, st);
    QueryAfter(path, Form(ps, st));
  }

  lemma QueryAfter(path: Bytes, q: Bytes)
    requires path != [] && path[0] as char == '/' && Sendable(path) && Sendable(q)
    ensures QueryOf(path + ['?' as int] + q) == q
  {
    var t := path + ['?' as int] + q;
    assert t[0] == path[0] && t[|path|] == QUESTION && forall i | 0 <= i < |path| :: t[i] == path[i];
    assert forall i | |path| < i < |t| :: t[i] == q[i - |path| - 1];
    FoundAt(t, HASH, |t|);
    assert t[..|t|] == t;
    FoundAt(t, QUESTION, |path|);
    assert t[|path| + 1..] == q;
  }

  /** Whatever parameters a sender puts in a target, `make_info` finds. */
  method SendAndParse(path: Bytes, params: seq<Param>, st: Style) returns (qurl: Bytes, ps: seq<Span>)
    requires path != [] && path[0] as char == '/' && Sendable(path)
    requires forall c | c in st.keep :: Safe(c) || c as char == ' '
    ensures ReadSpans(qurl, ps) == params
  {
    var f;
    f, qurl, ps := MakeInfo(Target(path, params, st));
    TargetQuery(path, params, st);
    FormRoundTrip(params, st);
  }
}
