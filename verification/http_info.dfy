/** `http_message::make_info`: the parts of a request target, and its search parameters as offsets into
    one decoded buffer. */
module HttpInfo {
  import opened Basics
  import opened QuerySpec

  /** A parameter as offsets of its name and its value into the decoded buffer. */
  datatype Span = Span(name: nat, nameEnd: nat, value: nat, valueEnd: nat)

  function Slice(text: Bytes, a: nat, b: nat): Bytes { if a <= b <= |text| then text[a..b] else [] }

  function ReadSpan(text: Bytes, p: Span): Param {
    Param(Slice(text, p.name, p.nameEnd), Slice(text, p.value, p.valueEnd))
  }

  /** The parameters that offsets stand for. */
  function ReadSpans(text: Bytes, ps: seq<Span>): seq<Param> {
    seq(|ps|, i requires 0 <= i < |ps| => ReadSpan(text, ps[i]))
  }

  predicate Inside(p: Span, n: nat) { p.name <= p.nameEnd <= n && p.value <= p.valueEnd <= n }

  ghost predicate AllInside(ps: seq<Span>, n: nat) { forall i | 0 <= i < |ps| :: Inside(ps[i], n) }

  /** Text appended later does not change what offsets stand for. */
  lemma ReadGrows(text: Bytes, more: Bytes, ps: seq<Span>)
    requires AllInside(ps, |text|)
    ensures ReadSpans(text + more, ps) == ReadSpans(text, ps) && AllInside(ps, |text + more|)
  {
    forall i | 0 <= i < |ps| ensures ReadSpan(text + more, ps[i]) == ReadSpan(text, ps[i]) {
      assert Inside(ps[i], |text|);
      var p := ps[i];
      assert (text + more)[p.name..p.nameEnd] == text[p.name..p.nameEnd];
      assert (text + more)[p.value..p.valueEnd] == text[p.value..p.valueEnd];
    }
  }

  // The state of the scan

  function NameSoFar(mode: Mode, text: Bytes, nstart: nat, nend: nat): Bytes {
    if mode.Fresh? then [] else if mode.InName? then Slice(text, nstart, |text|) else Slice(text, nstart, nend)
  }

  function ValueSoFar(mode: Mode, text: Bytes, vstart: nat): Bytes {
    if mode.InValue? then Slice(text, vstart, |text|) else []
  }

  /** Finished parameters, then what the scan will make of the current piece and the bytes to come. */
  ghost predicate ScanInv(
    want: seq<Param>, text: Bytes, mode: Mode, nstart: nat, nend: nat, vstart: nat, ps: seq<Span>, rest: Bytes) {
    && AllInside(ps, |text|) && nstart <= |text| && (mode.Fresh? ==> nstart == |text|)
    && (mode.InValue? ==> nstart <= nend && vstart == nend + 1 <= |text|)
    && want ==
       ReadSpans(text, ps) + Scan(mode, NameSoFar(mode, text, nstart, nend), ValueSoFar(mode, text, vstart), rest)
  }

  /** The span of the current piece when it ends here. */
  function Ended(mode: Mode, text: Bytes, nstart: nat, nend: nat, vstart: nat): Span {
    if mode.InName? then Span(nstart, |text|, |text|, |text|) else Span(nstart, nend, vstart, |text|)
  }

  lemma EndedReads(mode: Mode, text: Bytes, nstart: nat, nend: nat, vstart: nat)
    requires !mode.Fresh? && nstart <= |text| && (mode.InValue? ==> nstart <= nend && vstart == nend + 1 <= |text|)
    ensures Inside(Ended(mode, text, nstart, nend, vstart), |text|)
    ensures ReadSpan(text, Ended(mode, text, nstart, nend, vstart))
         == Param(NameSoFar(mode, text, nstart, nend), ValueSoFar(mode, text, vstart))
  {
  }

  lemma ReadAppended(text: Bytes, ps: seq<Span>, p: Span)
    ensures ReadSpans(text, ps + [p]) == ReadSpans(text, ps) + [ReadSpan(text, p)]
  {
  }

  function EndedAll(mode: Mode, text: Bytes, nstart: nat, nend: nat, vstart: nat, ps: seq<Span>): seq<Span> {
    if mode.Fresh? then ps else ps + [Ended(mode, text, nstart, nend, vstart)]
  }

  lemma StepAmp(
    want: seq<Param>, text: Bytes, mode: Mode, nstart: nat, nend: nat, vstart: nat, ps: seq<Span>, rest: Bytes, n: nat,
    v: nat)
    requires ScanInv(want, text, mode, nstart, nend, vstart, ps, rest) && rest != [] && rest[0] == AMP
    ensures var ps' := EndedAll(mode, text, nstart, nend, vstart, ps);
            ScanInv(want, text + [AMP], Fresh, |text| + 1, n, v, ps', rest[1..])
  {
    var ps' := EndedAll(mode, text, nstart, nend, vstart, ps);
    if !mode.Fresh? {
      EndedReads(mode, text, nstart, nend, vstart);
      ReadAppended(text, ps, Ended(mode, text, nstart, nend, vstart));
    }
    ReadGrows(text, [AMP], ps');
  }

  lemma StepEquals(
    want: seq<Param>, text: Bytes, mode: Mode, nstart: nat, nend: nat, vstart: nat, ps: seq<Span>, rest: Bytes)
    requires ScanInv(want, text, mode, nstart, nend, vstart, ps, rest) && rest != [] && rest[0] == EQUALS
    requires !mode.InValue?
    ensures ScanInv(want, text + [EQUALS], InValue, nstart, |text|, |text| + 1, ps, rest[1..])
  {
    ReadGrows(text, [EQUALS], ps);
    assert NameSoFar(InValue, text + [EQUALS], nstart, |text|) == NameSoFar(mode, text, nstart, nend);
    assert ValueSoFar(InValue, text + [EQUALS], |text| + 1) == [];
  }

  lemma StepSymbol(
    want: seq<Param>, text: Bytes, mode: Mode, nstart: nat, nend: nat, vstart: nat, ps: seq<Span>, rest: Bytes)
    requires ScanInv(want, text, mode, nstart, nend, vstart, ps, rest)
    requires rest != [] && rest[0] != AMP && (rest[0] == EQUALS ==> mode.InValue?)
    ensures var mode' := if mode.InValue? then InValue else InName;
            ScanInv(want, text + [Symbol(rest)], mode', nstart, nend, vstart, ps, rest[Width(rest)..])
  {
    var x := Symbol(rest);
    ReadGrows(text, [x], ps);
    if mode.InValue? {
      assert NameSoFar(InValue, text + [x], nstart, nend) == NameSoFar(mode, text, nstart, nend);
      assert ValueSoFar(InValue, text + [x], vstart) == ValueSoFar(mode, text, vstart) + [x];
    } else {
      assert NameSoFar(InName, text + [x], nstart, nend) == NameSoFar(mode, text, nstart, nend) + [x];
    }
  }

  lemma StepEnd(want: seq<Param>, text: Bytes, mode: Mode, nstart: nat, nend: nat, vstart: nat, ps: seq<Span>)
    requires ScanInv(want, text, mode, nstart, nend, vstart, ps, [])
    ensures ReadSpans(text, EndedAll(mode, text, nstart, nend, vstart, ps)) == want
    ensures AllInside(EndedAll(mode, text, nstart, nend, vstart, ps), |text|)
  {
    if !mode.Fresh? {
      EndedReads(mode, text, nstart, nend, vstart);
      ReadAppended(text, ps, Ended(mode, text, nstart, nend, vstart));
    }
  }

  /** A byte of the target, or the terminator that follows it. */
  function At(url: Bytes, i: nat): Byte { if i < |url| then url[i] else 0 }

  /** The test looks one byte past the query, which is `#` or the terminator and never a hex digit, so
      it holds exactly when a whole escape is left. */
  lemma EscapeTest(url: Bytes, s: nat, end: nat)
    requires s < end <= |url| && (end < |url| ==> url[end] == HASH)
    ensures url[s] == PERCENT && end - s >= 2 && Hex(At(url, s + 1)) && Hex(At(url, s + 2)) <==> Escape(url[s..end])
    ensures Escape(url[s..end]) ==>
              s + 3 <= end && HexPair(url[s..end][1], url[s..end][2]) == HexPair(url[s + 1], url[s + 2])
  {
  }

  lemma Unflushed(qurl: Bytes, url: Bytes, last: nat, s: nat)
    requires last <= s < |url|
    ensures qurl + url[last..s] + [url[s]] == qurl + url[last..s + 1]
  {
    assert url[last..s + 1] == url[last..s] + [url[s]];
  }

  /** Decode the symbol at `s` into the text, flushing the buffer only if the symbol is not itself. */
  method Emit(url: Bytes, end: nat, qurl: Bytes, last: nat, s: nat) returns (qurl': Bytes, last': nat, s': nat)
    requires last <= s < end <= |url| && (end < |url| ==> url[end] == HASH)
    ensures last <= last' <= s' <= end && s' == s + Width(url[s..end])
    ensures qurl' + url[last'..s'] == qurl + url[last..s] + [Symbol(url[s..end])]
    ensures url[s'..end] == url[s..end][Width(url[s..end])..]
  {
    EscapeTest(url, s, end);
    Unflushed(qurl, url, last, s);
    qurl', last', s' := qurl, last, s;
    if url[s] == PERCENT && end - s >= 2 && Hex(At(url, s + 1)) && Hex(At(url, s + 2)) {
      qurl' := qurl + url[last..s] + [HexPair(url[s + 1], url[s + 2])];
      s' := s + 3;
      last' := s';
      assert qurl' + url[last'..s'] == qurl';
    } else if url[s] == PLUS {
      qurl' := qurl + url[last..s] + [SPACE];
      s' := s + 1;
      last' := s';
      assert qurl' + url[last'..s'] == qurl';
    } else {
      s' := s + 1;
    }
  }

  /** The scanner's variables: positions in the target, offsets into the text, text and spans so far. */
  datatype Cursor = Cursor(s: nat, last: nat, mode: Mode, nstart: nat, nend: nat, vstart: nat, qurl: Bytes,
    ps: seq<Span>)

  ghost predicate Good(url: Bytes, end: nat, want: seq<Param>, c: Cursor) {
    && c.last <= c.s <= end <= |url|
    && ScanInv(want, c.qurl + url[c.last..c.s], c.mode, c.nstart, c.nend, c.vstart, c.ps, url[c.s..end])
  }

  /** The offset in the text, flushed or not, of the next symbol. */
  function Here(c: Cursor): nat
    requires c.last <= c.s
  { |c.qurl| + c.s - c.last }

  /** The span recorded when a piece ends at offset `here`. */
  function Close(c: Cursor, here: nat): Span {
    if c.mode.InName? then Span(c.nstart, here, here, here) else Span(c.nstart, c.nend, c.vstart, here)
  }

  /** What the cursor sees moves on by one byte, which joins the text. */
  lemma Moved(url: Bytes, end: nat, c: Cursor)
    requires c.last <= c.s < end <= |url|
    ensures c.qurl + url[c.last..c.s + 1] == c.qurl + url[c.last..c.s] + [url[c.s]]
    ensures url[c.s + 1..end] == url[c.s..end][1..] && url[c.s..end][0] == url[c.s]
    ensures |c.qurl + url[c.last..c.s]| == Here(c)
  {
    Unflushed(c.qurl, url, c.last, c.s);
  }

  lemma GoodFrom(url: Bytes, end: nat, want: seq<Param>, d: Cursor, text: Bytes, rest: Bytes)
    requires d.last <= d.s <= end <= |url| && d.qurl + url[d.last..d.s] == text && url[d.s..end] == rest
    requires ScanInv(want, text, d.mode, d.nstart, d.nend, d.vstart, d.ps, rest)
    ensures Good(url, end, want, d)
  {
  }

  method ScanAmp(url: Bytes, end: nat, c: Cursor, ghost want: seq<Param>) returns (d: Cursor)
    requires Good(url, end, want, c) && c.s < end && url[c.s] == AMP
    ensures Good(url, end, want, d) && d.s == c.s + 1
  {
    ghost var text, rest := c.qurl + url[c.last..c.s], url[c.s..end];
    Moved(url, end, c);
    var ps := if c.mode.Fresh? then c.ps else c.ps + [Close(c, Here(c))];
    d := c.(s := c.s + 1, mode := Fresh, ps := ps, nstart := Here(c) + 1, nend := Here(c) + 1);
    StepAmp(want, text, c.mode, c.nstart, c.nend, c.vstart, c.ps, rest, d.nend, d.vstart);
    GoodFrom(url, end, want, d, text + [AMP], rest[1..]);
  }

  lemma EqualsKeeps(c: Cursor, text: Bytes, rest: Bytes, want: seq<Param>)
    requires ScanInv(want, text, c.mode, c.nstart, c.nend, c.vstart, c.ps, rest)
    requires c.last <= c.s && |text| == Here(c)
    requires rest != [] && rest[0] == EQUALS && !c.mode.InValue?
    ensures ScanInv(want, text + [EQUALS], InValue, c.nstart, Here(c), Here(c) + 1, c.ps, rest[1..])
  {
    StepEquals(want, text, c.mode, c.nstart, c.nend, c.vstart, c.ps, rest);
  }

  method ScanEquals(url: Bytes, end: nat, c: Cursor, ghost want: seq<Param>) returns (d: Cursor)
    requires Good(url, end, want, c) && c.s < end && url[c.s] == EQUALS && !c.mode.InValue?
    ensures Good(url, end, want, d) && d.s == c.s + 1
  {
    ghost var text, rest := c.qurl + url[c.last..c.s], url[c.s..end];
    Moved(url, end, c);
    EqualsKeeps(c, text, rest, want);
    d := c.(s := c.s + 1, mode := InValue, nend := Here(c), vstart := Here(c) + 1);
    GoodFrom(url, end, want, d, text + [EQUALS], rest[1..]);
  }

  method ScanSymbol(url: Bytes, end: nat, c: Cursor, ghost want: seq<Param>) returns (d: Cursor)
    requires Good(url, end, want, c) && c.s < end && url[c.s] != AMP && (url[c.s] == EQUALS ==> c.mode.InValue?)
    requires end < |url| ==> url[end] == HASH
    ensures Good(url, end, want, d) && d.s > c.s
  {
    ghost var text, rest := c.qurl + url[c.last..c.s], url[c.s..end];
    StepSymbol(want, text, c.mode, c.nstart, c.nend, c.vstart, c.ps, rest);
    var qurl, last, s := Emit(url, end, c.qurl, c.last, c.s);
    d := c.(s := s, last := last, qurl := qurl, mode := if c.mode.Fresh? then InName else c.mode);
  }

  method ScanStep(url: Bytes, end: nat, c: Cursor, ghost want: seq<Param>) returns (d: Cursor)
    requires Good(url, end, want, c) && c.s < end && (end < |url| ==> url[end] == HASH)
    ensures Good(url, end, want, d) && d.s > c.s
  {
    if url[c.s] == AMP {
      d := ScanAmp(url, end, c, want);
    } else if url[c.s] == EQUALS && !c.mode.InValue? {
      d := ScanEquals(url, end, c, want);
    } else {
      d := ScanSymbol(url, end, c, want);
    }
  }

  lemma ScanEnds(url: Bytes, end: nat, want: seq<Param>, c: Cursor)
    requires Good(url, end, want, c) && c.s == end
    ensures var qurl := c.qurl + url[c.last..c.s];
            var ps := if c.mode.Fresh? then c.ps else c.ps + [Close(c, |qurl|)];
            ReadSpans(qurl, ps) == want && AllInside(ps, |qurl|)
  {
    assert url[c.s..end] == [];
    StepEnd(want, c.qurl + url[c.last..c.s], c.mode, c.nstart, c.nend, c.vstart, c.ps);
  }

  method ScanFrom(url: Bytes, end: nat, start: Cursor, ghost want: seq<Param>) returns (qurl: Bytes, ps: seq<Span>)
    requires Good(url, end, want, start) && (end < |url| ==> url[end] == HASH)
    ensures ReadSpans(qurl, ps) == want && AllInside(ps, |qurl|)
  {
    var c := start;
    while c.s != end
      invariant Good(url, end, want, c)
      decreases end - c.s
    {
      c := ScanStep(url, end, c, want);
    }
    ScanEnds(url, end, want, c);
    qurl := c.qurl + url[c.last..c.s];
    ps := if c.mode.Fresh? then c.ps else c.ps + [Close(c, |qurl|)];
  }

  // The parts of the target

  datatype Part = Part(first: nat, second: nat)

  /** The characters allowed in a target, besides `?` and `#`: letters, digits and some punctuation. */
  predicate Safe(c: Byte) {
    48 <= c <= 57 || 65 <= c <= 90 || 97 <= c <= 122 || c == 33 || 36 <= c <= 47 || c == 58 || c == 59 || c == 61
      || c == 64
    || 91 <= c <= 96 || 123 <= c <= 126
  }

  /** Letters, digits and the listed punctuation, and nothing else. */
  lemma SafeMeans(c: Byte)
    ensures Safe(c) <==>
            || '0' <= c as char <= '9' || 'A' <= c as char <= 'Z' || 'a' <= c as char <= 'z'
            || c as char in "!$%&'()*+,-./:;=@[\\]^_`{|}~"
  {
  }

  predicate Allowed(url: Bytes) {
    url != [] && url[0] == SLASH && forall i | 0 <= i < |url| :: Safe(url[i]) || url[i] == QUESTION || url[i] == HASH
  }

  /** Where the fragment starts, and where the query does: at the first `?` before the fragment. */
  function FragmentAt(url: Bytes): nat { Find(url, HASH) }

  function QueryAt(url: Bytes): nat { Find(url[..FragmentAt(url)], QUESTION) }

  /** Path, query with its `?`, fragment with its `#`; all empty for a malformed target. */
  function PartsOf(url: Bytes): seq<Part> {
    if Allowed(url) then [Part(0, QueryAt(url)), Part(QueryAt(url), FragmentAt(url)), Part(FragmentAt(url), |url|)]
    else [Part(0, 0), Part(0, 0), Part(0, 0)]
  }

  /** The parts of a target, by its bytes: they follow one another, the fragment starts at the first `#` and
      the query at the first `?` before that; a target that does not start with `/`, or has a byte that is
      not allowed, has none. */
  lemma PartsMeans(url: Bytes)
    ensures |PartsOf(url)| == 3
    ensures var p := PartsOf(url);
            if url != [] && url[0] as char == '/'
               && forall i | 0 <= i < |url| :: Safe(url[i]) || url[i] as char == '?' || url[i] as char == '#'
            then
              && p[0].first == 0 && p[0].second == p[1].first <= p[1].second == p[2].first <= p[2].second == |url|
              && (forall i | 0 <= i < p[2].first :: url[i] as char != '#')
              && (p[2].first < |url| ==> url[p[2].first] as char == '#')
              && (forall i | 0 <= i < p[1].first :: url[i] as char != '?')
              && (p[1].first < p[2].first ==> url[p[1].first] as char == '?')
            else p == [Part(0, 0), Part(0, 0), Part(0, 0)]
  {
    var h := FragmentAt(url);
    assert forall i | 0 <= i < QueryAt(url) :: url[..h][i] == url[i];
  }

  /** Parts `fpos` up to `upTo` end at position `at`, each starting where the one before ends. */
  ghost predicate EndedParts(f: seq<Part>, fpos: nat, upTo: nat, at: nat, g: seq<Part>) {
    && |f| == 3 && |g| == 3
    && g[0] == (if fpos <= 0 < upTo then Part(0, at) else f[0])
    && g[1] == (if fpos <= 1 < upTo then Part(g[0].second, at) else f[1])
    && g[2] == (if fpos <= 2 < upTo then Part(g[1].second, at) else f[2])
  }

  method EndParts(f: seq<Part>, fpos: nat, upTo: nat, at: nat) returns (g: seq<Part>)
    requires |f| == 3 && fpos <= upTo <= 3
    ensures EndedParts(f, fpos, upTo, at, g)
  {
    g := f;
    var i := fpos;
    while i < upTo
      invariant fpos <= i <= upTo && EndedParts(f, fpos, i, at, g)
    {
      g := g[i := Part(if i > 0 then g[i - 1].second else 0, at)];
      i := i + 1;
    }
  }

  /** What is known when the scan has passed the first `s` bytes and ended `fpos` parts. */
  ghost predicate SplitInv(url: Bytes, f: seq<Part>, fpos: nat, s: nat) {
    && s <= |url| && |f| == 3 && fpos <= 2
    && (forall i | 0 <= i < s :: Safe(url[i]) || url[i] == QUESTION || url[i] == HASH)
    && (fpos < 2 ==> forall i | 0 <= i < s :: url[i] != HASH)
    && (fpos == 0 ==> forall i | 0 <= i < s :: url[i] != QUESTION)
    && (fpos >= 1 ==>
          && f[0] == Part(0, f[0].second) && f[0].second <= s
          && forall i | 0 <= i < f[0].second :: url[i] != QUESTION && url[i] != HASH)
    && (fpos == 1 ==> f[0].second < s && url[f[0].second] == QUESTION)
    && (fpos == 2 ==> f[1] == Part(f[0].second, FragmentAt(url)) && FragmentAt(url) < s && f[0].second == QueryAt(url))
  }

  lemma SplitAtHash(url: Bytes, f: seq<Part>, fpos: nat, s: nat, g: seq<Part>)
    requires SplitInv(url, f, fpos, s) && s < |url| && url[s] == HASH && fpos < 2 && EndedParts(f, fpos, 2, s, g)
    ensures SplitInv(url, g, 2, s + 1)
  {
    FoundAt(url, HASH, s);
    FoundAt(url[..s], QUESTION, g[0].second);
  }

  lemma SplitDone(url: Bytes, f: seq<Part>, fpos: nat, g: seq<Part>)
    requires SplitInv(url, f, fpos, |url|) && url != [] && url[0] == SLASH && EndedParts(f, fpos, 3, |url|, g)
    ensures g == PartsOf(url)
  {
    if fpos < 2 {
      FoundAt(url, HASH, |url|);
      assert url[..|url|] == url;
      FoundAt(url, QUESTION, g[0].second);
    }
  }

  /** Split a target in one pass; a character that is not allowed empties all parts. */
  method SplitUrl(url: Bytes) returns (f: seq<Part>)
    ensures f == PartsOf(url)
  {
    var blank := [Part(0, 0), Part(0, 0), Part(0, 0)];
    f := blank;
    if url == [] || url[0] != SLASH {
      return;
    }
    var fpos, s := 0, 0;
    while s != |url|
      invariant SplitInv(url, f, fpos, s)
      decreases |url| - s
    {
      if Safe(url[s]) {
        s := s + 1;
      } else if url[s] == QUESTION {
        if fpos == 0 {
          f, fpos := f[0 := Part(0, s)], 1;
        }
        s := s + 1;
      } else if url[s] == HASH {
        if fpos < 2 {
          var g := EndParts(f, fpos, 2, s);
          SplitAtHash(url, f, fpos, s, g);
          f, fpos := g, 2;
        }
        s := s + 1;
      } else {
        return blank;
      }
    }
    var g := EndParts(f, fpos, 3, s);
    SplitDone(url, f, fpos, g);
    f := g;
  }

  function Between(url: Bytes, p: Part): Bytes {
    if p.first < p.second <= |url| then url[p.first + 1..p.second] else []
  }

  /** The query of a target, without its `?`. */
  function QueryOf(url: Bytes): Bytes { Between(url, PartsOf(url)[1]) }

  lemma QueryBounds(url: Bytes)
    ensures var p := PartsOf(url)[1];
            p.first <= p.second <= |url| && (p.first < p.second < |url| ==> url[p.second] == HASH)
  {
  }

  lemma ScanStarts(url: Bytes, p: Part)
    requires p.first <= p.second <= |url|
    ensures p.first == p.second ==> Params(Between(url, p)) == []
    ensures p.first < p.second ==>
              Good(url, p.second, Params(Between(url, p)), Cursor(p.first + 1, p.first + 1, Fresh, 0, 0, 0, [], []))
  {
    var q, want := Between(url, p), Params(Between(url, p));
    if p.first < p.second {
      var c := Cursor(p.first + 1, p.first + 1, Fresh, 0, 0, 0, [], []);
      NothingScanned(q);
      assert c.qurl + url[c.last..c.s] == [] && url[c.s..p.second] == q;
      GoodFrom(url, p.second, want, c, [], q);
    }
  }

  lemma NothingScanned(q: Bytes)
    ensures ScanInv(Params(q), [], Fresh, 0, 0, 0, [], q)
  {
    ScanFresh(q);
    assert ReadSpans([], []) + Scan(Fresh, [], [], q) == Scan(Fresh, [], [], q);
  }

  /** Scan the query in one pass, with a buffer flushed only where decoding changes something. The
      offsets stand for exactly the parameters of the query. */
  method ScanQuery(url: Bytes, p: Part) returns (qurl: Bytes, ps: seq<Span>)
    requires p.first <= p.second <= |url| && (p.first < p.second < |url| ==> url[p.second] == HASH)
    ensures ReadSpans(qurl, ps) == Params(Between(url, p)) && AllInside(ps, |qurl|)
  {
    ScanStarts(url, p);
    if p.first != p.second {
      qurl, ps := ScanFrom(url, p.second, Cursor(p.first + 1, p.first + 1, Fresh, 0, 0, 0, [], []),
        Params(Between(url, p)));
    } else {
      qurl, ps := [], [];
    }
  }

  /** The parameters of a target: from its first `?` before any `#`, up to that `#`. */
  method MakeInfo(url: Bytes) returns (f: seq<Part>, qurl: Bytes, ps: seq<Span>)
    ensures f == PartsOf(url)
    ensures ReadSpans(qurl, ps) == Params(QueryOf(url)) && AllInside(ps, |qurl|)
  {
    f := SplitUrl(url);
    QueryBounds(url);
    qurl, ps := ScanQuery(url, f[1]);
  }

  /** Look a parameter up: the value of the first with this name. */
  method SearchParam(qurl: Bytes, ps: seq<Span>, name: Bytes) returns (found: bool, value: Bytes)
    ensures found <==> exists i :: 0 <= i < |ps| && ReadSpans(qurl, ps)[i].name == name
    ensures found ==> exists i :: 0 <= i < |ps| && ReadSpans(qurl, ps)[i] == Param(name, value)
                                   && forall j | 0 <= j < i :: ReadSpans(qurl, ps)[j].name != name
    ensures !found ==> value == []
  {
    var i := 0;
    while i < |ps|
      invariant 0 <= i <= |ps| && forall j | 0 <= j < i :: ReadSpans(qurl, ps)[j].name != name
    {
      assert ReadSpans(qurl, ps)[i] == ReadSpan(qurl, ps[i]);
      if Slice(qurl, ps[i].name, ps[i].nameEnd) == name {
        return true, Slice(qurl, ps[i].value, ps[i].valueEnd);
      }
      i := i + 1;
    }
    return false, [];
  }
}
