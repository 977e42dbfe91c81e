/** Length-prefixed messages on a byte stream: what a frame is, and what a receiver makes of the bytes
    it has so far. */
module Framing {
  import opened Basics

  const WRAP: nat := 0x1_0000_0000

  /** The bytes of an unsigned 32-bit number, least significant first. */
  function Encode32(n: nat): (b: Bytes)
    requires n < WRAP
    ensures |b| == 4
  { [n % 256, n / 256 % 256, n / 65536 % 256, n / 16777216] }

  function Decode32(b: Bytes): (n: nat)
    requires |b| >= 4
    ensures n < WRAP
  { b[0] as int + 256 * (b[1] as int) + 65536 * (b[2] as int) + 16777216 * (b[3] as int) }

  lemma LengthRoundTrip(n: nat, rest: Bytes)
    requires n < WRAP
    ensures Decode32(Encode32(n) + rest) == n
  {
    assert n == n % 256 + 256 * (n / 256);
    assert n / 256 == n / 256 % 256 + 256 * (n / 65536) by { Quarter(n); }
    assert n / 65536 == n / 65536 % 256 + 256 * (n / 16777216) by { Quarter(n); }
  }

  lemma Quarter(n: nat)
    ensures n / 65536 == n / 256 / 256 && n / 16777216 == n / 65536 / 256
  {
  }

  /** A message as `send` lays it out. */
  function Frame(m: Bytes): Bytes
    requires |m| < WRAP
  { Encode32(|m|) + m }

  /** Its bytes: the length, least significant byte first, and the message. */
  lemma FrameBytes(m: Bytes)
    requires |m| < WRAP
    ensures |Frame(m)| == |m| + 4 && Frame(m)[4..] == m
    ensures Frame(m)[0] == |m| % 0x100 && Frame(m)[1] == |m| / 0x100 % 0x100
    ensures Frame(m)[2] == |m| / 0x1_0000 % 0x100 && Frame(m)[3] == |m| / 0x100_0000 % 0x100
  {
  }

  /** What `recv` finds in the bytes received so far. `Broken` is a frame whose length does not fit:
      the sum with the size of the prefix wraps around. */
  datatype Received = Incomplete | Broken | Message(data: Bytes, rest: Bytes)

  /** `first_message_length`: the prefix plus four in 32-bit arithmetic. */
  function FirstLength(b: Bytes): nat
    requires |b| >= 4
  { (Decode32(b) + 4) % WRAP }

  function Receive(b: Bytes): Received {
    if |b| < 4 || FirstLength(b) > |b| then Incomplete
    else if FirstLength(b) < 4 then Broken
    else Message(b[4..FirstLength(b)], b[FirstLength(b)..])
  }

  /** Four bytes or more: the length can be read. */
  lemma FrameLength(m: Bytes, more: Bytes)
    requires |m| < WRAP
    ensures FirstLength(Frame(m) + more) == if |m| + 4 < WRAP then |m| + 4 else |m| + 4 - WRAP
  {
    LengthRoundTrip(|m|, m + more);
    assert Frame(m) + more == Encode32(|m|) + (m + more);
  }

  /** A frame comes out as the message that went in exactly when its length plus four fits 32 bits. */
  lemma FrameRoundTrip(m: Bytes, more: Bytes)
    requires |m| < WRAP
    ensures Receive(Frame(m) + more) == Message(m, more) <==> |m| + 4 < WRAP
    ensures |m| + 4 >= WRAP ==> Receive(Frame(m) + more) == Broken
  {
    FrameLength(m, more);
    var b := Frame(m) + more;
    assert b == Encode32(|m|) + m + more;
    if |m| + 4 < WRAP {
      assert b[4..|m| + 4] == m && b[|m| + 4..] == more;
    }
  }

  predicate Fits(m: Bytes) { |m| + 4 < WRAP }

  predicate AllFit(ms: seq<Bytes>) { forall i | 0 <= i < |ms| :: Fits(ms[i]) }

  /** The byte stream of several messages. */
  function Frames(ms: seq<Bytes>): Bytes
    requires AllFit(ms)
  { if ms == [] then [] else Frame(ms[0]) + Frames(ms[1..]) }

  lemma {:induction false} FramesAppend(ms: seq<Bytes>, m: Bytes)
    requires Fits(m) && AllFit(ms)
    ensures Frames(ms + [m]) == Frames(ms) + Frame(m)
  {
    if ms == [] {
      assert [m][1..] == [];
    } else {
      assert (ms + [m])[1..] == ms[1..] + [m];
      FramesAppend(ms[1..], m);
    }
  }

  /** Bytes still to come do not change what the bytes at hand say. */
  lemma ReceivePrefix(got: Bytes, more: Bytes)
    ensures |got| >= 4 ==> FirstLength(got) == FirstLength(got + more)
    ensures Receive(got).Message? ==>
              && Receive(got + more).Message? && Receive(got + more).data == Receive(got).data
              && Receive(got + more).rest == Receive(got).rest + more
    ensures Receive(got).Broken? ==> Receive(got + more).Broken?
  {
    var all := got + more;
    if |got| >= 4 {
      assert Decode32(got) == Decode32(all);
      var n := FirstLength(got);
      if 4 <= n <= |got| {
        assert got[4..n] == all[4..n];
        assert got[n..] + more == all[n..];
      }
    }
  }

  /** Whatever part of the stream has arrived, `recv` waits, or returns the next message and leaves
      what has arrived of the rest; it waits only for bytes of that message. */
  lemma ReceiveNext(ms: seq<Bytes>, got: Bytes, more: Bytes)
    requires AllFit(ms) && got + more == Frames(ms)
    ensures Receive(got).Incomplete? || (ms != [] && Receive(got).Message? && Receive(got).data == ms[0])
    ensures Receive(got).Message? ==> ms != [] && Receive(got).rest + more == Frames(ms[1..])
    ensures ms != [] && |got| >= |ms[0]| + 4 ==> Receive(got).Message?
  {
    ReceivePrefix(got, more);
    if ms != [] {
      FrameLength(ms[0], Frames(ms[1..]));
      FrameRoundTrip(ms[0], Frames(ms[1..]));
    }
  }

  // Runs

  /** Both ends of a connection: bytes buffered at the sender, bytes in the kernel, bytes buffered at
      the receiver; `sent` and `received` are history. */
  datatype Pipe = Pipe(out: Bytes, wire: Bytes, into: Bytes, sent: seq<Bytes>, received: seq<Bytes>)

  datatype Action =
    | Send(m: Bytes)      // the sender queues a message
    | Write(n: nat)       // `write` takes some bytes
    | Read(n: nat)        // `read` gives some bytes
    | Recv                // the receiver asks for a message

  predicate Enabled(p: Pipe, a: Action) {
    match a
    case Send(m) => Fits(m)
    case Write(n) => n <= |p.out|
    case Read(n) => n <= |p.wire|
    case Recv => true
  }

  function Apply(p: Pipe, a: Action): Pipe
    requires Enabled(p, a)
  {
    match a
    case Send(m) => p.(out := p.out + Frame(m), sent := p.sent + [m])
    case Write(n) => p.(out := p.out[n..], wire := p.wire + p.out[..n])
    case Read(n) => p.(wire := p.wire[n..], into := p.into + p.wire[..n])
    case Recv =>
      match Receive(p.into)
      case Message(data, rest) => p.(into := rest, received := p.received + [data])
      case _ => p
  }

  ghost predicate StepAt(run: seq<Pipe>, k: nat)
    requires k + 1 < |run|
  { exists a :: Enabled(run[k], a) && run[k + 1] == Apply(run[k], a) }

  ghost predicate IsRun(run: seq<Pipe>) {
    |run| > 0 && run[0] == Pipe([], [], [], [], []) && forall k :: 0 <= k < |run| - 1 ==> StepAt(run, k)
  }

  /** What has been received is a prefix of what was sent, and what is on the way is the rest. */
  ghost predicate Inv(p: Pipe) {
    && AllFit(p.sent) && |p.received| <= |p.sent| && p.received == p.sent[..|p.received|]
    && p.into + p.wire + p.out == Frames(p.sent[|p.received|..])
  }

  lemma SendKeeps(p: Pipe, m: Bytes)
    requires Inv(p) && Fits(m)
    ensures Inv(Apply(p, Send(m)))
  {
    var k := |p.received|;
    FramesAppend(p.sent[k..], m);
    assert (p.sent + [m])[k..] == p.sent[k..] + [m];
    assert p.into + p.wire + (p.out + Frame(m)) == p.into + p.wire + p.out + Frame(m);
    assert (p.sent + [m])[..k] == p.sent[..k];
  }

  lemma MoveKeeps(p: Pipe, a: Action)
    requires Inv(p) && Enabled(p, a) && (a.Write? || a.Read?)
    ensures Inv(Apply(p, a))
  {
    var t := Apply(p, a);
    assert t.into + t.wire + t.out == p.into + p.wire + p.out;
  }

  lemma RecvKeeps(p: Pipe)
    requires Inv(p)
    ensures Inv(Apply(p, Recv))
  {
    var k := |p.received|;
    assert p.into + (p.wire + p.out) == p.into + p.wire + p.out;
    ReceiveNext(p.sent[k..], p.into, p.wire + p.out);
    if Receive(p.into).Message? {
      var rest := Receive(p.into).rest;
      assert p.sent[k..][1..] == p.sent[k + 1..];
      assert rest + p.wire + p.out == rest + (p.wire + p.out);
      assert p.sent[..k + 1] == p.sent[..k] + [p.sent[k]];
    }
  }

  lemma StepKeeps(p: Pipe, a: Action)
    requires Inv(p) && Enabled(p, a)
    ensures Inv(Apply(p, a))
  {
    if a.Send? {
      SendKeeps(p, a.m);
    } else if a.Recv? {
      RecvKeeps(p);
    } else {
      MoveKeeps(p, a);
    }
  }

  lemma {:induction false} RunInv(run: seq<Pipe>, k: nat)
    requires IsRun(run) && k < |run|
    ensures Inv(run[k])
  {
    if k > 0 {
      RunInv(run, k - 1);
      assert StepAt(run, k - 1);
      var a :| Enabled(run[k - 1], a) && run[k] == Apply(run[k - 1], a);
      StepKeeps(run[k - 1], a);
    }
  }

  // Told by the actions of a run

  /** Action `acts[k]` leads from state `k` to the next. */
  ghost predicate IsTrace(run: seq<Pipe>, acts: seq<Action>) {
    && |run| == |acts| + 1 && run[0] == Pipe([], [], [], [], [])
    && forall k | 0 <= k < |acts| :: Does(run, acts, k)
  }

  ghost predicate Does(run: seq<Pipe>, acts: seq<Action>, k: nat)
    requires k < |acts| && |run| == |acts| + 1
  { Enabled(run[k], acts[k]) && run[k + 1] == Apply(run[k], acts[k]) }

  /** The messages given to `send` in the first `k` steps. */
  ghost function Sent(acts: seq<Action>, k: nat): seq<Bytes>
    requires k <= |acts|
  { if k == 0 then [] else Sent(acts, k - 1) + if acts[k - 1].Send? then [acts[k - 1].m] else [] }

  /** The messages that `recv` returned. */
  ghost function Got(run: seq<Pipe>, acts: seq<Action>, k: nat): seq<Bytes>
    requires k <= |acts| && |run| == |acts| + 1
  {
    if k == 0 then []
    else
      Got(run, acts, k - 1)
      + if acts[k - 1].Recv? && Receive(run[k - 1].into).Message? then [Receive(run[k - 1].into).data] else []
  }

  lemma {:induction false} TraceTells(run: seq<Pipe>, acts: seq<Action>, k: nat)
    requires IsTrace(run, acts) && k <= |acts|
    ensures run[k].sent == Sent(acts, k) && run[k].received == Got(run, acts, k)
  {
    if k > 0 {
      TraceTells(run, acts, k - 1);
      assert Does(run, acts, k - 1);
    }
  }

  lemma TraceInv(run: seq<Pipe>, acts: seq<Action>, k: nat)
    requires IsTrace(run, acts) && k <= |acts|
    ensures Inv(run[k])
  {
    forall j | 0 <= j < |run| - 1 ensures StepAt(run, j) {
      assert Does(run, acts, j);
    }
    RunInv(run, k);
  }

  lemma NotBroken(p: Pipe)
    requires Inv(p)
    ensures p.received <= p.sent && !Receive(p.into).Broken?
  {
    assert p.into + (p.wire + p.out) == p.into + p.wire + p.out;
    ReceiveNext(p.sent[|p.received|..], p.into, p.wire + p.out);
  }

  /** However the stream is cut by writes and reads, the messages received are always a prefix of the
      messages sent, and no frame is ever broken. */
  lemma ReceivedIsPrefix(run: seq<Pipe>, acts: seq<Action>, k: nat)
    requires IsTrace(run, acts) && k <= |acts|
    ensures Got(run, acts, k) <= Sent(acts, k)
    ensures !Receive(run[k].into).Broken?
  {
    TraceInv(run, acts, k);
    TraceTells(run, acts, k);
    NotBroken(run[k]);
  }

  lemma AllInto(p: Pipe)
    requires Inv(p) && p.wire == [] && p.out == []
    ensures Receive(p.into).Message? <==> |p.received| < |p.sent|
  {
    var ms := p.sent[|p.received|..];
    assert p.into + [] + [] == p.into && p.into + [] == p.into;
    ReceiveNext(ms, p.into, []);
    if ms != [] {
      assert |Frames(ms)| >= |Frame(ms[0])|;
    }
  }

  /** Once every byte has arrived, `recv` gives the remaining messages one by one. */
  lemma AllArrive(run: seq<Pipe>, acts: seq<Action>, k: nat)
    requires IsTrace(run, acts) && k <= |acts| && run[k].wire == [] && run[k].out == []
    ensures Receive(run[k].into).Message? <==> |Got(run, acts, k)| < |Sent(acts, k)|
  {
    TraceInv(run, acts, k);
    TraceTells(run, acts, k);
    AllInto(run[k]);
  }
}
