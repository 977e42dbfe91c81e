/** The Chandra-Toueg server: messages, local state, and what one atomic section of the
    `consensus()` coroutine does. A section runs from one suspension point to the next, so
    it receives at most one message and sends at most one. */
module ConsensusServer {

  datatype Kind = Prepare | Propose | Ack | Decide

  datatype Message = Message(kind: Kind, round: nat, color: string, colorRound: nat, ack: bool) {
    /** The kinds a leader counts. */
    predicate Counted() { kind == Prepare || kind == Ack }
  }

  function PrepareMessage(round: nat, color: string, colorRound: nat): Message {
    Message(Prepare, round, color, colorRound, false)
  }

  function ProposeMessage(round: nat, color: string): Message {
    Message(Propose, round, color, 0, false)
  }

  function AckMessage(round: nat, ack: bool): Message {
    Message(Ack, round, "", 0, ack)
  }

  function DecideMessage(color: string): Message {
    Message(Decide, 0, color, 0, false)
  }

  const NANCY := -1

  /** A message on the wire. The port queue stores the source beside the message, but
      `receive()` strips it: server code below reads `msg` only (see SenderBlind). */
  datatype Packet = Packet(src: int, dst: int, msg: Message)

  /** Where the coroutine is suspended. `scan` is `stash_size` in `receive`: how many stashed
      messages this call of `receive` has yet to look at before it turns to the port. */
  datatype Phase =
    | AtPrepare
    | Collecting(received: nat, scan: nat)
    | Proposing(next: nat)
    | AwaitPropose(scan: nat)
    | CollectAcks(success: nat, total: nat, scan: nat)
    | Announcing(target: int)
  {
    /** A counting loop that has counted nothing yet. */
    predicate Fresh() { (Collecting? && received == 0) || (CollectAcks? && total == 0) }

    /** How far through a round the phase is. */
    function Stage(): nat {
      match this
      case AtPrepare => 0
      case Collecting(_, _) => 1
      case Proposing(_) => 2
      case AwaitPropose(_) => 2
      case CollectAcks(_, _, _) => 3
      case Announcing(_) => 3
    }

    predicate Receiving() { Collecting? || AwaitPropose? || CollectAcks? }

    function Wanted(): Kind
      requires Receiving()
    {
      match this
      case Collecting(_, _) => Prepare
      case AwaitPropose(_) => Propose
      case CollectAcks(_, _, _) => Ack
    }

    function WithScan(k: nat): Phase
      requires Receiving()
    {
      match this
      case Collecting(r, _) => Collecting(r, k)
      case AwaitPropose(_) => AwaitPropose(k)
      case CollectAcks(s, t, _) => CollectAcks(s, t, k)
    }
  }

  datatype Server = Server(
    id: nat,
    color: string,
    round: nat,
    colorRound: nat,
    stash: seq<Packet>,
    decided: bool,
    phase: Phase)

  function Start(id: nat, color: string): Server {
    Server(id, color, 1, 0, [], false, AtPrepare)
  }

  function Leader(n: nat, round: nat): nat
    requires n > 0
  {
    round % n
  }

  /** The result of one atomic section. */
  datatype Outcome = Outcome(server: Server, sends: seq<Packet>)

  function Quiet(s: Server): Outcome { Outcome(s, []) }

  /** Phase 1. */
  function SendPrepare(n: nat, s: Server): Outcome
    requires n > 0
  {
    var l := Leader(n, s.round);
    Outcome(
      s.(phase := if s.id == l then Collecting(0, |s.stash|) else AwaitPropose(|s.stash|)),
      [Packet(s.id, l, PrepareMessage(s.round, s.color, s.colorRound))])
  }

  /** Phase 3, one iteration of the broadcast. */
  function SendPropose(n: nat, s: Server): Outcome
    requires s.phase.Proposing?
  {
    var j := s.phase.next;
    if j < n then
      Outcome(s.(phase := Proposing(j + 1)), [Packet(s.id, j, ProposeMessage(s.round, s.color))])
    else
      Quiet(s.(phase := AwaitPropose(|s.stash|)))
  }

  /** The announcement after the main loop: first Nancy, then every other server. */
  function SendDecide(n: nat, s: Server): Outcome
    requires s.phase.Announcing?
  {
    var j := s.phase.target;
    var s' := s.(phase := Announcing(j + 1));
    if j == s.id then Quiet(s')
    else Outcome(s', [Packet(s.id, j, DecideMessage(s.color))])
  }

  /** Phase 2 after `receive` returns `m`. */
  function CountPrepare(n: nat, s: Server, m: Message): Server
    requires s.phase.Collecting?
  {
    var s1 := if m.colorRound > s.colorRound then s.(color := m.color, colorRound := m.colorRound) else s;
    var received := s.phase.received + 1;
    s1.(phase := if received <= n / 2 then Collecting(received, |s.stash|) else Proposing(0))
  }

  /** Phase 6. */
  function NextRound(s: Server): Server {
    s.(round := s.round + 1, phase := AtPrepare)
  }

  /** Phase 4 after `attempt` returns: `proposal` is absent after a timeout. */
  function Acknowledge(n: nat, s: Server, proposal: seq<Message>): Outcome
    requires n > 0 && s.phase.AwaitPropose? && |proposal| <= 1
  {
    var s1 := if |proposal| == 1 then s.(color := proposal[0].color, colorRound := s.round) else s;
    var l := Leader(n, s.round);
    Outcome(
      if s.id == l then s1.(phase := CollectAcks(0, 0, |s.stash|)) else NextRound(s1),
      [Packet(s.id, l, AckMessage(s.round, |proposal| == 1))])
  }

  /** Phase 5 after `receive` returns `m`. */
  function CountAck(n: nat, s: Server, m: Message): Server
    requires s.phase.CollectAcks?
  {
    var success := s.phase.success + if m.ack then 1 else 0;
    var total := s.phase.total + 1;
    if total <= n / 2 then s.(phase := CollectAcks(success, total, |s.stash|))
    else if success > n / 2 then s.(decided := true, phase := Announcing(NANCY))
    else NextRound(s)
  }

  /** The code that called `receive`, once that has returned `m`. */
  function Continue(n: nat, s: Server, m: Message): Outcome
    requires n > 0 && s.phase.Receiving()
  {
    match s.phase
    case Collecting(_, _) => Quiet(CountPrepare(n, s, m))
    case AwaitPropose(_) => Acknowledge(n, s, [m])
    case CollectAcks(_, _, _) => Quiet(CountAck(n, s, m))
  }

  /** The body of the loop in `receive`, on a message already taken from the stash or the
      port. A DECIDE ends the main loop from every phase. */
  function Accept(n: nat, s: Server, p: Packet): Outcome
    requires n > 0 && s.phase.Receiving()
  {
    var m := p.msg;
    if m.kind == Decide then
      Quiet(s.(color := m.color, decided := true, phase := Announcing(NANCY)))
    else if m.kind != s.phase.Wanted() || m.round != s.round then
      Quiet(if m.round >= s.round then s.(stash := s.stash + [p]) else s)
    else
      Continue(n, s, m)
  }

  /** `receive` with stashed messages left to look at. */
  predicate Scanning(s: Server) {
    s.phase.Receiving() && s.phase.scan > 0 && |s.stash| > 0
  }

  function Unstash(s: Server): Server
    requires Scanning(s)
  {
    s.(stash := s.stash[1..], phase := s.phase.WithScan(s.phase.scan - 1))
  }

  /** Every DECIDE has been sent: the coroutine has returned. */
  predicate Finished(n: nat, s: Server) {
    s.phase.Announcing? && s.phase.target >= n
  }

  /** The server's next section needs neither the port nor the clock. */
  predicate CanStep(n: nat, s: Server) {
    if s.phase.Receiving() then Scanning(s) else !Finished(n, s)
  }

  function Step(n: nat, s: Server): Outcome
    requires n > 0 && CanStep(n, s)
  {
    match s.phase
    case AtPrepare => SendPrepare(n, s)
    case Proposing(_) => SendPropose(n, s)
    case Announcing(_) => SendDecide(n, s)
    case _ => Accept(n, Unstash(s), s.stash[0])
  }

  /** `receive` has exhausted the stash and waits on its port. */
  predicate CanReceive(s: Server) {
    s.phase.Receiving() && s.phase.scan == 0
  }

  /** The server is inside `attempt`, so the failure detector may fire. */
  predicate CanTimeout(s: Server) {
    s.phase.AwaitPropose?
  }

  // Server code never looks at who sent a message.

  ghost predicate SameMessages(a: seq<Packet>, b: seq<Packet>) {
    |a| == |b| && forall k :: 0 <= k < |a| ==> a[k].msg == b[k].msg
  }

  /** Equal but for the senders recorded beside stashed messages. */
  ghost predicate SameUpToSenders(s: Server, t: Server) {
    s == t.(stash := s.stash) && SameMessages(s.stash, t.stash)
  }

  lemma AcceptSenderBlind(n: nat, s: Server, t: Server, p: Packet, q: Packet)
    requires n > 0 && SameUpToSenders(s, t) && p.msg == q.msg && s.phase.Receiving()
    ensures SameUpToSenders(Accept(n, s, p).server, Accept(n, t, q).server)
    ensures Accept(n, s, p).sends == Accept(n, t, q).sends
  {
    assert s == Server(t.id, t.color, t.round, t.colorRound, s.stash, t.decided, t.phase);
    assert SameMessages(s.stash + [p], t.stash + [q]);
  }

  lemma SenderBlind(n: nat, s: Server, t: Server)
    requires n > 0 && SameUpToSenders(s, t)
    ensures CanStep(n, s) <==> CanStep(n, t)
    ensures CanStep(n, s) ==>
              SameUpToSenders(Step(n, s).server, Step(n, t).server) && Step(n, s).sends == Step(n, t).sends
  {
    if Scanning(s) {
      AcceptSenderBlind(n, Unstash(s), Unstash(t), s.stash[0], t.stash[0]);
    }
  }
}
