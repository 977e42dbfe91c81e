/** What every step of the protocol keeps. */
module ConsensusInvariant {
  import opened ConsensusServer
  import opened ConsensusSystem

  // Facts about the record that stay true as it grows

  /** Colour `c` with colour round `k` is an initial colour, or is what round `k` chose. */
  ghost predicate ColorFrom(colors: seq<string>, chosen: map<nat, Choice>, c: string, k: nat) {
    if k == 0 then c in colors else k in chosen && chosen[k].color == c
  }

  function Ackers(n: nat, sent: set<Packet>, r: nat): set<int>
    requires n > 0
  {
    set j | 0 <= j < n && Packet(j, Leader(n, r), AckMessage(r, true)) in sent
  }

  /** A majority of servers acknowledged the colour that round `r` chose. */
  ghost predicate Locked(n: nat, sent: set<Packet>, chosen: map<nat, Choice>, r: nat) {
    n > 0 && r in chosen && |Ackers(n, sent, r)| > n / 2
  }

  ghost predicate Decided(n: nat, sent: set<Packet>, chosen: map<nat, Choice>, c: string) {
    exists r :: Locked(n, sent, chosen, r) && chosen[r].color == c
  }

  // The invariant, each part over just what it reads

  ghost predicate PacketOk(
    n: nat, colors: seq<string>, v: Server, sent: set<Packet>, chosen: map<nat, Choice>, p: Packet)
    requires n > 0
  {
    var m := p.msg;
    match m.kind
    case Prepare =>
      && m == PrepareMessage(m.round, m.color, m.colorRound)
      && p.dst == Leader(n, m.round)
      && m.round <= v.round && (m.round == v.round ==> v.phase.Stage() >= 1)
      && m.colorRound < m.round
      && ColorFrom(colors, chosen, m.color, m.colorRound)
    case Propose =>
      && p.src == Leader(n, m.round) && 0 <= p.dst < n
      && m.round in chosen && m.color == chosen[m.round].color
    case Ack =>
      && m == AckMessage(m.round, m.ack)
      && p.dst == Leader(n, m.round)
      && 0 < m.round <= v.round && (m.round == v.round ==> v.phase.Stage() >= 3)
      && (m.ack ==> m.round in chosen && m.round <= v.colorRound)
    case Decide => Decided(n, sent, chosen, m.color)
  }

  ghost predicate SentOk(n: nat, colors: seq<string>, servers: seq<Server>, sent: set<Packet>, chosen: map<nat, Choice>)
    requires n > 0 && |servers| == n
  {
    forall p :: p in sent ==> 0 <= p.src < n && PacketOk(n, colors, servers[p.src], sent, chosen, p)
  }

  ghost predicate SameKey(p: Packet, q: Packet) {
    p.src == q.src && p.msg.kind == q.msg.kind && p.msg.round == q.msg.round
  }

  /** One PREPARE and one ACK for each server and round. */
  ghost predicate OneEach(sent: set<Packet>) {
    forall p, q | p in sent && q in sent && SameKey(p, q) && p.msg.Counted() :: p == q
  }

  ghost predicate AckBeforePrepare(q: Packet, p: Packet) {
    q.msg.kind == Ack && q.msg.ack && p.msg.kind == Prepare && q.src == p.src && q.msg.round < p.msg.round
  }

  /** A server that acknowledged round `r` reports a colour round of at least `r` ever after. */
  ghost predicate AcksRemembered(sent: set<Packet>) {
    forall p, q | p in sent && q in sent && AckBeforePrepare(q, p) :: q.msg.round <= p.msg.colorRound
  }

  ghost predicate PhaseOk(n: nat, chosen: map<nat, Choice>, v: Server)
    requires n > 0
  {
    && (v.phase.Collecting? || v.phase.Proposing? || v.phase.CollectAcks? ==> v.id == Leader(n, v.round))
    && (v.phase.Collecting? ==> v.phase.received <= n / 2)
    && (v.phase.CollectAcks? ==> v.phase.total <= n / 2)
    && (v.phase.Receiving() ==> v.phase.scan <= |v.stash|)
    && (v.id == Leader(n, v.round) && v.phase.Stage() >= 2 && !v.phase.Announcing? ==>
          v.round in chosen && v.color == chosen[v.round].color)
  }

  ghost predicate StashOk(i: nat, stash: seq<Packet>, sent: set<Packet>) {
    forall k :: 0 <= k < |stash| ==> stash[k] in sent && stash[k].dst == i && stash[k].msg.kind != Decide
  }

  ghost predicate ServerOk(n: nat, colors: seq<string>, i: nat, v: Server, sent: set<Packet>, chosen: map<nat, Choice>)
    requires n > 0
  {
    && v.id == i
    && 1 <= v.round && v.colorRound <= v.round
    && (v.colorRound == v.round ==> v.phase.Stage() >= 3)
    && (v.decided <==> v.phase.Announcing?)
    && (if v.decided then Decided(n, sent, chosen, v.color) else ColorFrom(colors, chosen, v.color, v.colorRound))
    && PhaseOk(n, chosen, v)
    && StashOk(i, v.stash, sent)
  }

  ghost predicate ServersOk(
    n: nat, colors: seq<string>, servers: seq<Server>, sent: set<Packet>, chosen: map<nat, Choice>)
    requires n > 0 && |servers| == n
  {
    forall i :: 0 <= i < n ==> ServerOk(n, colors, i, servers[i], sent, chosen)
  }

  function Positive(ps: set<Packet>): set<Packet> { set p | p in ps && p.msg.ack }

  /** The bare counters count distinct packets of the current round that were really sent. */
  ghost predicate CountOk(i: nat, v: Server, ps: set<Packet>, sent: set<Packet>) {
    && ps <= sent
    && (forall p :: p in ps ==> p.dst == i)
    && (v.phase.Collecting? ==>
          && |ps| == v.phase.received
          && forall p :: p in ps ==>
            p.msg.kind == Prepare && p.msg.round == v.round && p.msg.colorRound <= v.colorRound)
    && (v.phase.CollectAcks? ==>
          && |ps| == v.phase.total && |Positive(ps)| == v.phase.success
          && forall p :: p in ps ==> p.msg.kind == Ack && p.msg.round == v.round)
  }

  ghost predicate CountsOk(servers: seq<Server>, counted: seq<set<Packet>>, sent: set<Packet>)
    requires |servers| == |counted|
  {
    forall i :: 0 <= i < |servers| ==> CountOk(i, servers[i], counted[i], sent)
  }

  /** How many copies of `p` exist: in flight, in its receiver's stash, or counted there. */
  function Copies(net: multiset<Packet>, stash: seq<Packet>, counted: set<Packet>, p: Packet): nat {
    net[p] + multiset(stash)[p] + if p in counted then 1 else 0
  }

  ghost predicate NoDuplicates(net: multiset<Packet>, servers: seq<Server>, counted: seq<set<Packet>>)
    requires |servers| == |counted|
  {
    forall p: Packet | p.msg.Counted() && 0 <= p.dst < |servers| ::
      Copies(net, servers[p.dst].stash, counted[p.dst], p) <= 1
  }

  ghost predicate ChoiceOk(
    n: nat, colors: seq<string>, servers: seq<Server>, sent: set<Packet>, chosen: map<nat, Choice>, r: nat)
    requires n > 0 && |servers| == n && r in chosen
  {
    var c, v := chosen[r], servers[Leader(n, r)];
    && c.basisRound < r
    && ColorFrom(colors, chosen, c.color, c.basisRound)
    && c.basis <= sent && |c.basis| == n / 2 + 1
    && (forall p :: p in c.basis ==>
          p.msg.kind == Prepare && p.msg.round == r && p.msg.colorRound <= c.basisRound)
    && r <= v.round && (r == v.round ==> v.phase.Stage() >= 2)
  }

  ghost predicate ChoicesOk(
    n: nat, colors: seq<string>, servers: seq<Server>, sent: set<Packet>, chosen: map<nat, Choice>)
    requires n > 0 && |servers| == n
  {
    forall r {:trigger ChoiceOk(n, colors, servers, sent, chosen, r)} | r in chosen ::
      ChoiceOk(n, colors, servers, sent, chosen, r)
  }

  ghost predicate Inv(n: nat, colors: seq<string>, s: State) {
    && |colors| == n > 0 && |s.servers| == |s.counted| == n
    && (forall p :: p in s.net ==> p in s.sent)
    && SentOk(n, colors, s.servers, s.sent, s.chosen) && OneEach(s.sent) && AcksRemembered(s.sent)
    && ServersOk(n, colors, s.servers, s.sent, s.chosen)
    && CountsOk(s.servers, s.counted, s.sent)
    && NoDuplicates(s.net, s.servers, s.counted)
    && ChoicesOk(n, colors, s.servers, s.sent, s.chosen)
  }

  lemma InitInv(n: nat, colors: seq<string>, s: State)
    requires Init(n, colors, s)
    ensures Inv(n, colors, s)
  {
  }

  // A step touches one server and adds to the record; nothing else can break

  /** `v'` is a later state of the same server than `v`. */
  ghost predicate Later(v: Server, v': Server) {
    && v.round <= v'.round && v.colorRound <= v'.colorRound
    && (v.round == v'.round ==> v.phase.Stage() <= v'.phase.Stage())
  }

  ghost predicate Grows(sent: set<Packet>, sent': set<Packet>, chosen: map<nat, Choice>, chosen': map<nat, Choice>) {
    sent <= sent' && forall r :: r in chosen ==> r in chosen' && chosen'[r] == chosen[r]
  }

  lemma SubsetSize<T>(a: set<T>, b: set<T>)
    requires a <= b
    ensures |a| <= |b|
  {
    assert b == a + (b - a);
  }

  lemma LockedGrows(
    n: nat, sent: set<Packet>, sent': set<Packet>, chosen: map<nat, Choice>, chosen': map<nat, Choice>, r: nat)
    requires Locked(n, sent, chosen, r) && Grows(sent, sent', chosen, chosen')
    ensures Locked(n, sent', chosen', r)
  {
    SubsetSize(Ackers(n, sent, r), Ackers(n, sent', r));
  }

  lemma DecidedGrows(
    n: nat, sent: set<Packet>, sent': set<Packet>, chosen: map<nat, Choice>, chosen': map<nat, Choice>, c: string)
    requires Decided(n, sent, chosen, c) && Grows(sent, sent', chosen, chosen')
    ensures Decided(n, sent', chosen', c)
  {
    var r :| Locked(n, sent, chosen, r) && chosen[r].color == c;
    LockedGrows(n, sent, sent', chosen, chosen', r);
  }

  lemma PacketGrows(n: nat, colors: seq<string>, v: Server, v': Server, s: State, s': State, p: Packet)
    requires n > 0 && PacketOk(n, colors, v, s.sent, s.chosen, p)
    requires Later(v, v') && Grows(s.sent, s'.sent, s.chosen, s'.chosen)
    ensures PacketOk(n, colors, v', s'.sent, s'.chosen, p)
  {
    if p.msg.kind == Decide {
      DecidedGrows(n, s.sent, s'.sent, s.chosen, s'.chosen, p.msg.color);
    }
  }

  lemma ServerGrows(n: nat, colors: seq<string>, i: nat, v: Server, s: State, s': State)
    requires n > 0 && ServerOk(n, colors, i, v, s.sent, s.chosen)
    requires Grows(s.sent, s'.sent, s.chosen, s'.chosen)
    ensures ServerOk(n, colors, i, v, s'.sent, s'.chosen)
  {
    if v.decided {
      DecidedGrows(n, s.sent, s'.sent, s.chosen, s'.chosen, v.color);
    }
  }

  /** The parts of the invariant about server `i` alone. */
  lemma ServerAt(n: nat, colors: seq<string>, s: State, i: nat)
    requires Inv(n, colors, s) && i < n
    ensures ServerOk(n, colors, i, s.servers[i], s.sent, s.chosen)
    ensures CountOk(i, s.servers[i], s.counted[i], s.sent)
  {
  }

  lemma SentGrows(n: nat, colors: seq<string>, s: State, i: nat, s': State)
    requires |s.servers| == n > 0 && i < n && |s'.servers| == n
    requires SentOk(n, colors, s.servers, s.sent, s.chosen)
    requires s'.servers == s.servers[i := s'.servers[i]] && Later(s.servers[i], s'.servers[i])
    requires Grows(s.sent, s'.sent, s.chosen, s'.chosen)
    requires forall p :: p in s'.sent && p !in s.sent ==>
               p.src == i && PacketOk(n, colors, s'.servers[i], s'.sent, s'.chosen, p)
    ensures SentOk(n, colors, s'.servers, s'.sent, s'.chosen)
  {
    forall p | p in s'.sent
      ensures 0 <= p.src < n && PacketOk(n, colors, s'.servers[p.src], s'.sent, s'.chosen, p)
    {
      if p in s.sent {
        PacketGrows(n, colors, s.servers[p.src], s'.servers[p.src], s, s', p);
      }
    }
  }

  lemma ServersGrow(n: nat, colors: seq<string>, s: State, i: nat, s': State)
    requires |s.servers| == n > 0 && i < n && |s'.servers| == n
    requires ServersOk(n, colors, s.servers, s.sent, s.chosen)
    requires s'.servers == s.servers[i := s'.servers[i]]
    requires Grows(s.sent, s'.sent, s.chosen, s'.chosen)
    requires ServerOk(n, colors, i, s'.servers[i], s'.sent, s'.chosen)
    ensures ServersOk(n, colors, s'.servers, s'.sent, s'.chosen)
  {
    forall j | 0 <= j < n ensures ServerOk(n, colors, j, s'.servers[j], s'.sent, s'.chosen) {
      if j != i {
        ServerGrows(n, colors, j, s.servers[j], s, s');
      }
    }
  }

  lemma CountsGrow(s: State, i: nat, s': State)
    requires |s.servers| == |s.counted| == |s'.servers| == |s'.counted| && i < |s.servers|
    requires CountsOk(s.servers, s.counted, s.sent) && s.sent <= s'.sent
    requires s'.servers == s.servers[i := s'.servers[i]] && s'.counted == s.counted[i := s'.counted[i]]
    requires CountOk(i, s'.servers[i], s'.counted[i], s'.sent)
    ensures CountsOk(s'.servers, s'.counted, s'.sent)
  {
    forall j | 0 <= j < |s.servers| ensures CountOk(j, s'.servers[j], s'.counted[j], s'.sent) {
      assert CountOk(j, s.servers[j], s.counted[j], s.sent);
    }
  }

  lemma ChoicesGrow(n: nat, colors: seq<string>, s: State, i: nat, s': State)
    requires |s.servers| == n > 0 && i < n && |s'.servers| == n
    requires ChoicesOk(n, colors, s.servers, s.sent, s.chosen)
    requires s'.servers == s.servers[i := s'.servers[i]] && Later(s.servers[i], s'.servers[i])
    requires Grows(s.sent, s'.sent, s.chosen, s'.chosen)
    requires forall r :: r in s'.chosen && r !in s.chosen ==>
               ChoiceOk(n, colors, s'.servers, s'.sent, s'.chosen, r)
    ensures ChoicesOk(n, colors, s'.servers, s'.sent, s'.chosen)
  {
    forall r | r in s'.chosen ensures ChoiceOk(n, colors, s'.servers, s'.sent, s'.chosen, r) {
      if r in s.chosen {
        assert ChoiceOk(n, colors, s.servers, s.sent, s.chosen, r);
      }
    }
  }

  lemma CopiesElsewhere(s: State, i: nat, v: Server, ps: set<Packet>)
    requires |s.servers| == |s.counted| && i < |s.servers| && NoDuplicates(s.net, s.servers, s.counted)
    requires forall p: Packet :: p.msg.Counted() && p.dst == i ==> Copies(s.net, v.stash, ps, p) <= 1
    ensures NoDuplicates(s.net, s.servers[i := v], s.counted[i := ps])
  {
  }

  /** A section of server `i` that sends nothing. The new state of the server and of its
      count have been looked at; the rest of the invariant follows. */
  lemma QuietFrame(n: nat, colors: seq<string>, s: State, i: nat, v: Server, ps: set<Packet>, chosen: map<nat, Choice>)
    requires Inv(n, colors, s) && i < n
    requires Later(s.servers[i], v) && ServerOk(n, colors, i, v, s.sent, chosen) && CountOk(i, v, ps, s.sent)
    requires Grows(s.sent, s.sent, s.chosen, chosen)
    requires forall r :: r in chosen && r !in s.chosen ==>
               Leader(n, r) == i && ChoiceOk(n, colors, s.servers[i := v], s.sent, chosen, r)
    requires forall p: Packet :: p.msg.Counted() && p.dst == i ==> Copies(s.net, v.stash, ps, p) <= 1
    ensures Inv(n, colors, State(s.servers[i := v], s.net, s.sent, s.counted[i := ps], chosen))
  {
    var s' := State(s.servers[i := v], s.net, s.sent, s.counted[i := ps], chosen);
    assert SentOk(n, colors, s'.servers, s'.sent, s'.chosen) by { SentGrows(n, colors, s, i, s'); }
    assert ServersOk(n, colors, s'.servers, s'.sent, s'.chosen) by { ServersGrow(n, colors, s, i, s'); }
    assert CountsOk(s'.servers, s'.counted, s'.sent) by { CountsGrow(s, i, s'); }
    assert ChoicesOk(n, colors, s'.servers, s'.sent, s'.chosen) by { ChoicesGrow(n, colors, s, i, s'); }
    assert NoDuplicates(s'.net, s'.servers, s'.counted) by { CopiesElsewhere(s, i, v, ps); }
  }

  /** A packet never sent before has no copies yet. */
  lemma FirstCopy(n: nat, colors: seq<string>, s: State, p: Packet)
    requires Inv(n, colors, s) && p !in s.sent && 0 <= p.dst < n
    ensures Copies(s.net, s.servers[p.dst].stash, s.counted[p.dst], p) == 0
  {
    var j := p.dst;
    ServerAt(n, colors, s, j);
    assert p !in s.servers[j].stash;
    assert p !in multiset(s.servers[j].stash);
  }

  lemma CopiesAfterSend(n: nat, colors: seq<string>, s: State, i: nat, v: Server, ps: set<Packet>, p: Packet)
    requires Inv(n, colors, s) && i < n
    requires v.stash == s.servers[i].stash && ps <= s.counted[i]
    requires p.msg.Counted() ==> p !in s.sent
    ensures NoDuplicates(s.net + multiset{p}, s.servers[i := v], s.counted[i := ps])
  {
    var servers, counted := s.servers[i := v], s.counted[i := ps];
    forall q: Packet | q.msg.Counted() && 0 <= q.dst < n
      ensures Copies(s.net + multiset{p}, servers[q.dst].stash, counted[q.dst], q) <= 1
    {
      assert Copies(s.net, s.servers[q.dst].stash, s.counted[q.dst], q) <= 1;
      if q == p {
        FirstCopy(n, colors, s, p);
      }
    }
  }

  /** `p` may join the packets sent: it repeats no key, and agrees with earlier ACKs. */
  ghost predicate MayJoin(sent: set<Packet>, p: Packet) {
    && (p.msg.Counted() ==> forall q :: q in sent ==> !SameKey(p, q))
    && (forall q :: q in sent && AckBeforePrepare(q, p) ==> q.msg.round <= p.msg.colorRound)
    && (forall q :: q in sent && AckBeforePrepare(p, q) ==> p.msg.round <= q.msg.colorRound)
  }

  lemma Joined(sent: set<Packet>, p: Packet)
    requires OneEach(sent) && AcksRemembered(sent) && MayJoin(sent, p)
    ensures OneEach(sent + {p}) && AcksRemembered(sent + {p})
    ensures p.msg.Counted() ==> p !in sent
  {
  }

  /** A section of server `i` that sends `p`. */
  lemma SendFrame(n: nat, colors: seq<string>, s: State, i: nat, v: Server, ps: set<Packet>, p: Packet)
    requires Inv(n, colors, s) && i < n
    requires Later(s.servers[i], v) && v.stash == s.servers[i].stash && ps <= s.counted[i]
    requires ServerOk(n, colors, i, v, s.sent, s.chosen) && CountOk(i, v, ps, s.sent)
    requires p.src == i && PacketOk(n, colors, v, s.sent, s.chosen, p) && MayJoin(s.sent, p)
    ensures Inv(n, colors, State(s.servers[i := v], s.net + multiset{p}, s.sent + {p}, s.counted[i := ps], s.chosen))
  {
    var s' := State(s.servers[i := v], s.net + multiset{p}, s.sent + {p}, s.counted[i := ps], s.chosen);
    assert Grows(s.sent, s'.sent, s.chosen, s'.chosen);
    assert SentOk(n, colors, s'.servers, s'.sent, s'.chosen) by {
      PacketGrows(n, colors, v, v, s, s', p);
      SentGrows(n, colors, s, i, s');
    }
    assert ServersOk(n, colors, s'.servers, s'.sent, s'.chosen) by {
      ServerGrows(n, colors, i, v, s, s');
      ServersGrow(n, colors, s, i, s');
    }
    assert CountsOk(s'.servers, s'.counted, s'.sent) by { CountsGrow(s, i, s'); }
    assert ChoicesOk(n, colors, s'.servers, s'.sent, s'.chosen) by { ChoicesGrow(n, colors, s, i, s'); }
    Joined(s.sent, p);
    assert NoDuplicates(s'.net, s'.servers, s'.counted) by { CopiesAfterSend(n, colors, s, i, v, ps, p); }
  }

  // Taking a packet

  /** Packet `p` was sent to `i` and is neither in flight, nor stashed, nor counted. */
  ghost predicate InHand(s: State, i: nat, p: Packet)
    requires i < |s.servers| == |s.counted|
  {
    && p in s.sent && p.dst == i
    && (p.msg.Counted() ==> Copies(s.net, s.servers[i].stash, s.counted[i], p) == 0)
  }

  lemma TakeFromNet(n: nat, colors: seq<string>, s: State, p: Packet)
    requires Inv(n, colors, s) && p in s.net
    ensures Inv(n, colors, s.(net := s.net - multiset{p}))
    ensures 0 <= p.dst < n ==> InHand(s.(net := s.net - multiset{p}), p.dst, p)
  {
  }

  lemma UnstashOk(n: nat, colors: seq<string>, s: State, i: nat)
    requires Inv(n, colors, s) && i < n && Scanning(s.servers[i])
    ensures var v := Unstash(s.servers[i]);
            && ServerOk(n, colors, i, v, s.sent, s.chosen)
            && CountOk(i, v, s.counted[i], s.sent)
            && multiset(s.servers[i].stash) == multiset(v.stash) + multiset{s.servers[i].stash[0]}
            && s.servers[i].stash[0] in s.sent && s.servers[i].stash[0].dst == i
  {
    ServerAt(n, colors, s, i);
    StashFront(i, s.servers[i].stash, s.sent);
  }

  lemma StashFront(i: nat, stash: seq<Packet>, sent: set<Packet>)
    requires stash != [] && StashOk(i, stash, sent)
    ensures StashOk(i, stash[1..], sent) && stash[0] in sent && stash[0].dst == i
    ensures multiset(stash) == multiset(stash[1..]) + multiset{stash[0]}
  {
    assert stash == [stash[0]] + stash[1..];
    forall k | 0 <= k < |stash[1..]| ensures stash[1..][k] == stash[k + 1] {}
  }

  lemma TakeFromStash(n: nat, colors: seq<string>, s: State, i: nat)
    requires Inv(n, colors, s) && i < n && Scanning(s.servers[i])
    ensures var s' := s.(servers := s.servers[i := Unstash(s.servers[i])]);
            Inv(n, colors, s') && InHand(s', i, s.servers[i].stash[0])
  {
    var v := Unstash(s.servers[i]);
    UnstashOk(n, colors, s, i);
    CopiesAt(n, colors, s, i);
    UnstashCopies(s.net, s.servers[i].stash, v.stash, s.counted[i], i);
    QuietFrame(n, colors, s, i, v, s.counted[i], s.chosen);
    assert s.counted[i := s.counted[i]] == s.counted;
  }

  /** No counted packet to `i` exists twice. */
  ghost predicate Single(net: multiset<Packet>, stash: seq<Packet>, ps: set<Packet>, i: nat) {
    forall q: Packet :: q.msg.Counted() && q.dst == i ==> Copies(net, stash, ps, q) <= 1
  }

  lemma CopiesAt(n: nat, colors: seq<string>, s: State, i: nat)
    requires Inv(n, colors, s) && i < n
    ensures Single(s.net, s.servers[i].stash, s.counted[i], i)
  {
  }

  lemma UnstashCopies(net: multiset<Packet>, stash: seq<Packet>, rest: seq<Packet>, ps: set<Packet>, i: nat)
    requires Single(net, stash, ps, i) && stash != [] && multiset(stash) == multiset(rest) + multiset{stash[0]}
    ensures Single(net, rest, ps, i)
    ensures stash[0].msg.Counted() && stash[0].dst == i ==> Copies(net, rest, ps, stash[0]) == 0
  {
    forall q: Packet | q.msg.Counted() && q.dst == i
      ensures Copies(net, rest, ps, q) <= if q == stash[0] then 0 else 1
    {
      assert Copies(net, stash, ps, q) <= 1;
    }
  }

  // Sending sections

  lemma PrepareMayJoin(
    n: nat, colors: seq<string>, servers: seq<Server>, sent: set<Packet>, chosen: map<nat, Choice>, i: nat)
    requires |servers| == n && i < n && SentOk(n, colors, servers, sent, chosen)
    requires servers[i].phase.AtPrepare? && servers[i].id == i
    ensures MayJoin(sent, SendPrepare(n, servers[i]).sends[0])
  {
    var p := SendPrepare(n, servers[i]).sends[0];
    forall q | q in sent && q.src == i ensures PacketOk(n, colors, servers[i], sent, chosen, q) {}
  }

  lemma SendPrepareServer(
    n: nat, colors: seq<string>, i: nat, v: Server, ps: set<Packet>, sent: set<Packet>, chosen: map<nat, Choice>)
    requires n > 0 && i < n && ServerOk(n, colors, i, v, sent, chosen) && CountOk(i, v, ps, sent) && v.phase.AtPrepare?
    ensures var o := SendPrepare(n, v);
            && Later(v, o.server) && o.server.stash == v.stash && ServerOk(n, colors, i, o.server, sent, chosen)
            && CountOk(i, o.server, if o.server.phase.Fresh() then {} else ps, sent)
            && o.sends[0].src == i && PacketOk(n, colors, o.server, sent, chosen, o.sends[0])
  {
  }

  /** Installing a section that sends one packet. */
  lemma InstallSend(s: State, i: nat, o: Outcome)
    requires i < |s.servers| == |s.counted| && |o.sends| == 1
    ensures Install(s, i, o) ==
            State(s.servers[i := o.server], s.net + multiset{o.sends[0]}, s.sent + {o.sends[0]},
                  s.counted[i := if o.server.phase.Fresh() then {} else s.counted[i]], s.chosen)
  {
    assert o.sends == [o.sends[0]];
    assert AsSet(o.sends) == {o.sends[0]} && multiset(o.sends) == multiset{o.sends[0]};
    assert s.counted[i := s.counted[i]] == s.counted;
  }

  lemma SendPrepareInv(n: nat, colors: seq<string>, s: State, i: nat)
    requires Inv(n, colors, s) && i < n && s.servers[i].phase.AtPrepare?
    ensures Inv(n, colors, Install(s, i, SendPrepare(n, s.servers[i])))
  {
    var v := s.servers[i];
    var o := SendPrepare(n, v);
    ServerAt(n, colors, s, i);
    PrepareMayJoin(n, colors, s.servers, s.sent, s.chosen, i);
    SendPrepareServer(n, colors, i, v, s.counted[i], s.sent, s.chosen);
    SendFrame(n, colors, s, i, o.server, if o.server.phase.Fresh() then {} else s.counted[i], o.sends[0]);
    InstallSend(s, i, o);
  }

  lemma SendProposeInv(n: nat, colors: seq<string>, s: State, i: nat)
    requires Inv(n, colors, s) && i < n && s.servers[i].phase.Proposing?
    ensures Inv(n, colors, Install(s, i, SendPropose(n, s.servers[i])))
  {
    var v := s.servers[i];
    var o := SendPropose(n, v);
    ServerAt(n, colors, s, i);
    assert s.counted[i := s.counted[i]] == s.counted;
    if o.sends != [] {
      SendFrame(n, colors, s, i, o.server, s.counted[i], o.sends[0]);
      InstallSend(s, i, o);
    } else {
      QuietInstall(n, colors, s, i, o.server);
    }
  }

  lemma InstallQuiet(s: State, i: nat, v: Server)
    requires i < |s.servers| == |s.counted| && !v.phase.Fresh()
    ensures Install(s, i, Quiet(v)) == State(s.servers[i := v], s.net, s.sent, s.counted[i := s.counted[i]], s.chosen)
  {
    assert s.counted[i := s.counted[i]] == s.counted;
  }

  /** A quiet section that leaves stash and record alone. */
  lemma QuietInstall(n: nat, colors: seq<string>, s: State, i: nat, v: Server)
    requires Inv(n, colors, s) && i < n && !v.phase.Fresh()
    requires Later(s.servers[i], v) && ServerOk(n, colors, i, v, s.sent, s.chosen)
    requires CountOk(i, v, s.counted[i], s.sent) && v.stash == s.servers[i].stash
    ensures Inv(n, colors, Install(s, i, Quiet(v)))
  {
    forall p: Packet | p.msg.Counted() && p.dst == i ensures Copies(s.net, v.stash, s.counted[i], p) <= 1 {
      assert Copies(s.net, s.servers[i].stash, s.counted[i], p) <= 1;
    }
    QuietFrame(n, colors, s, i, v, s.counted[i], s.chosen);
    InstallQuiet(s, i, v);
  }

  lemma SendDecideServer(
    n: nat, colors: seq<string>, i: nat, v: Server, ps: set<Packet>, sent: set<Packet>, chosen: map<nat, Choice>)
    requires n > 0 && i < n && ServerOk(n, colors, i, v, sent, chosen) && CountOk(i, v, ps, sent) && v.phase.Announcing?
    ensures var o := SendDecide(n, v);
            && Later(v, o.server) && o.server.stash == v.stash
            && ServerOk(n, colors, i, o.server, sent, chosen) && CountOk(i, o.server, ps, sent)
            && (o.sends != [] ==>
                  && o.sends == [o.sends[0]] && o.sends[0].src == i
                  && PacketOk(n, colors, o.server, sent, chosen, o.sends[0]) && MayJoin(sent, o.sends[0]))
  {
  }

  lemma SendDecideInv(n: nat, colors: seq<string>, s: State, i: nat)
    requires Inv(n, colors, s) && i < n && s.servers[i].phase.Announcing?
    ensures Inv(n, colors, Install(s, i, SendDecide(n, s.servers[i])))
  {
    var v := s.servers[i];
    var o := SendDecide(n, v);
    ServerAt(n, colors, s, i);
    SendDecideServer(n, colors, i, v, s.counted[i], s.sent, s.chosen);
    assert s.counted[i := s.counted[i]] == s.counted;
    if o.sends != [] {
      SendFrame(n, colors, s, i, o.server, s.counted[i], o.sends[0]);
      InstallSend(s, i, o);
    } else {
      QuietInstall(n, colors, s, i, o.server);
    }
  }

  lemma AckMayJoin(
    n: nat, colors: seq<string>, servers: seq<Server>, sent: set<Packet>, chosen: map<nat, Choice>, i: nat, p: Packet)
    requires |servers| == n && i < n && SentOk(n, colors, servers, sent, chosen)
    requires servers[i].phase.AwaitPropose?
    requires p.src == i && p.msg.kind == Ack && p.msg.round == servers[i].round
    ensures MayJoin(sent, p)
  {
    forall q | q in sent && q.src == i ensures PacketOk(n, colors, servers[i], sent, chosen, q) {}
  }

  lemma AcknowledgeServer(
    n: nat, colors: seq<string>, i: nat, v: Server, ps: set<Packet>, sent: set<Packet>, chosen: map<nat, Choice>,
    proposal: seq<Message>)
    requires n > 0 && i < n && ServerOk(n, colors, i, v, sent, chosen) && CountOk(i, v, ps, sent)
    requires v.phase.AwaitPropose? && |proposal| <= 1
    requires |proposal| == 1 ==> v.round in chosen && proposal[0].color == chosen[v.round].color
    ensures var o := Acknowledge(n, v, proposal);
            && Later(v, o.server) && o.server.stash == v.stash && ServerOk(n, colors, i, o.server, sent, chosen)
            && CountOk(i, o.server, if o.server.phase.Fresh() then {} else ps, sent)
            && o.sends[0].src == i && PacketOk(n, colors, o.server, sent, chosen, o.sends[0])
  {
  }

  lemma AcknowledgeInv(n: nat, colors: seq<string>, s: State, i: nat, proposal: seq<Message>)
    requires Inv(n, colors, s) && i < n && s.servers[i].phase.AwaitPropose? && |proposal| <= 1
    requires |proposal| == 1 ==>
               s.servers[i].round in s.chosen && proposal[0].color == s.chosen[s.servers[i].round].color
    ensures Inv(n, colors, Install(s, i, Acknowledge(n, s.servers[i], proposal)))
  {
    var v := s.servers[i];
    var o := Acknowledge(n, v, proposal);
    ServerAt(n, colors, s, i);
    AckMayJoin(n, colors, s.servers, s.sent, s.chosen, i, o.sends[0]);
    AcknowledgeServer(n, colors, i, v, s.counted[i], s.sent, s.chosen, proposal);
    SendFrame(n, colors, s, i, o.server, if o.server.phase.Fresh() then {} else s.counted[i], o.sends[0]);
    InstallSend(s, i, o);
  }

  // Receiving sections

  lemma AdoptDecideInv(n: nat, colors: seq<string>, s: State, i: nat, p: Packet)
    requires Inv(n, colors, s) && i < n && s.servers[i].phase.Receiving() && InHand(s, i, p)
    requires p.msg.kind == Decide
    ensures Inv(n, colors, Handle(n, s, i, p))
  {
    ServerAt(n, colors, s, i);
    assert Decided(n, s.sent, s.chosen, p.msg.color) by {
      assert PacketOk(n, colors, s.servers[p.src], s.sent, s.chosen, p);
    }
    AdoptDecideServer(n, colors, i, s.servers[i], s.counted[i], s.sent, s.chosen, p);
    QuietInstall(n, colors, s, i, Accept(n, s.servers[i], p).server);
  }

  lemma AdoptDecideServer(
    n: nat, colors: seq<string>, i: nat, v: Server, ps: set<Packet>, sent: set<Packet>, chosen: map<nat, Choice>,
      p: Packet)
    requires n > 0 && ServerOk(n, colors, i, v, sent, chosen) && CountOk(i, v, ps, sent) && v.phase.Receiving()
    requires p.msg.kind == Decide && Decided(n, sent, chosen, p.msg.color)
    ensures var v' := Accept(n, v, p).server;
            && Accept(n, v, p) == Quiet(v') && v'.phase.Announcing? && Later(v, v') && v'.stash == v.stash
            && ServerOk(n, colors, i, v', sent, chosen) && CountOk(i, v', ps, sent)
  {
  }

  lemma StashedOnce(net: multiset<Packet>, stash: seq<Packet>, ps: set<Packet>, p: Packet)
    ensures forall q :: Copies(net, stash + [p], ps, q) == Copies(net, stash, ps, q) + if q == p then 1 else 0
  {
  }

  /** The packet is not what `receive` was asked for. */
  ghost predicate Unwanted(v: Server, p: Packet)
    requires v.phase.Receiving()
  {
    p.msg.kind != Decide && (p.msg.kind != v.phase.Wanted() || p.msg.round != v.round)
  }

  lemma SetAsideState(n: nat, s: State, i: nat, p: Packet)
    requires n > 0 && i < |s.servers| == |s.counted|
    requires s.servers[i].phase.Receiving() && Unwanted(s.servers[i], p)
    ensures var v := s.servers[i];
            Handle(n, s, i, p) == State(s.servers[i := Accept(n, v, p).server], s.net, s.sent,
                                        s.counted[i := if v.phase.Fresh() then {} else s.counted[i]], s.chosen)
  {
    assert s.counted[i := s.counted[i]] == s.counted;
  }

  lemma SetAsideServer(n: nat, colors: seq<string>, s: State, i: nat, p: Packet)
    requires Inv(n, colors, s) && i < n && s.servers[i].phase.Receiving() && InHand(s, i, p)
    requires Unwanted(s.servers[i], p)
    ensures var v' := Accept(n, s.servers[i], p).server;
            var ps := if s.servers[i].phase.Fresh() then {} else s.counted[i];
            && ServerOk(n, colors, i, v', s.sent, s.chosen) && CountOk(i, v', ps, s.sent)
  {
    ServerAt(n, colors, s, i);
  }

  lemma SetAsideCopies(n: nat, colors: seq<string>, s: State, i: nat, p: Packet)
    requires Inv(n, colors, s) && i < n && s.servers[i].phase.Receiving() && InHand(s, i, p)
    requires Unwanted(s.servers[i], p)
    ensures var v' := Accept(n, s.servers[i], p).server;
            var ps := if s.servers[i].phase.Fresh() then {} else s.counted[i];
            forall q: Packet :: q.msg.Counted() && q.dst == i ==> Copies(s.net, v'.stash, ps, q) <= 1
  {
    var v := s.servers[i];
    var v' := Accept(n, v, p).server;
    var ps := if v.phase.Fresh() then {} else s.counted[i];
    StashedOnce(s.net, v.stash, s.counted[i], p);
    forall q: Packet | q.msg.Counted() && q.dst == i ensures Copies(s.net, v'.stash, ps, q) <= 1 {
      assert Copies(s.net, v.stash, s.counted[i], q) <= 1;
    }
  }

  lemma SetAsideInv(n: nat, colors: seq<string>, s: State, i: nat, p: Packet)
    requires Inv(n, colors, s) && i < n && s.servers[i].phase.Receiving() && InHand(s, i, p)
    requires Unwanted(s.servers[i], p)
    ensures Inv(n, colors, Handle(n, s, i, p))
  {
    SetAsideServer(n, colors, s, i, p);
    SetAsideCopies(n, colors, s, i, p);
    QuietFrame(n, colors, s, i, Accept(n, s.servers[i], p).server,
               if s.servers[i].phase.Fresh() then {} else s.counted[i], s.chosen);
    SetAsideState(n, s, i, p);
  }

  lemma HandleProposeInv(n: nat, colors: seq<string>, s: State, i: nat, p: Packet)
    requires Inv(n, colors, s) && i < n && s.servers[i].phase.AwaitPropose? && InHand(s, i, p)
    requires p.msg.kind == Propose && p.msg.round == s.servers[i].round
    ensures Inv(n, colors, Handle(n, s, i, p))
  {
    assert PacketOk(n, colors, s.servers[p.src], s.sent, s.chosen, p);
    AcknowledgeInv(n, colors, s, i, [p.msg]);
  }

  lemma CountedOnce(n: nat, colors: seq<string>, s: State, i: nat, p: Packet)
    requires Inv(n, colors, s) && i < n && InHand(s, i, p) && p.msg.Counted()
    ensures p !in s.counted[i]
    ensures forall q: Packet :: q.msg.Counted() && q.dst == i ==>
              Copies(s.net, s.servers[i].stash, s.counted[i] + {p}, q) <= 1
  {
    forall q: Packet | q.msg.Counted() && q.dst == i
      ensures Copies(s.net, s.servers[i].stash, s.counted[i] + {p}, q) <= 1
    {
      assert Copies(s.net, s.servers[i].stash, s.counted[i], q) <= 1;
    }
  }

  /** What counting a PREPARE does to the server, before the quorum is complete. */
  lemma CountPrepareServer(
    n: nat, colors: seq<string>, i: nat, v: Server, ps: set<Packet>, sent: set<Packet>, chosen: map<nat, Choice>,
    p: Packet)
    requires n > 0 && v.phase.Collecting? && ServerOk(n, colors, i, v, sent, chosen) && CountOk(i, v, ps, sent)
    requires p in sent && p !in ps && p.dst == i && p.msg.kind == Prepare && p.msg.round == v.round
    requires p.msg.colorRound < p.msg.round && ColorFrom(colors, chosen, p.msg.color, p.msg.colorRound)
    ensures var v' := CountPrepare(n, v, p.msg);
            && Later(v, v') && v'.stash == v.stash && v'.colorRound < v.round && !v'.decided
            && v'.round == v.round && v'.id == i
            && ColorFrom(colors, chosen, v'.color, v'.colorRound)
            && (v'.phase.Collecting? ==> ServerOk(n, colors, i, v', sent, chosen))
            && CountOk(i, v', ps + {p}, sent)
            && |ps + {p}| == v.phase.received + 1
            && forall q :: q in ps + {p} ==>
                             q.msg.kind == Prepare && q.msg.round == v.round && q.msg.colorRound <= v'.colorRound
  {
  }

  lemma CountedState(n: nat, s: State, i: nat, p: Packet)
    requires n > 0 && i < |s.servers| == |s.counted|
    requires s.servers[i].phase.Collecting? || s.servers[i].phase.CollectAcks?
    requires p.msg.kind == s.servers[i].phase.Wanted() && p.msg.round == s.servers[i].round
    ensures var v' := Accept(n, s.servers[i], p).server;
            var ps := s.counted[i] + {p};
            Handle(n, s, i, p) ==
            State(s.servers[i := v'], s.net, s.sent, s.counted[i := ps],
                  if v'.phase.Proposing? then s.chosen[v'.round := Choice(v'.color, v'.colorRound, ps)] else s.chosen)
  {
  }

  lemma PreparePacket(n: nat, colors: seq<string>, s: State, p: Packet)
    requires Inv(n, colors, s) && p in s.sent && p.msg.kind == Prepare
    ensures p.msg.colorRound < p.msg.round && ColorFrom(colors, s.chosen, p.msg.color, p.msg.colorRound)
  {
    assert PacketOk(n, colors, s.servers[p.src], s.sent, s.chosen, p);
  }

  lemma CountMorePrepares(n: nat, colors: seq<string>, s: State, i: nat, p: Packet)
    requires Inv(n, colors, s) && i < n && s.servers[i].phase.Collecting? && InHand(s, i, p)
    requires p.msg.kind == Prepare && p.msg.round == s.servers[i].round
    requires CountPrepare(n, s.servers[i], p.msg).phase.Collecting?
    ensures Inv(n, colors, State(s.servers[i := CountPrepare(n, s.servers[i], p.msg)], s.net, s.sent,
                                 s.counted[i := s.counted[i] + {p}], s.chosen))
  {
    ServerAt(n, colors, s, i);
    PreparePacket(n, colors, s, p);
    CountedOnce(n, colors, s, i, p);
    CountPrepareServer(n, colors, i, s.servers[i], s.counted[i], s.sent, s.chosen, p);
    QuietFrame(n, colors, s, i, CountPrepare(n, s.servers[i], p.msg), s.counted[i] + {p}, s.chosen);
  }

  lemma CountLastPrepare(n: nat, colors: seq<string>, s: State, i: nat, p: Packet)
    requires Inv(n, colors, s) && i < n && s.servers[i].phase.Collecting? && InHand(s, i, p)
    requires p.msg.kind == Prepare && p.msg.round == s.servers[i].round
    requires !CountPrepare(n, s.servers[i], p.msg).phase.Collecting?
    ensures var v', ps := CountPrepare(n, s.servers[i], p.msg), s.counted[i] + {p};
            Inv(n, colors, State(s.servers[i := v'], s.net, s.sent, s.counted[i := ps],
                                 s.chosen[v'.round := Choice(v'.color, v'.colorRound, ps)]))
  {
    ServerAt(n, colors, s, i);
    PreparePacket(n, colors, s, p);
    CountedOnce(n, colors, s, i, p);
    CountPrepareServer(n, colors, i, s.servers[i], s.counted[i], s.sent, s.chosen, p);
    ChooseInv(n, colors, s, i, CountPrepare(n, s.servers[i], p.msg), s.counted[i] + {p});
  }

  lemma CountPrepareInv(n: nat, colors: seq<string>, s: State, i: nat, p: Packet)
    requires Inv(n, colors, s) && i < n && s.servers[i].phase.Collecting? && InHand(s, i, p)
    requires p.msg.kind == Prepare && p.msg.round == s.servers[i].round
    ensures Inv(n, colors, Handle(n, s, i, p))
  {
    CountedState(n, s, i, p);
    if CountPrepare(n, s.servers[i], p.msg).phase.Collecting? {
      CountMorePrepares(n, colors, s, i, p);
    } else {
      CountLastPrepare(n, colors, s, i, p);
    }
  }

  /** A leader still collecting has not chosen for this round. */
  lemma NotYetChosen(
    n: nat, colors: seq<string>, servers: seq<Server>, sent: set<Packet>, chosen: map<nat, Choice>, i: nat)
    requires |servers| == n && i < n && ChoicesOk(n, colors, servers, sent, chosen)
    requires servers[i].phase.Collecting? && i == Leader(n, servers[i].round)
    ensures servers[i].round !in chosen
  {
    forall r | r in chosen ensures r != servers[i].round {
      assert ChoiceOk(n, colors, servers, sent, chosen, r);
    }
  }

  /** The end of Phase 2: a majority of PREPAREs is in, and the leader commits to a colour. */
  lemma ChooseInv(n: nat, colors: seq<string>, s: State, i: nat, v': Server, ps: set<Packet>)
    requires Inv(n, colors, s) && i < n
    requires s.servers[i].phase.Collecting? && v'.phase == Proposing(0) && v'.stash == s.servers[i].stash
    requires v'.round == s.servers[i].round && v'.id == i && Later(s.servers[i], v')
    requires v'.colorRound < v'.round && !v'.decided && ColorFrom(colors, s.chosen, v'.color, v'.colorRound)
    requires |ps| == n / 2 + 1 && CountOk(i, v', ps, s.sent)
    requires forall q :: q in ps ==>
               q.msg.kind == Prepare && q.msg.round == v'.round && q.msg.colorRound <= v'.colorRound
    requires forall q: Packet :: q.msg.Counted() && q.dst == i ==> Copies(s.net, v'.stash, ps, q) <= 1
    ensures Inv(n, colors, State(s.servers[i := v'], s.net, s.sent, s.counted[i := ps],
                                 s.chosen[v'.round := Choice(v'.color, v'.colorRound, ps)]))
  {
    var chosen := s.chosen[v'.round := Choice(v'.color, v'.colorRound, ps)];
    ServerAt(n, colors, s, i);
    NotYetChosen(n, colors, s.servers, s.sent, s.chosen, i);
    assert ServerOk(n, colors, i, v', s.sent, chosen);
    assert ChoiceOk(n, colors, s.servers[i := v'], s.sent, chosen, v'.round);
    QuietFrame(n, colors, s, i, v', ps, chosen);
  }

  // Counting ACKs

  /** Packets of one kind and round come from as many servers as there are packets. */
  lemma {:induction false} DistinctSenders(sent: set<Packet>, ps: set<Packet>, kind: Kind, r: nat)
    requires OneEach(sent) && ps <= sent && (kind == Prepare || kind == Ack)
    requires forall p :: p in ps ==> p.msg.kind == kind && p.msg.round == r
    ensures |(set p | p in ps :: p.src)| == |ps|
  {
    if ps != {} {
      var p :| p in ps;
      var rest := ps - {p};
      DistinctSenders(sent, rest, kind, r);
      assert forall q :: q in rest ==> SameKey(p, q) || q.src != p.src;
      assert (set q | q in ps :: q.src) == (set q | q in rest :: q.src) + {p.src};
    }
  }

  lemma AckMajorityDecides(n: nat, colors: seq<string>, s: State, i: nat, ps: set<Packet>, r: nat)
    requires Inv(n, colors, s) && i < n && ps <= s.sent && r in s.chosen
    requires forall q :: q in ps ==> q.msg.kind == Ack && q.msg.round == r
    requires |Positive(ps)| > n / 2
    ensures Locked(n, s.sent, s.chosen, r)
  {
    var acks := Positive(ps);
    var senders := set q | q in acks :: q.src;
    DistinctSenders(s.sent, acks, Ack, r);
    forall j | j in senders ensures j in Ackers(n, s.sent, r) {
      var q :| q in acks && q.src == j;
      assert PacketOk(n, colors, s.servers[q.src], s.sent, s.chosen, q);
    }
    SubsetSize(senders, Ackers(n, s.sent, r));
  }

  lemma CountAckCount(n: nat, i: nat, v: Server, ps: set<Packet>, sent: set<Packet>, p: Packet)
    requires n > 0 && v.phase.CollectAcks? && CountOk(i, v, ps, sent)
    requires p in sent && p !in ps && p.dst == i && p.msg.kind == Ack && p.msg.round == v.round
    ensures CountOk(i, CountAck(n, v, p.msg), ps + {p}, sent)
    ensures |ps + {p}| == v.phase.total + 1
    ensures |Positive(ps + {p})| == v.phase.success + if p.msg.ack then 1 else 0
  {
    PositiveGrows(ps, p);
  }

  lemma PositiveGrows(ps: set<Packet>, p: Packet)
    requires p !in ps
    ensures |Positive(ps + {p})| == |Positive(ps)| + if p.msg.ack then 1 else 0
  {
    assert Positive(ps + {p}) == Positive(ps) + if p.msg.ack then {p} else {};
  }

  lemma CountAckServer(
    n: nat, colors: seq<string>, i: nat, v: Server, sent: set<Packet>, chosen: map<nat, Choice>, m: Message)
    requires n > 0 && v.phase.CollectAcks? && ServerOk(n, colors, i, v, sent, chosen)
    requires CountAck(n, v, m).decided ==> Locked(n, sent, chosen, v.round)
    ensures Later(v, CountAck(n, v, m)) && CountAck(n, v, m).stash == v.stash
    ensures ServerOk(n, colors, i, CountAck(n, v, m), sent, chosen)
  {
  }

  lemma CountAckDecision(n: nat, colors: seq<string>, s: State, i: nat, p: Packet)
    requires Inv(n, colors, s) && i < n && s.servers[i].phase.CollectAcks?
    requires p in s.sent && p !in s.counted[i] && p.dst == i && p.msg.kind == Ack && p.msg.round == s.servers[i].round
    ensures CountAck(n, s.servers[i], p.msg).decided ==> Locked(n, s.sent, s.chosen, s.servers[i].round)
  {
    var v, ps := s.servers[i], s.counted[i] + {p};
    ServerAt(n, colors, s, i);
    if CountAck(n, v, p.msg).decided {
      assert |Positive(ps)| > n / 2 by { CountAckCount(n, i, v, s.counted[i], s.sent, p); }
      AckMajorityDecides(n, colors, s, i, ps, v.round);
    }
  }

  lemma CountAckState(n: nat, s: State, i: nat, p: Packet)
    requires n > 0 && i < |s.servers| == |s.counted| && s.servers[i].phase.CollectAcks?
    requires p.msg.kind == Ack && p.msg.round == s.servers[i].round
    ensures Handle(n, s, i, p) ==
            State(s.servers[i := CountAck(n, s.servers[i], p.msg)], s.net, s.sent, s.counted[i := s.counted[i] + {p}],
              s.chosen)
  {
    CountedState(n, s, i, p);
  }

  lemma CountAckOk(n: nat, colors: seq<string>, s: State, i: nat, p: Packet)
    requires Inv(n, colors, s) && i < n && s.servers[i].phase.CollectAcks? && InHand(s, i, p)
    requires p.msg.kind == Ack && p.msg.round == s.servers[i].round
    ensures var v' := CountAck(n, s.servers[i], p.msg);
            && Later(s.servers[i], v') && v'.stash == s.servers[i].stash
            && ServerOk(n, colors, i, v', s.sent, s.chosen)
            && CountOk(i, v', s.counted[i] + {p}, s.sent)
  {
    var v := s.servers[i];
    assert p !in s.counted[i];
    ServerAt(n, colors, s, i);
    CountAckDecision(n, colors, s, i, p);
    assert CountOk(i, CountAck(n, v, p.msg), s.counted[i] + {p}, s.sent) by {
      CountAckCount(n, i, v, s.counted[i], s.sent, p);
    }
    CountAckServer(n, colors, i, v, s.sent, s.chosen, p.msg);
  }

  lemma CountAckInv(n: nat, colors: seq<string>, s: State, i: nat, p: Packet)
    requires Inv(n, colors, s) && i < n && s.servers[i].phase.CollectAcks? && InHand(s, i, p)
    requires p.msg.kind == Ack && p.msg.round == s.servers[i].round
    ensures Inv(n, colors, Handle(n, s, i, p))
  {
    CountedOnce(n, colors, s, i, p);
    CountAckOk(n, colors, s, i, p);
    QuietFrame(n, colors, s, i, CountAck(n, s.servers[i], p.msg), s.counted[i] + {p}, s.chosen);
    CountAckState(n, s, i, p);
  }

  // The induction step

  lemma HandleInv(n: nat, colors: seq<string>, s: State, i: nat, p: Packet)
    requires Inv(n, colors, s) && i < n && s.servers[i].phase.Receiving() && InHand(s, i, p)
    ensures Inv(n, colors, Handle(n, s, i, p))
  {
    var v := s.servers[i];
    if p.msg.kind == Decide {
      AdoptDecideInv(n, colors, s, i, p);
    } else if Unwanted(v, p) {
      SetAsideInv(n, colors, s, i, p);
    } else if v.phase.Collecting? {
      CountPrepareInv(n, colors, s, i, p);
    } else if v.phase.AwaitPropose? {
      HandleProposeInv(n, colors, s, i, p);
    } else {
      CountAckInv(n, colors, s, i, p);
    }
  }

  lemma ApplyInv(n: nat, colors: seq<string>, s: State, a: Action)
    requires Inv(n, colors, s) && Enabled(n, s, a)
    ensures Inv(n, colors, Apply(n, s, a))
  {
    match a
    case LocalStep(i) =>
      var v := s.servers[i];
      if Scanning(v) {
        TakeFromStash(n, colors, s, i);
        HandleInv(n, colors, s.(servers := s.servers[i := Unstash(v)]), i, v.stash[0]);
      } else if v.phase.AtPrepare? {
        SendPrepareInv(n, colors, s, i);
      } else if v.phase.Proposing? {
        SendProposeInv(n, colors, s, i);
      } else {
        SendDecideInv(n, colors, s, i);
      }
    case Receive(i, p) =>
      TakeFromNet(n, colors, s, p);
      HandleInv(n, colors, s.(net := s.net - multiset{p}), i, p);
    case Timeout(i) =>
      AcknowledgeInv(n, colors, s, i, []);
    case Lose(p) =>
      TakeFromNet(n, colors, s, p);
  }

  lemma NextInv(n: nat, colors: seq<string>, s: State, s': State)
    requires Inv(n, colors, s) && Next(n, s, s')
    ensures Inv(n, colors, s')
  {
    var a :| Enabled(n, s, a) && s' == Apply(n, s, a);
    ApplyInv(n, colors, s, a);
  }

  lemma {:induction false} RunInv(n: nat, colors: seq<string>, run: seq<State>, k: nat)
    requires IsRun(n, colors, run) && k < |run|
    ensures Inv(n, colors, run[k])
  {
    if k == 0 {
      InitInv(n, colors, run[0]);
    } else {
      RunInv(n, colors, run, k - 1);
      assert StepAt(n, run, k - 1);
      NextInv(n, colors, run[k - 1], run[k]);
    }
  }
}
