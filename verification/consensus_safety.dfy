/** The guarantees of the protocol over every run. */
module ConsensusSafety {
  import opened ConsensusServer
  import opened ConsensusSystem
  import opened ConsensusInvariant
  import opened ConsensusProposals

  /** Two majorities of `n` servers share a member. */
  lemma MajoritiesMeet(n: nat, a: set<int>, b: set<int>)
    requires forall j :: j in a || j in b ==> 0 <= j < n
    requires |a| > n / 2 && |b| > n / 2
    ensures a * b != {}
  {
    SubsetSize(a + b, Ids(n));
    assert a * b == {} ==> |a + b| == |a| + |b|;
  }

  /** All server ids. */
  function Ids(n: nat): (ids: set<int>)
    ensures |ids| == n
    ensures forall j :: j in ids <==> 0 <= j < n
  {
    if n == 0 then {} else Ids(n - 1) + {n - 1}
  }

  function Senders(ps: set<Packet>): set<int> { set p | p in ps :: p.src }

  /** Among the PREPAREs behind a later choice is one from a server that acknowledged round
      `r`, and it reports a colour round of at least `r`. */
  lemma BasisSeesLock(n: nat, colors: seq<string>, s: State, r: nat, r': nat)
    requires Inv(n, colors, s) && Locked(n, s.sent, s.chosen, r) && r' in s.chosen && r < r'
    ensures r <= s.chosen[r'].basisRound < r'
    ensures ColorFrom(colors, s.chosen, s.chosen[r'].color, s.chosen[r'].basisRound)
    ensures r > 0
  {
    assert ChoiceOk(n, colors, s.servers, s.sent, s.chosen, r);
    var basis := s.chosen[r'].basis;
    assert ChoiceOk(n, colors, s.servers, s.sent, s.chosen, r');
    DistinctSenders(s.sent, basis, Prepare, r');
    var prepared, acked := Senders(basis), Ackers(n, s.sent, r);
    forall j | j in prepared ensures 0 <= j < n {
      var p :| p in basis && p.src == j;
      assert p in s.sent;
    }
    assert |prepared| == |basis|;
    MajoritiesMeet(n, prepared, acked);
    var j :| j in prepared * acked;
    var p :| p in basis && p.src == j;
    var q := Packet(j, Leader(n, r), AckMessage(r, true));
    assert AckBeforePrepare(q, p);
  }

  /** Locking: once a majority has acknowledged round `r`, every later round chooses the same
      colour. */
  lemma {:induction false} LockedColorWins(n: nat, colors: seq<string>, s: State, r: nat, r': nat)
    requires Inv(n, colors, s) && Locked(n, s.sent, s.chosen, r) && r' in s.chosen && r <= r'
    ensures s.chosen[r'].color == s.chosen[r].color
    decreases r'
  {
    if r < r' {
      BasisSeesLock(n, colors, s, r, r');
      LockedColorWins(n, colors, s, r, s.chosen[r'].basisRound);
    }
  }

  lemma DecidedAt(n: nat, colors: seq<string>, run: seq<State>, k: nat, i: nat)
    requires IsRun(n, colors, run) && k < |run| && i < n && |run[k].servers| == n && run[k].servers[i].decided
    ensures Decided(n, run[k].sent, run[k].chosen, run[k].servers[i].color)
  {
    RunInv(n, colors, run, k);
    ServerAt(n, colors, run[k], i);
  }

  /** The colour of a server that has decided, at any point of the run, is decided at its end. */
  lemma DecidedAtEnd(n: nat, colors: seq<string>, run: seq<State>, k: nat, i: nat)
    requires IsRun(n, colors, run) && k < |run| && i < n && |run[k].servers| == n && run[k].servers[i].decided
    ensures var last := run[|run| - 1]; Decided(n, last.sent, last.chosen, run[k].servers[i].color)
  {
    var s, last := run[k], run[|run| - 1];
    DecidedAt(n, colors, run, k, i);
    RunGrows(n, colors, run, k, |run| - 1);
    DecidedGrows(n, s.sent, last.sent, s.chosen, last.chosen, s.servers[i].color);
  }

  lemma DecideAtEnd(n: nat, colors: seq<string>, run: seq<State>, p: Packet)
    requires IsRun(n, colors, run) && SentDuring(run, p) && p.msg.kind == Decide
    ensures var last := run[|run| - 1]; Decided(n, last.sent, last.chosen, p.msg.color)
  {
    var s := run[|run| - 1];
    SentDuringIsSent(n, colors, run, p);
    assert PacketOk(n, colors, s.servers[p.src], s.sent, s.chosen, p);
  }

  lemma LockedAtEnd(n: nat, colors: seq<string>, run: seq<State>, s: State, r: nat, r': nat)
    requires IsRun(n, colors, run) && s == run[|run| - 1]
    requires Locked(n, s.sent, s.chosen, r) && Locked(n, s.sent, s.chosen, r')
    ensures s.chosen[r].color == s.chosen[r'].color
  {
    if r <= r' {
      LaterLock(n, colors, run, s, r, r');
    } else {
      LaterLock(n, colors, run, s, r', r);
    }
  }

  lemma LaterLock(n: nat, colors: seq<string>, run: seq<State>, s: State, r: nat, r': nat)
    requires IsRun(n, colors, run) && s == run[|run| - 1] && r <= r'
    requires Locked(n, s.sent, s.chosen, r) && Locked(n, s.sent, s.chosen, r')
    ensures s.chosen[r].color == s.chosen[r'].color
  {
    LastInv(n, colors, run, s);
    LockedColorWins(n, colors, s, r, r');
  }

  lemma LastInv(n: nat, colors: seq<string>, run: seq<State>, s: State)
    requires IsRun(n, colors, run) && s == run[|run| - 1]
    ensures Inv(n, colors, s)
  {
    RunInv(n, colors, run, |run| - 1);
  }

  lemma UniqueAtEnd(n: nat, colors: seq<string>, run: seq<State>, c: string, d: string)
    requires IsRun(n, colors, run)
    requires var s := run[|run| - 1]; Decided(n, s.sent, s.chosen, c) && Decided(n, s.sent, s.chosen, d)
    ensures c == d
  {
    var s := run[|run| - 1];
    var r :| Locked(n, s.sent, s.chosen, r) && s.chosen[r].color == c;
    var r' :| Locked(n, s.sent, s.chosen, r') && s.chosen[r'].color == d;
    LockedAtEnd(n, colors, run, s, r, r');
  }

  /** Agreement: all DECIDE messages sent in a run carry the same colour. */
  lemma Agreement(n: nat, colors: seq<string>, run: seq<State>, p: Packet, q: Packet)
    requires IsRun(n, colors, run) && SentDuring(run, p) && SentDuring(run, q)
    requires p.msg.kind == Decide && q.msg.kind == Decide
    ensures p.msg.color == q.msg.color
  {
    DecideAtEnd(n, colors, run, p);
    DecideAtEnd(n, colors, run, q);
    UniqueAtEnd(n, colors, run, p.msg.color, q.msg.color);
  }

  /** Servers that have decided, whenever in the run, hold the same colour. */
  lemma DecidedServersAgree(n: nat, colors: seq<string>, run: seq<State>, k: nat, i: nat, m: nat, j: nat)
    requires IsRun(n, colors, run) && k < |run| && m < |run| && i < n && j < n
    requires |run[k].servers| == n && |run[m].servers| == n
    requires run[k].servers[i].decided && run[m].servers[j].decided
    ensures run[k].servers[i].color == run[m].servers[j].color
  {
    DecidedAtEnd(n, colors, run, k, i);
    DecidedAtEnd(n, colors, run, m, j);
    UniqueAtEnd(n, colors, run, run[k].servers[i].color, run[m].servers[j].color);
  }

  /** A server that has decided, whenever in the run, holds the colour of every DECIDE of the run. */
  lemma DecidedServerHoldsDecision(n: nat, colors: seq<string>, run: seq<State>, k: nat, i: nat, p: Packet)
    requires IsRun(n, colors, run) && k < |run| && i < n && |run[k].servers| == n && run[k].servers[i].decided
    requires SentDuring(run, p) && p.msg.kind == Decide
    ensures run[k].servers[i].color == p.msg.color
  {
    DecidedAtEnd(n, colors, run, k, i);
    DecideAtEnd(n, colors, run, p);
    UniqueAtEnd(n, colors, run, run[k].servers[i].color, p.msg.color);
  }

  /** The servers whose positive ACK for round `r` was in flight at some point of the run. */
  ghost predicate AckedBy(n: nat, run: seq<State>, r: nat, q: set<int>)
    requires n > 0
  {
    forall j :: j in q ==> 0 <= j < n && SentDuring(run, Packet(j, Leader(n, r), AckMessage(r, true)))
  }

  /** A PROPOSE of round `r` with colour `c` was in flight at some point of the run. */
  ghost predicate ProposedDuring(run: seq<State>, r: nat, c: string) {
    exists p :: SentDuring(run, p) && p.msg.kind == Propose && p.msg.round == r && p.msg.color == c
  }

  lemma RecordedProposal(n: nat, colors: seq<string>, run: seq<State>, k: nat, r: nat, c: string)
    requires IsRun(n, colors, run) && k < |run| && Proposed(run[k].sent, r, c)
    ensures ProposedDuring(run, r, c)
  {
    var p :| p in run[k].sent && p.msg.kind == Propose && p.msg.round == r && p.msg.color == c;
    RecordIsTrue(n, colors, run, k, p);
  }

  lemma AckBacked(n: nat, colors: seq<string>, run: seq<State>, p: Packet)
    requires IsRun(n, colors, run) && p in run[|run| - 1].sent && p.msg.kind == Ack && p.msg.ack
    ensures p.msg.round in run[|run| - 1].chosen
    ensures HasProposal(run[|run| - 1].sent, p.msg.round)
  {
    var s := run[|run| - 1];
    assert p.msg.round in s.chosen by {
      RunInv(n, colors, run, |run| - 1);
      assert PacketOk(n, colors, s.servers[p.src], s.sent, s.chosen, p);
    }
    RunBacked(n, colors, run, |run| - 1);
    assert MessageBacked(s.sent, p.msg);
  }

  lemma AckersLock(n: nat, colors: seq<string>, run: seq<State>, r: nat, q: set<int>)
    requires IsRun(n, colors, run) && n > 0 && |q| > n / 2 && AckedBy(n, run, r, q)
    ensures var s := run[|run| - 1]; Locked(n, s.sent, s.chosen, r) && HasProposal(s.sent, r)
  {
    var s := run[|run| - 1];
    forall j | j in q ensures j in Ackers(n, s.sent, r) {
      SentAtEnd(n, colors, run, Packet(j, Leader(n, r), AckMessage(r, true)));
    }
    SubsetSize(q, Ackers(n, s.sent, r));
    var j :| j in q;
    AckBacked(n, colors, run, Packet(j, Leader(n, r), AckMessage(r, true)));
  }

  lemma LaterProposals(n: nat, colors: seq<string>, run: seq<State>, r: nat, p: Packet, q: Packet)
    requires IsRun(n, colors, run) && Locked(n, run[|run| - 1].sent, run[|run| - 1].chosen, r)
    requires p in run[|run| - 1].sent && p.msg.kind == Propose && p.msg.round >= r
    requires q in run[|run| - 1].sent && q.msg.kind == Propose && q.msg.round >= r
    ensures p.msg.color == q.msg.color
  {
    var s := run[|run| - 1];
    LastInv(n, colors, run, s);
    LockedColorWins(n, colors, s, r, p.msg.round);
    LockedColorWins(n, colors, s, r, q.msg.round);
  }

  /** Locking, stated on the wire: if a majority sent a positive ACK for round `r`, then one colour was
      proposed in round `r`, and every PROPOSE of that round and of every later one carries it. */
  lemma Locking(n: nat, colors: seq<string>, run: seq<State>, r: nat, q: set<int>) returns (c: string)
    requires IsRun(n, colors, run) && |q| > n / 2 && AckedBy(n, run, r, q)
    ensures ProposedDuring(run, r, c)
    ensures forall p | SentDuring(run, p) && p.msg.kind == Propose && p.msg.round >= r :: p.msg.color == c
  {
    var s := run[|run| - 1];
    AckersLock(n, colors, run, r, q);
    var first :| first in s.sent && first.msg.kind == Propose && first.msg.round == r;
    c := first.msg.color;
    RecordIsTrue(n, colors, run, |run| - 1, first);
    forall p | SentDuring(run, p) && p.msg.kind == Propose && p.msg.round >= r ensures p.msg.color == c {
      SentAtEnd(n, colors, run, p);
      LaterProposals(n, colors, run, r, p, first);
    }
  }

  /** Each round has at most one proposed colour. */
  lemma OneProposalPerRound(n: nat, colors: seq<string>, run: seq<State>, p: Packet, q: Packet)
    requires IsRun(n, colors, run) && SentDuring(run, p) && SentDuring(run, q)
    requires p.msg.kind == Propose && q.msg.kind == Propose && p.msg.round == q.msg.round
    ensures p.msg.color == q.msg.color
  {
    SentDuringIsSent(n, colors, run, p);
    SentDuringIsSent(n, colors, run, q);
  }

  /** `js` are servers each of which sent a message of kind `kind` for round `r`. */
  ghost predicate SentBy(sent: set<Packet>, js: set<int>, kind: Kind, r: nat) {
    forall j :: j in js ==> exists p :: p in sent && p.src == j && p.msg.kind == kind && p.msg.round == r
  }

  lemma CountedSenders(sent: set<Packet>, ps: set<Packet>, kind: Kind, r: nat)
    requires OneEach(sent) && ps <= sent && (kind == Prepare || kind == Ack)
    requires forall p :: p in ps ==> p.msg.kind == kind && p.msg.round == r
    ensures |Senders(ps)| == |ps| && SentBy(sent, Senders(ps), kind, r)
  {
    DistinctSenders(sent, ps, kind, r);
  }

  /** Counter soundness: although messages carry no sender, `received_prepare` and `success`
      are the numbers of distinct servers that sent a PREPARE, and a positive ACK, for the
      leader's current round. */
  lemma CounterSoundness(n: nat, colors: seq<string>, run: seq<State>, k: nat, i: nat) returns (js: set<int>)
    requires IsRun(n, colors, run) && k < |run| && i < n && |run[k].servers| == n
    ensures forall j :: j in js ==> 0 <= j < n
    ensures var v := run[k].servers[i];
            && (v.phase.Collecting? ==>
                  |js| == v.phase.received && SentBy(run[k].sent, js, Prepare, v.round))
            && (v.phase.CollectAcks? ==>
                  |js| == v.phase.success && js <= Ackers(n, run[k].sent, v.round))
  {
    var v := run[k].servers[i];
    js := {};
    if v.phase.Collecting? {
      js := PreparesCounted(n, colors, run, k, i);
    } else if v.phase.CollectAcks? {
      js := AcksCounted(n, colors, run, k, i);
    }
  }

  lemma SendersInRange(n: nat, colors: seq<string>, s: State, ps: set<Packet>)
    requires Inv(n, colors, s) && ps <= s.sent
    ensures forall j :: j in Senders(ps) ==> 0 <= j < n
  {
    forall p | p in ps ensures 0 <= p.src < n {
      assert p in s.sent;
    }
  }

  lemma PreparesCounted(n: nat, colors: seq<string>, run: seq<State>, k: nat, i: nat) returns (js: set<int>)
    requires IsRun(n, colors, run) && k < |run| && i < n && |run[k].servers| == n
    requires run[k].servers[i].phase.Collecting?
    ensures forall j :: j in js ==> 0 <= j < n
    ensures |js| == run[k].servers[i].phase.received && SentBy(run[k].sent, js, Prepare, run[k].servers[i].round)
  {
    var s := run[k];
    RunInv(n, colors, run, k);
    ServerAt(n, colors, s, i);
    CountedSenders(s.sent, s.counted[i], Prepare, s.servers[i].round);
    SendersInRange(n, colors, s, s.counted[i]);
    js := Senders(s.counted[i]);
  }

  lemma AcksCounted(n: nat, colors: seq<string>, run: seq<State>, k: nat, i: nat) returns (js: set<int>)
    requires IsRun(n, colors, run) && k < |run| && i < n && |run[k].servers| == n
    requires run[k].servers[i].phase.CollectAcks?
    ensures forall j :: j in js ==> 0 <= j < n
    ensures |js| == run[k].servers[i].phase.success && js <= Ackers(n, run[k].sent, run[k].servers[i].round)
  {
    var s, r := run[k], run[k].servers[i].round;
    RunInv(n, colors, run, k);
    ServerAt(n, colors, s, i);
    var acks := Positive(s.counted[i]);
    CountedSenders(s.sent, acks, Ack, r);
    js := Senders(acks);
    AckersOf(n, colors, s, acks, r);
  }

  lemma AckersOf(n: nat, colors: seq<string>, s: State, acks: set<Packet>, r: nat)
    requires Inv(n, colors, s) && acks <= s.sent
    requires forall q :: q in acks ==> q.msg.kind == Ack && q.msg.ack && q.msg.round == r
    ensures Senders(acks) <= Ackers(n, s.sent, r)
  {
    forall j | j in Senders(acks) ensures j in Ackers(n, s.sent, r) {
      var q :| q in acks && q.src == j;
      assert PacketOk(n, colors, s.servers[q.src], s.sent, s.chosen, q);
    }
  }

  // Validity

  lemma {:induction false} ChosenIsInitial(n: nat, colors: seq<string>, s: State, r: nat)
    requires Inv(n, colors, s) && r in s.chosen
    ensures s.chosen[r].color in colors
  {
    assert ChoiceOk(n, colors, s.servers, s.sent, s.chosen, r);
    if s.chosen[r].basisRound > 0 {
      ChosenIsInitial(n, colors, s, s.chosen[r].basisRound);
    }
  }

  /** Validity: every colour prepared, proposed or decided is some server's initial colour; ACKs carry
      none. */
  lemma Validity(n: nat, colors: seq<string>, run: seq<State>, p: Packet)
    requires IsRun(n, colors, run) && SentDuring(run, p) && p.msg.kind != Ack
    ensures p.msg.color in colors
  {
    SentDuringIsSent(n, colors, run, p);
    var s := run[|run| - 1];
    var m := p.msg;
    assert PacketOk(n, colors, s.servers[p.src], s.sent, s.chosen, p);
    match m.kind
    case Prepare =>
      if m.colorRound > 0 {
        ChosenIsInitial(n, colors, s, m.colorRound);
      }
    case Propose => ChosenIsInitial(n, colors, s, m.round);
    case Ack =>
    case Decide =>
      var r :| Locked(n, s.sent, s.chosen, r) && s.chosen[r].color == m.color;
      ChosenIsInitial(n, colors, s, r);
  }

  /** Every colour held by a server is some server's initial colour. */
  lemma HeldColorsAreInitial(n: nat, colors: seq<string>, run: seq<State>, k: nat, i: nat)
    requires IsRun(n, colors, run) && k < |run| && i < n && |run[k].servers| == n
    ensures run[k].servers[i].color in colors
  {
    var s, v := run[k], run[k].servers[i];
    RunInv(n, colors, run, k);
    ServerAt(n, colors, s, i);
    if v.decided {
      var r :| Locked(n, s.sent, s.chosen, r) && s.chosen[r].color == v.color;
      ChosenIsInitial(n, colors, s, r);
    } else if v.colorRound > 0 {
      ChosenIsInitial(n, colors, s, v.colorRound);
    }
  }

  /** A positive colour round names a round in which exactly the colour held was proposed: a PROPOSE
      with it was in flight, and every PROPOSE of that round carries it. */
  lemma ColorRoundMeans(n: nat, colors: seq<string>, run: seq<State>, k: nat, i: nat)
    requires IsRun(n, colors, run) && k < |run| && i < n && |run[k].servers| == n
    requires !run[k].servers[i].decided && run[k].servers[i].colorRound > 0
    ensures Proposed(run[k].sent, run[k].servers[i].colorRound, run[k].servers[i].color)
    ensures ProposedDuring(run, run[k].servers[i].colorRound, run[k].servers[i].color)
    ensures forall p | SentDuring(run, p) && p.msg.kind == Propose && p.msg.round == run[k].servers[i].colorRound ::
              p.msg.color == run[k].servers[i].color
  {
    var v := run[k].servers[i];
    RunBacked(n, colors, run, k);
    assert ServerBacked(run[k].sent, v);
    RecordedProposal(n, colors, run, k, v.colorRound, v.color);
    var p :| SentDuring(run, p) && p.msg.kind == Propose && p.msg.round == v.colorRound && p.msg.color == v.color;
    forall q | SentDuring(run, q) && q.msg.kind == Propose && q.msg.round == v.colorRound
      ensures q.msg.color == v.color
    {
      OneProposalPerRound(n, colors, run, p, q);
    }
  }

  /** What a PREPARE reports was proposed in its colour round, and a positive ACK answers a PROPOSE. */
  lemma ReportsAreProposed(n: nat, colors: seq<string>, run: seq<State>, p: Packet)
    requires IsRun(n, colors, run) && SentDuring(run, p)
    ensures p.msg.kind == Prepare && p.msg.colorRound > 0 ==> ProposedDuring(run, p.msg.colorRound, p.msg.color)
    ensures p.msg.kind == Ack && p.msg.ack ==> exists q ::
              SentDuring(run, q) && q.msg.kind == Propose && q.msg.round == p.msg.round
  {
    var last := |run| - 1;
    SentAtEnd(n, colors, run, p);
    RunBacked(n, colors, run, last);
    assert MessageBacked(run[last].sent, p.msg);
    if p.msg.kind == Prepare && p.msg.colorRound > 0 {
      RecordedProposal(n, colors, run, last, p.msg.colorRound, p.msg.color);
    }
    if p.msg.kind == Ack && p.msg.ack {
      var q :| q in run[last].sent && q.msg.kind == Propose && q.msg.round == p.msg.round;
      RecordIsTrue(n, colors, run, last, q);
    }
  }

  /** Every colour decided was proposed in a round that a majority acknowledged. */
  lemma DecisionWasProposed(n: nat, colors: seq<string>, run: seq<State>, p: Packet) returns (r: nat)
    requires IsRun(n, colors, run) && SentDuring(run, p) && p.msg.kind == Decide
    ensures ProposedDuring(run, r, p.msg.color)
    ensures n > 0 && |Ackers(n, run[|run| - 1].sent, r)| > n / 2
  {
    var s := run[|run| - 1];
    DecideAtEnd(n, colors, run, p);
    r :| Locked(n, s.sent, s.chosen, r) && s.chosen[r].color == p.msg.color;
    var j :| j in Ackers(n, s.sent, r);
    AckBacked(n, colors, run, Packet(j, Leader(n, r), AckMessage(r, true)));
    var q :| q in s.sent && q.msg.kind == Propose && q.msg.round == r;
    ChosenIsProposed(n, colors, run, q);
    RecordIsTrue(n, colors, run, |run| - 1, q);
  }

  lemma ChosenIsProposed(n: nat, colors: seq<string>, run: seq<State>, p: Packet)
    requires IsRun(n, colors, run) && p in run[|run| - 1].sent && p.msg.kind == Propose
    ensures p.msg.round in run[|run| - 1].chosen && run[|run| - 1].chosen[p.msg.round].color == p.msg.color
  {
    var s := run[|run| - 1];
    RunInv(n, colors, run, |run| - 1);
    assert PacketOk(n, colors, s.servers[p.src], s.sent, s.chosen, p);
  }

  /** Only DECIDEs are addressed to Nancy. */
  lemma NancyHearsDecides(n: nat, colors: seq<string>, run: seq<State>, p: Packet)
    requires IsRun(n, colors, run) && SentDuring(run, p) && p.dst == NANCY
    ensures p.msg.kind == Decide
  {
    SentDuringIsSent(n, colors, run, p);
    var s := run[|run| - 1];
    assert PacketOk(n, colors, s.servers[p.src], s.sent, s.chosen, p);
  }

  /** Unanimous starts force the decision. */
  lemma Unanimity(n: nat, colors: seq<string>, run: seq<State>, c: string, p: Packet)
    requires IsRun(n, colors, run) && SentDuring(run, p) && p.msg.kind == Decide
    requires forall i :: 0 <= i < n ==> colors[i] == c
    ensures p.msg.color == c
  {
    Validity(n, colors, run, p);
  }
}
