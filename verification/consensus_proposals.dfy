/** Where colours come from, on the wire: a positive colour round always has its PROPOSE. */
module ConsensusProposals {
  import opened ConsensusServer
  import opened ConsensusSystem
  import opened ConsensusInvariant

  /** A PROPOSE of round `r` with colour `c` was sent. */
  ghost predicate Proposed(sent: set<Packet>, r: nat, c: string) {
    exists p :: p in sent && p.msg.kind == Propose && p.msg.round == r && p.msg.color == c
  }

  ghost predicate HasProposal(sent: set<Packet>, r: nat) {
    exists p :: p in sent && p.msg.kind == Propose && p.msg.round == r
  }

  /** The colour a server holds was proposed in its colour round. */
  ghost predicate ServerBacked(sent: set<Packet>, v: Server) {
    !v.decided && v.colorRound > 0 ==> Proposed(sent, v.colorRound, v.color)
  }

  /** The colour a PREPARE reports was proposed in its colour round, and a positive ACK answers a
      PROPOSE of its round. */
  ghost predicate MessageBacked(sent: set<Packet>, m: Message) {
    && (m.kind == Prepare && m.colorRound > 0 ==> Proposed(sent, m.colorRound, m.color))
    && (m.kind == Ack && m.ack ==> HasProposal(sent, m.round))
  }

  ghost predicate Backed(s: State) {
    && (forall i :: 0 <= i < |s.servers| ==> ServerBacked(s.sent, s.servers[i]))
    && (forall p :: p in s.sent ==> MessageBacked(s.sent, p.msg))
  }

  lemma ProposedGrows(sent: set<Packet>, sent': set<Packet>, r: nat, c: string)
    requires Proposed(sent, r, c) && sent <= sent'
    ensures Proposed(sent', r, c)
  {
    var p :| p in sent && p.msg.kind == Propose && p.msg.round == r && p.msg.color == c;
    assert p in sent';
  }

  lemma MessageGrows(sent: set<Packet>, sent': set<Packet>, m: Message)
    requires MessageBacked(sent, m) && sent <= sent'
    ensures MessageBacked(sent', m)
  {
    if m.kind == Prepare && m.colorRound > 0 {
      ProposedGrows(sent, sent', m.colorRound, m.color);
    }
    if m.kind == Ack && m.ack {
      var p :| p in sent && p.msg.kind == Propose && p.msg.round == m.round;
      assert p in sent';
    }
  }

  lemma ServerGrowsBacked(sent: set<Packet>, sent': set<Packet>, v: Server)
    requires ServerBacked(sent, v) && sent <= sent'
    ensures ServerBacked(sent', v)
  {
    if !v.decided && v.colorRound > 0 {
      ProposedGrows(sent, sent', v.colorRound, v.color);
    }
  }

  /** What a section leaves: a backed server, and only backed messages. */
  ghost predicate OutcomeBacked(sent: set<Packet>, o: Outcome) {
    ServerBacked(sent, o.server) && forall p :: p in o.sends ==> MessageBacked(sent, p.msg)
  }

  lemma AcceptBacked(n: nat, v: Server, p: Packet, sent: set<Packet>)
    requires n > 0 && v.phase.Receiving() && !v.decided && ServerBacked(sent, v)
    requires p in sent && MessageBacked(sent, p.msg)
    ensures OutcomeBacked(sent, Accept(n, v, p))
  {
    if p.msg.kind == Propose {
      assert Proposed(sent, p.msg.round, p.msg.color);
    }
  }

  /** The sections that receive nothing. */
  lemma SilentBacked(n: nat, v: Server, sent: set<Packet>)
    requires n > 0 && ServerBacked(sent, v) && (v.decided <==> v.phase.Announcing?)
    ensures v.phase.AtPrepare? ==> OutcomeBacked(sent, SendPrepare(n, v))
    ensures v.phase.Proposing? ==> OutcomeBacked(sent, SendPropose(n, v))
    ensures v.phase.Announcing? ==> OutcomeBacked(sent, SendDecide(n, v))
    ensures v.phase.AwaitPropose? ==> OutcomeBacked(sent, Acknowledge(n, v, []))
  {
  }

  lemma InstallBacked(s: State, i: nat, o: Outcome, s': State)
    requires Backed(s) && i < |s.servers| && OutcomeBacked(s.sent, o)
    requires s'.servers == s.servers[i := o.server] && s'.sent == s.sent + AsSet(o.sends)
    ensures Backed(s')
  {
    forall j | 0 <= j < |s'.servers| ensures ServerBacked(s'.sent, s'.servers[j]) {
      ServerGrowsBacked(s.sent, s'.sent, s'.servers[j]);
    }
    forall p | p in s'.sent ensures MessageBacked(s'.sent, p.msg) {
      MessageGrows(s.sent, s'.sent, p.msg);
    }
  }

  lemma HandleBacked(n: nat, s: State, i: nat, v: Server, p: Packet, s0: State)
    requires n > 0 && Backed(s) && i < |s.servers| == |s.counted|
    requires v.phase.Receiving() && !v.decided && ServerBacked(s.sent, v) && p in s.sent
    requires s0.servers == s.servers[i := v] && s0.sent == s.sent && |s0.counted| == |s.counted|
    ensures Backed(Handle(n, s0, i, p))
  {
    AcceptBacked(n, v, p, s.sent);
    InstallBacked(s, i, Accept(n, v, p), Handle(n, s0, i, p));
  }

  lemma ScanBacked(n: nat, colors: seq<string>, s: State, i: nat)
    requires Inv(n, colors, s) && Backed(s) && i < n && Scanning(s.servers[i])
    ensures Backed(Apply(n, s, LocalStep(i)))
  {
    var v := s.servers[i];
    ServerAt(n, colors, s, i);
    StashFront(i, v.stash, s.sent);
    HandleBacked(n, s, i, Unstash(v), v.stash[0], s.(servers := s.servers[i := Unstash(v)]));
  }

  lemma ReceiveBacked(n: nat, colors: seq<string>, s: State, i: nat, p: Packet)
    requires Inv(n, colors, s) && Backed(s) && Enabled(n, s, Receive(i, p))
    ensures Backed(Apply(n, s, Receive(i, p)))
  {
    ServerAt(n, colors, s, i);
    HandleBacked(n, s, i, s.servers[i], p, s.(net := s.net - multiset{p}));
  }

  lemma ApplyBacked(n: nat, colors: seq<string>, s: State, a: Action)
    requires Inv(n, colors, s) && Backed(s) && Enabled(n, s, a)
    ensures Backed(Apply(n, s, a))
  {
    match a
    case LocalStep(i) =>
      if Scanning(s.servers[i]) {
        ScanBacked(n, colors, s, i);
      } else {
        ServerAt(n, colors, s, i);
        SilentBacked(n, s.servers[i], s.sent);
        InstallBacked(s, i, Step(n, s.servers[i]), Apply(n, s, a));
      }
    case Receive(i, p) => ReceiveBacked(n, colors, s, i, p);
    case Timeout(i) =>
      ServerAt(n, colors, s, i);
      SilentBacked(n, s.servers[i], s.sent);
      InstallBacked(s, i, Acknowledge(n, s.servers[i], []), Apply(n, s, a));
    case Lose(p) =>
  }

  lemma NextBacked(n: nat, colors: seq<string>, s: State, s': State)
    requires Inv(n, colors, s) && Backed(s) && Next(n, s, s')
    ensures Backed(s')
  {
    var a :| Enabled(n, s, a) && s' == Apply(n, s, a);
    ApplyBacked(n, colors, s, a);
  }

  lemma StepBacked(n: nat, colors: seq<string>, run: seq<State>, k: nat)
    requires IsRun(n, colors, run) && k + 1 < |run| && Backed(run[k])
    ensures Backed(run[k + 1])
  {
    RunInv(n, colors, run, k);
    assert StepAt(n, run, k);
    NextBacked(n, colors, run[k], run[k + 1]);
  }

  /** In every state of every run, each positive colour round and each positive ACK has its PROPOSE. */
  lemma {:induction false} RunBacked(n: nat, colors: seq<string>, run: seq<State>, k: nat)
    requires IsRun(n, colors, run) && k < |run|
    ensures Backed(run[k])
  {
    if k > 0 {
      RunBacked(n, colors, run, k - 1);
      StepBacked(n, colors, run, k - 1);
    }
  }

  // The record only grows

  /** A leader that is still collecting has not chosen for its round. */
  ghost predicate Undecided(s: State) {
    forall i :: 0 <= i < |s.servers| && s.servers[i].phase.Collecting? ==> s.servers[i].round !in s.chosen
  }

  lemma InvUndecided(n: nat, colors: seq<string>, s: State)
    requires Inv(n, colors, s)
    ensures Undecided(s)
  {
    forall i | 0 <= i < |s.servers| && s.servers[i].phase.Collecting? ensures s.servers[i].round !in s.chosen {
      ServerAt(n, colors, s, i);
      NotYetChosen(n, colors, s.servers, s.sent, s.chosen, i);
    }
  }

  /** The record of `s'` extends that of `s`, and what it adds is in flight. */
  ghost predicate Extends(s: State, s': State) {
    Grows(s.sent, s'.sent, s.chosen, s'.chosen) && forall p :: p in s'.sent && p !in s.sent ==> p in s'.net
  }

  lemma HandleExtends(n: nat, s: State, i: nat, p: Packet)
    requires n > 0 && i < |s.servers| == |s.counted| && s.servers[i].phase.Receiving()
    requires s.servers[i].phase.Collecting? ==> s.servers[i].round !in s.chosen
    ensures Extends(s, Handle(n, s, i, p))
  {
  }

  lemma ApplyExtends(n: nat, s: State, a: Action)
    requires n > 0 && |s.servers| == |s.counted| == n && Enabled(n, s, a) && Undecided(s)
    ensures Extends(s, Apply(n, s, a))
  {
    match a
    case LocalStep(i) =>
      var v := s.servers[i];
      if Scanning(v) {
        HandleExtends(n, s.(servers := s.servers[i := Unstash(v)]), i, v.stash[0]);
      }
    case Receive(i, p) => HandleExtends(n, s.(net := s.net - multiset{p}), i, p);
    case Timeout(_) =>
    case Lose(_) =>
  }

  lemma StepExtends(n: nat, colors: seq<string>, run: seq<State>, k: nat)
    requires IsRun(n, colors, run) && k + 1 < |run|
    ensures Extends(run[k], run[k + 1])
  {
    assert Undecided(run[k]) by {
      RunInv(n, colors, run, k);
      InvUndecided(n, colors, run[k]);
    }
    assert StepAt(n, run, k);
    var a :| Enabled(n, run[k], a) && run[k + 1] == Apply(n, run[k], a);
    ApplyExtends(n, run[k], a);
  }

  lemma {:induction false} RunGrows(n: nat, colors: seq<string>, run: seq<State>, j: nat, k: nat)
    requires IsRun(n, colors, run) && j <= k < |run|
    ensures Grows(run[j].sent, run[k].sent, run[j].chosen, run[k].chosen)
    decreases k
  {
    if j < k {
      RunGrows(n, colors, run, j, k - 1);
      StepExtends(n, colors, run, k - 1);
    }
  }

  /** A packet in flight in some state of the run. */
  ghost predicate SentDuring(run: seq<State>, p: Packet) {
    exists k :: 0 <= k < |run| && p in run[k].net
  }

  /** What the record says was sent was in flight. */
  lemma {:induction false} RecordIsTrue(n: nat, colors: seq<string>, run: seq<State>, k: nat, p: Packet)
    requires IsRun(n, colors, run) && k < |run| && p in run[k].sent
    ensures SentDuring(run, p)
  {
    if k > 0 {
      if p in run[k - 1].sent {
        RecordIsTrue(n, colors, run, k - 1, p);
      } else {
        StepExtends(n, colors, run, k - 1);
      }
    }
  }

  lemma NetIsSent(n: nat, colors: seq<string>, run: seq<State>, k: nat, p: Packet)
    requires IsRun(n, colors, run) && k < |run| && p in run[k].net
    ensures p in run[k].sent
  {
    RunInv(n, colors, run, k);
  }

  lemma SentAtEnd(n: nat, colors: seq<string>, run: seq<State>, p: Packet)
    requires IsRun(n, colors, run) && SentDuring(run, p)
    ensures p in run[|run| - 1].sent
  {
    var k :| 0 <= k < |run| && p in run[k].net;
    NetIsSent(n, colors, run, k, p);
    RunGrows(n, colors, run, k, |run| - 1);
  }

  lemma SentDuringIsSent(n: nat, colors: seq<string>, run: seq<State>, p: Packet)
    requires IsRun(n, colors, run) && SentDuring(run, p)
    ensures p in run[|run| - 1].sent && Inv(n, colors, run[|run| - 1])
  {
    SentAtEnd(n, colors, run, p);
    RunInv(n, colors, run, |run| - 1);
  }
}
