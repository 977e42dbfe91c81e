/** What every server has put on the wire, packet by packet, and what it keeps of what it was handed. */
module ConsensusSends {
  import opened ConsensusServer
  import opened ConsensusSystem
  import opened ConsensusInvariant
  import opened ConsensusProposals

  // The packets of a round, written out

  /** Server `i` sent round `r`'s leader, which is `r` modulo `n`, a PREPARE. */
  ghost predicate Prepared(n: nat, sent: set<Packet>, i: nat, r: nat)
    requires n > 0
  { exists c, k :: Packet(i, r % n, Message(Prepare, r, c, k, false)) in sent }

  /** It sent that leader an ACK, positive or negative. */
  ghost predicate Acked(n: nat, sent: set<Packet>, i: nat, r: nat)
    requires n > 0
  { exists ack :: Packet(i, r % n, Message(Ack, r, "", 0, ack)) in sent }

  /** It sent a PROPOSE of round `r` with colour `c` to each of the servers below `upTo`. */
  ghost predicate ProposedTo(sent: set<Packet>, i: nat, r: nat, c: string, upTo: nat) {
    forall j: nat | j < upTo :: Packet(i, j, Message(Propose, r, c, 0, false)) in sent
  }

  ghost predicate ProposedToAll(n: nat, sent: set<Packet>, i: nat, r: nat) { exists c :: ProposedTo(sent, i, r, c, n) }

  /** It told the observer and every other server below `upTo` that it decided `c`. */
  ghost predicate Told(sent: set<Packet>, i: nat, c: string, upTo: int) {
    && (upTo > -1 ==> Packet(i, -1, Message(Decide, 0, c, 0, false)) in sent)
    && forall j: nat | j < upTo && j != i :: Packet(i, j, Message(Decide, 0, c, 0, false)) in sent
  }

  ghost predicate RoundDone(n: nat, sent: set<Packet>, i: nat, r: nat)
    requires n > 0
  { Prepared(n, sent, i, r) && Acked(n, sent, i, r) && (r % n == i ==> ProposedToAll(n, sent, i, r)) }

  /** What server `i` has sent of its present round. */
  ghost predicate RoundSoFar(n: nat, sent: set<Packet>, i: nat, v: Server)
    requires n > 0
  {
    && (!v.phase.AtPrepare? && !v.phase.Announcing? ==> Prepared(n, sent, i, v.round))
    && (v.phase.Proposing? ==> v.phase.next <= n && ProposedTo(sent, i, v.round, v.color, v.phase.next))
    && ((v.phase.AwaitPropose? || v.phase.CollectAcks?) && v.round % n == i ==> ProposedToAll(n, sent, i, v.round))
    && (v.phase.CollectAcks? ==> Acked(n, sent, i, v.round))
    && (v.phase.Announcing? ==> v.phase.target >= -1 && Told(sent, i, v.color, v.phase.target))
  }

  /** Every round behind it is complete. */
  ghost predicate SendsOk(n: nat, sent: set<Packet>, i: nat, v: Server)
    requires n > 0
  {
    RoundSoFar(n, sent, i, v) && forall r: nat {:trigger RoundDone(n, sent, i, r)} | 1 <= r < v.round ::
      RoundDone(n, sent, i, r)
  }

  lemma RoundGrows(n: nat, sent: set<Packet>, sent': set<Packet>, i: nat, r: nat)
    requires n > 0 && sent <= sent'
    ensures Prepared(n, sent, i, r) ==> Prepared(n, sent', i, r)
    ensures Acked(n, sent, i, r) ==> Acked(n, sent', i, r)
    ensures ProposedToAll(n, sent, i, r) ==> ProposedToAll(n, sent', i, r)
  {
    if ProposedToAll(n, sent, i, r) {
      var c :| ProposedTo(sent, i, r, c, n);
      assert ProposedTo(sent', i, r, c, n);
    }
  }

  lemma SendsGrow(n: nat, sent: set<Packet>, sent': set<Packet>, i: nat, v: Server)
    requires n > 0 && sent <= sent' && SendsOk(n, sent, i, v)
    ensures SendsOk(n, sent', i, v)
  {
    RoundGrows(n, sent, sent', i, v.round);
    forall r: nat | 1 <= r < v.round ensures RoundDone(n, sent', i, r) {
      assert RoundDone(n, sent, i, r);
      RoundGrows(n, sent, sent', i, r);
    }
  }

  /** A section that stays in its round. */
  lemma SameRound(n: nat, sent: set<Packet>, sent': set<Packet>, i: nat, v: Server, v': Server)
    requires n > 0 && sent <= sent' && SendsOk(n, sent, i, v) && v'.round == v.round && RoundSoFar(n, sent', i, v')
    ensures SendsOk(n, sent', i, v')
  {
    SendsGrow(n, sent, sent', i, v);
  }

  lemma PrepareSends(n: nat, v: Server, sent: set<Packet>)
    requires n > 0 && v.phase.AtPrepare? && SendsOk(n, sent, v.id, v)
    ensures var o := SendPrepare(n, v); SendsOk(n, sent + AsSet(o.sends), v.id, o.server)
  {
    var o := SendPrepare(n, v);
    var sent' := sent + AsSet(o.sends);
    assert Packet(v.id, v.round % n, Message(Prepare, v.round, v.color, v.colorRound, false)) in sent';
    SameRound(n, sent, sent', v.id, v, o.server);
  }

  lemma ProposeSends(n: nat, v: Server, sent: set<Packet>)
    requires n > 0 && v.phase.Proposing? && SendsOk(n, sent, v.id, v)
    ensures var o := SendPropose(n, v); SendsOk(n, sent + AsSet(o.sends), v.id, o.server)
  {
    var o := SendPropose(n, v);
    var sent' := sent + AsSet(o.sends);
    RoundGrows(n, sent, sent', v.id, v.round);
    if v.phase.next < n {
      assert Packet(v.id, v.phase.next, Message(Propose, v.round, v.color, 0, false)) in sent';
    } else {
      assert ProposedTo(sent', v.id, v.round, v.color, n);
    }
    SameRound(n, sent, sent', v.id, v, o.server);
  }

  lemma DecideSends(n: nat, v: Server, sent: set<Packet>)
    requires n > 0 && v.phase.Announcing? && SendsOk(n, sent, v.id, v)
    ensures var o := SendDecide(n, v); SendsOk(n, sent + AsSet(o.sends), v.id, o.server)
  {
    var o := SendDecide(n, v);
    var sent', j := sent + AsSet(o.sends), v.phase.target;
    assert j != v.id ==> Packet(v.id, j, Message(Decide, 0, v.color, 0, false)) in sent';
    SameRound(n, sent, sent', v.id, v, o.server);
  }

  /** A round that has been prepared, acknowledged and, by its leader, proposed is done. */
  lemma NextRoundSends(n: nat, v: Server, sent: set<Packet>)
    requires n > 0 && Prepared(n, sent, v.id, v.round) && Acked(n, sent, v.id, v.round)
    requires v.round % n == v.id ==> ProposedToAll(n, sent, v.id, v.round)
    requires forall r: nat {:trigger RoundDone(n, sent, v.id, r)} | 1 <= r < v.round :: RoundDone(n, sent, v.id, r)
    ensures SendsOk(n, sent, v.id, NextRound(v))
  {
    assert RoundDone(n, sent, v.id, v.round);
  }

  lemma AcknowledgeSends(n: nat, v: Server, proposal: seq<Message>, sent: set<Packet>)
    requires n > 0 && v.phase.AwaitPropose? && |proposal| <= 1 && SendsOk(n, sent, v.id, v)
    ensures var o := Acknowledge(n, v, proposal); SendsOk(n, sent + AsSet(o.sends), v.id, o.server)
  {
    var o := Acknowledge(n, v, proposal);
    var sent' := sent + AsSet(o.sends);
    RoundGrows(n, sent, sent', v.id, v.round);
    SendsGrow(n, sent, sent', v.id, v);
    assert Packet(v.id, v.round % n, Message(Ack, v.round, "", 0, |proposal| == 1)) in sent';
    if v.round % n == v.id {
      SameRound(n, sent, sent', v.id, v, o.server);
    } else {
      var s1 := if |proposal| == 1 then v.(color := proposal[0].color, colorRound := v.round) else v;
      NextRoundSends(n, s1, sent');
    }
  }

  lemma CountAckSends(n: nat, v: Server, m: Message, sent: set<Packet>)
    requires n > 0 && v.phase.CollectAcks? && v.round % n == v.id && SendsOk(n, sent, v.id, v)
    ensures SendsOk(n, sent, v.id, CountAck(n, v, m))
  {
    NextRoundSends(n, v, sent);
    var v' := CountAck(n, v, m);
    if v'.round == v.round {
      SameRound(n, sent, sent, v.id, v, v');
    }
  }

  lemma AcceptSends(n: nat, v: Server, p: Packet, sent: set<Packet>)
    requires n > 0 && v.phase.Receiving() && (v.phase.CollectAcks? ==> v.round % n == v.id) && SendsOk(n, sent, v.id, v)
    ensures var o := Accept(n, v, p); SendsOk(n, sent + AsSet(o.sends), v.id, o.server)
  {
    var o, m := Accept(n, v, p), p.msg;
    if m.kind == Decide || m.kind != v.phase.Wanted() || m.round != v.round || v.phase.Collecting? {
      assert sent + AsSet([]) == sent;
      SameRound(n, sent, sent, v.id, v, o.server);
    } else if v.phase.AwaitPropose? {
      AcknowledgeSends(n, v, [m], sent);
    } else {
      assert sent + AsSet([]) == sent;
      CountAckSends(n, v, m, sent);
    }
  }

  // Over runs

  ghost predicate AllSend(n: nat, servers: seq<Server>, sent: set<Packet>)
    requires n > 0
  { forall i: nat {:trigger SendsOk(n, sent, i, servers[i])} | i < |servers| :: SendsOk(n, sent, i, servers[i]) }

  lemma InstallSends(n: nat, s: State, i: nat, o: Outcome, s': State)
    requires n > 0 && AllSend(n, s.servers, s.sent) && i < |s.servers|
    requires s'.servers == s.servers[i := o.server] && s'.sent == s.sent + AsSet(o.sends)
    requires SendsOk(n, s'.sent, i, o.server)
    ensures AllSend(n, s'.servers, s'.sent)
  {
    forall j: nat | j < |s'.servers| ensures SendsOk(n, s'.sent, j, s'.servers[j]) {
      if j != i {
        assert SendsOk(n, s.sent, j, s.servers[j]);
        SendsGrow(n, s.sent, s'.sent, j, s.servers[j]);
      }
    }
  }

  /** What the invariant says of a server that these steps need. */
  ghost predicate Placed(n: nat, i: nat, v: Server)
    requires n > 0
  { v.id == i && (v.phase.CollectAcks? ==> v.round % n == i) }

  lemma UnstashSends(n: nat, v: Server, sent: set<Packet>)
    requires n > 0 && Scanning(v) && SendsOk(n, sent, v.id, v)
    ensures SendsOk(n, sent, v.id, Unstash(v))
  {
    SameRound(n, sent, sent, v.id, v, Unstash(v));
  }

  lemma StepSends(n: nat, v: Server, sent: set<Packet>)
    requires n > 0 && CanStep(n, v) && !Scanning(v) && Placed(n, v.id, v) && SendsOk(n, sent, v.id, v)
    ensures var o := Step(n, v); SendsOk(n, sent + AsSet(o.sends), v.id, o.server)
  {
    if v.phase.AtPrepare? {
      PrepareSends(n, v, sent);
    } else if v.phase.Proposing? {
      ProposeSends(n, v, sent);
    } else {
      DecideSends(n, v, sent);
    }
  }

  lemma SectionSends(n: nat, v: Server, a: Action, sent: set<Packet>)
    requires n > 0 && Takes(n, v, a) && Placed(n, v.id, v) && SendsOk(n, sent, v.id, v)
    ensures var o := SectionOf(n, v, a); SendsOk(n, sent + AsSet(o.sends), v.id, o.server)
  {
    match a
    case LocalStep(_) =>
      if Scanning(v) {
        UnstashSends(n, v, sent);
        AcceptSends(n, Unstash(v), v.stash[0], sent);
      } else {
        StepSends(n, v, sent);
      }
    case Receive(_, p) => AcceptSends(n, v, p, sent);
    case Timeout(_) => AcknowledgeSends(n, v, [], sent);
  }

  lemma ApplySends(n: nat, s: State, a: Action)
    requires n > 0 && |s.servers| == |s.counted| == n && Enabled(n, s, a) && AllSend(n, s.servers, s.sent)
    requires forall i: nat {:trigger Placed(n, i, s.servers[i])} | i < n :: Placed(n, i, s.servers[i])
    ensures var t := Apply(n, s, a); |t.servers| == n && AllSend(n, t.servers, t.sent)
  {
    ApplyEffect(n, s, a);
    if !a.Lose? {
      assert Placed(n, a.i, s.servers[a.i]) && SendsOk(n, s.sent, a.i, s.servers[a.i]);
      SectionSends(n, s.servers[a.i], a, s.sent);
      InstallSends(n, s, a.i, SectionOf(n, s.servers[a.i], a), Apply(n, s, a));
    }
  }

  lemma NextSends(n: nat, s: State, s': State)
    requires n > 0 && |s.servers| == n && Next(n, s, s') && AllSend(n, s.servers, s.sent)
    requires forall i: nat {:trigger Placed(n, i, s.servers[i])} | i < n :: Placed(n, i, s.servers[i])
    ensures |s'.servers| == n && AllSend(n, s'.servers, s'.sent)
  {
    var a :| Enabled(n, s, a) && s' == Apply(n, s, a);
    ApplySends(n, s, a);
  }

  lemma InvPlaced(n: nat, colors: seq<string>, s: State)
    requires Inv(n, colors, s)
    ensures forall i: nat {:trigger Placed(n, i, s.servers[i])} | i < n :: Placed(n, i, s.servers[i])
  {
    forall i: nat | i < n ensures Placed(n, i, s.servers[i]) {
      ServerAt(n, colors, s, i);
    }
  }

  lemma AllPlaced(n: nat, colors: seq<string>, run: seq<State>, k: nat)
    requires IsRun(n, colors, run) && k < |run|
    ensures |run[k].servers| == |run[k].counted| == n > 0
    ensures forall i: nat {:trigger Placed(n, i, run[k].servers[i])} | i < n :: Placed(n, i, run[k].servers[i])
  {
    assert Inv(n, colors, run[k]) by { RunInv(n, colors, run, k); }
    InvPlaced(n, colors, run[k]);
  }

  lemma InitSends(n: nat, colors: seq<string>, s: State)
    requires Init(n, colors, s)
    ensures n > 0 && |s.servers| == n && AllSend(n, s.servers, s.sent)
  {
    forall i: nat | i < n ensures SendsOk(n, s.sent, i, s.servers[i]) {
      assert s.servers[i] == Start(i, colors[i]);
    }
  }

  lemma StepSendsOn(n: nat, colors: seq<string>, run: seq<State>, k: nat)
    requires IsRun(n, colors, run) && k + 1 < |run| && n > 0 && AllSend(n, run[k].servers, run[k].sent)
    ensures |run[k + 1].servers| == n && AllSend(n, run[k + 1].servers, run[k + 1].sent)
  {
    AllPlaced(n, colors, run, k);
    assert StepAt(n, run, k);
    NextSends(n, run[k], run[k + 1]);
  }

  lemma {:induction false} RunSends(n: nat, colors: seq<string>, run: seq<State>, k: nat)
    requires IsRun(n, colors, run) && k < |run|
    ensures n > 0 && |run[k].servers| == n && AllSend(n, run[k].servers, run[k].sent)
  {
    if k == 0 {
      InitSends(n, colors, run[0]);
    } else {
      RunSends(n, colors, run, k - 1);
      StepSendsOn(n, colors, run, k - 1);
    }
  }

  /** Every round a server has left behind is complete: it sent its PREPARE and an ACK to the leader, and
      if it was the leader, one and the same PROPOSE to every server. */
  lemma RoundsComplete(n: nat, colors: seq<string>, run: seq<State>, k: nat, i: nat, r: nat)
    requires n > 0 && IsRun(n, colors, run) && k < |run| && i < |run[k].servers| && 1 <= r < run[k].servers[i].round
    ensures exists c, cr :: Packet(i, r % n, Message(Prepare, r, c, cr, false)) in run[k].sent
    ensures exists ack :: Packet(i, r % n, Message(Ack, r, "", 0, ack)) in run[k].sent
    ensures r % n == i ==> exists c :: ProposedTo(run[k].sent, i, r, c, n)
  {
    RunSends(n, colors, run, k);
    assert SendsOk(n, run[k].sent, i, run[k].servers[i]);
    assert RoundDone(n, run[k].sent, i, r);
  }

  /** A leader past Phase 3 of its round has sent one PROPOSE to every server. */
  lemma LeaderProposes(n: nat, colors: seq<string>, run: seq<State>, k: nat, i: nat)
    requires n > 0 && IsRun(n, colors, run) && k < |run| && i < |run[k].servers| && run[k].servers[i].round % n == i
    requires run[k].servers[i].phase.AwaitPropose? || run[k].servers[i].phase.CollectAcks?
    ensures exists c :: ProposedTo(run[k].sent, i, run[k].servers[i].round, c, n)
  {
    RunSends(n, colors, run, k);
    assert SendsOk(n, run[k].sent, i, run[k].servers[i]);
  }

  /** A server that has returned told the observer and every other server its colour. */
  lemma DecisionIsTold(n: nat, colors: seq<string>, run: seq<State>, k: nat, i: nat)
    requires IsRun(n, colors, run) && k < |run| && i < |run[k].servers| && Finished(n, run[k].servers[i])
    ensures Packet(i, -1, Message(Decide, 0, run[k].servers[i].color, 0, false)) in run[k].sent
    ensures forall j: nat | j < n && j != i ::
              Packet(i, j, Message(Decide, 0, run[k].servers[i].color, 0, false)) in run[k].sent
  {
    RunSends(n, colors, run, k);
    assert SendsOk(n, run[k].sent, i, run[k].servers[i]);
  }
}
