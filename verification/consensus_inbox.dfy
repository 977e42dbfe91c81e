/** What a server makes of what it is handed: which messages it keeps, and when it has counted enough. */
module ConsensusInbox {
  import opened ConsensusServer
  import opened ConsensusSystem
  import opened ConsensusInvariant
  import opened ConsensusProposals

  /** What one step does to one server: nothing, or one of its sections. */
  ghost predicate Moved(n: nat, v: Server, v': Server)
    requires n > 0
  { v' == v || exists a :: Takes(n, v, a) && v' == SectionOf(n, v, a).server }

  lemma ApplyMoved(n: nat, s: State, a: Action, i: nat)
    requires n > 0 && |s.servers| == |s.counted| == n && Enabled(n, s, a) && i < n
    ensures |Apply(n, s, a).servers| == n && Moved(n, s.servers[i], Apply(n, s, a).servers[i])
  {
    if !a.Lose? {
      ApplyEffect(n, s, a);
    }
  }

  lemma StepMoved(n: nat, colors: seq<string>, run: seq<State>, k: nat, i: nat)
    requires IsRun(n, colors, run) && k + 1 < |run| && i < n
    ensures |run[k].servers| == |run[k + 1].servers| == n && Moved(n, run[k].servers[i], run[k + 1].servers[i])
  {
    assert StepAt(n, run, k);
    var a :| Enabled(n, run[k], a) && run[k + 1] == Apply(n, run[k], a);
    ApplyMoved(n, run[k], a, i);
  }

  // The stash

  /** A stashed message that this call of `receive` has looked at, or has no need to: of this round or
      a later one, and not what is waited for. */
  ghost predicate KeptFor(v: Server, m: Message)
    requires v.phase.Receiving()
  { m.kind != Decide && m.round >= v.round && !(m.kind == v.phase.Wanted() && m.round == v.round) }

  ghost predicate LookedThrough(v: Server) {
    v.phase.Receiving() ==>
      v.phase.scan <= |v.stash| && forall k | v.phase.scan <= k < |v.stash| :: KeptFor(v, v.stash[k].msg)
  }

  lemma AcceptLooks(n: nat, v: Server, p: Packet)
    requires n > 0 && v.phase.Receiving() && LookedThrough(v)
    ensures LookedThrough(Accept(n, v, p).server)
  {
  }

  lemma UnstashLooks(v: Server)
    requires Scanning(v) && LookedThrough(v)
    ensures LookedThrough(Unstash(v))
  {
  }

  lemma SectionLooks(n: nat, v: Server)
    requires n > 0 && LookedThrough(v)
    ensures CanStep(n, v) && !Scanning(v) ==> LookedThrough(Step(n, v).server)
    ensures v.phase.AwaitPropose? ==> LookedThrough(Acknowledge(n, v, []).server)
  {
  }

  lemma MovedLooks(n: nat, v: Server, v': Server)
    requires n > 0 && Moved(n, v, v') && LookedThrough(v)
    ensures LookedThrough(v')
  {
    if v' != v {
      var a :| Takes(n, v, a) && v' == SectionOf(n, v, a).server;
      if a.Receive? {
        AcceptLooks(n, v, a.p);
      } else if Scanning(v) && a.LocalStep? {
        UnstashLooks(v);
        AcceptLooks(n, Unstash(v), v.stash[0]);
      } else {
        SectionLooks(n, v);
      }
    }
  }

  lemma {:induction false} RunLooks(n: nat, colors: seq<string>, run: seq<State>, k: nat, i: nat)
    requires IsRun(n, colors, run) && k < |run| && i < n
    ensures |run[k].servers| == n && LookedThrough(run[k].servers[i])
  {
    if k > 0 {
      RunLooks(n, colors, run, k - 1, i);
      StepMoved(n, colors, run, k - 1, i);
      MovedLooks(n, run[k - 1].servers[i], run[k].servers[i]);
    }
  }

  /** `receive` turns to its port only when nothing stashed would do: whatever is stashed then is not a
      DECIDE, not of an earlier round, and not the kind wanted of this round. */
  lemma NothingOverlooked(n: nat, colors: seq<string>, run: seq<State>, k: nat, i: nat, q: Packet)
    requires IsRun(n, colors, run) && k < |run| && i < n && |run[k].servers| == n
    requires CanReceive(run[k].servers[i]) && q in run[k].servers[i].stash
    ensures q.msg.kind != Decide && q.msg.round >= run[k].servers[i].round
    ensures q.msg.kind != run[k].servers[i].phase.Wanted() || q.msg.round > run[k].servers[i].round
  {
    RunLooks(n, colors, run, k, i);
  }

  // Nothing is lost before it is wanted

  /** This call of `receive` would return the message. */
  predicate Wants(v: Server, m: Message) { v.phase.Receiving() && m.kind == v.phase.Wanted() && m.round == v.round }

  /** A server moves on, and what it has stashed for its new round or a later one stays stashed, unless it was
      just what it waited for. */
  ghost predicate MovesOn(v: Server, v': Server) {
    && v.round <= v'.round && (v.decided ==> v'.decided)
    && (!v'.decided ==>
          forall q | q in v.stash && q.msg.kind != Decide && q.msg.round >= v'.round && !Wants(v, q.msg) ::
            q in v'.stash)
  }

  lemma AcceptMoves(n: nat, v: Server, p: Packet)
    requires n > 0 && v.phase.Receiving()
    ensures var v' := Accept(n, v, p).server;
            MovesOn(v, v')
            && (!v'.decided && p.msg.kind != Decide && p.msg.round >= v'.round && !Wants(v, p.msg) ==> p in v'.stash)
  {
  }

  lemma ScanMoves(n: nat, v: Server)
    requires n > 0 && Scanning(v)
    ensures MovesOn(v, Accept(n, Unstash(v), v.stash[0]).server)
  {
    AcceptMoves(n, Unstash(v), v.stash[0]);
    forall q | q in v.stash && q != v.stash[0] ensures q in Unstash(v).stash {
      var k :| 0 <= k < |v.stash| && v.stash[k] == q;
      assert v.stash[1..][k - 1] == q;
    }
  }

  lemma SectionMoves(n: nat, v: Server)
    requires n > 0
    ensures CanStep(n, v) && !Scanning(v) ==> MovesOn(v, Step(n, v).server)
    ensures v.phase.AwaitPropose? ==> MovesOn(v, Acknowledge(n, v, []).server)
  {
  }

  lemma MovedMoves(n: nat, v: Server, v': Server)
    requires n > 0 && Moved(n, v, v')
    ensures MovesOn(v, v')
  {
    if v' != v {
      var a :| Takes(n, v, a) && v' == SectionOf(n, v, a).server;
      if a.Receive? {
        AcceptMoves(n, v, a.p);
      } else if Scanning(v) && a.LocalStep? {
        ScanMoves(n, v);
      } else {
        SectionMoves(n, v);
      }
    }
  }

  lemma ArrivalStashed(n: nat, s: State, i: nat, p: Packet)
    requires n > 0 && |s.servers| == |s.counted| == n && i < n && Enabled(n, s, Receive(i, p))
    ensures |Apply(n, s, Receive(i, p)).servers| == n
    ensures var v' := Apply(n, s, Receive(i, p)).servers[i];
            !v'.decided && p.msg.kind != Decide && p.msg.round >= v'.round && !Wants(s.servers[i], p.msg) ==>
              p in v'.stash
  {
    ApplyEffect(n, s, Receive(i, p));
    AcceptMoves(n, s.servers[i], p);
  }

  lemma {:induction false} RoundsGrow(n: nat, colors: seq<string>, run: seq<State>, j: nat, m: nat, i: nat)
    requires IsRun(n, colors, run) && j <= m < |run| && i < n && |run[j].servers| == |run[m].servers| == n
    ensures run[j].servers[i].round <= run[m].servers[i].round
    ensures run[j].servers[i].decided ==> run[m].servers[i].decided
    decreases m
  {
    if j < m {
      StepMoved(n, colors, run, m - 1, i);
      MovedMoves(n, run[m - 1].servers[i], run[m].servers[i]);
      RoundsGrow(n, colors, run, j, m - 1, i);
    }
  }

  ghost predicate UnwantedAt(n: nat, run: seq<State>, x: nat, i: nat, m: Message)
    requires x < |run| && i < n
  { |run[x].servers| == n ==> !Wants(run[x].servers[i], m) }

  /** From state `j` to before state `m`, server `i` never waits for that message. */
  ghost predicate Unwanted(n: nat, run: seq<State>, j: nat, m: nat, i: nat, msg: Message)
    requires m < |run| && i < n
  { forall x: nat {:trigger UnwantedAt(n, run, x, i, msg)} | j <= x < m :: UnwantedAt(n, run, x, i, msg) }

  lemma {:induction false} StashKept(n: nat, colors: seq<string>, run: seq<State>, j: nat, m: nat, i: nat, p: Packet)
    requires IsRun(n, colors, run) && j <= m < |run| && i < n && |run[j].servers| == |run[m].servers| == n
    requires p in run[j].servers[i].stash && p.msg.kind != Decide
    requires p.msg.round >= run[m].servers[i].round && !run[m].servers[i].decided && Unwanted(n, run, j, m, i, p.msg)
    ensures p in run[m].servers[i].stash
    decreases m
  {
    if j < m {
      StepMoved(n, colors, run, m - 1, i);
      MovedMoves(n, run[m - 1].servers[i], run[m].servers[i]);
      assert UnwantedAt(n, run, m - 1, i, p.msg);
      StashKept(n, colors, run, j, m - 1, i, p);
    }
  }

  lemma KeptFrom(n: nat, colors: seq<string>, run: seq<State>, j: nat, m: nat, i: nat, p: Packet)
    requires IsRun(n, colors, run) && j <= m < |run| && i < n && |run[j].servers| == |run[m].servers| == n
    requires var v := run[j].servers[i]; !v.decided && p.msg.round >= v.round ==> p in v.stash
    requires p.msg.kind != Decide && p.msg.round >= run[m].servers[i].round && !run[m].servers[i].decided
    requires Unwanted(n, run, j, m, i, p.msg)
    ensures p in run[m].servers[i].stash
  {
    RoundsGrow(n, colors, run, j, m, i);
    StashKept(n, colors, run, j, m, i, p);
  }

  /** Server `i` is handed `p` in the step from state `k`. */
  ghost predicate Handed(n: nat, run: seq<State>, k: nat, i: nat, p: Packet)
    requires k + 1 < |run|
  {
    && n > 0 && |run[k].servers| == |run[k].counted| == n && Enabled(n, run[k], Receive(i, p))
    && run[k + 1] == Apply(n, run[k], Receive(i, p))
  }

  lemma HandedStashed(n: nat, run: seq<State>, k: nat, i: nat, p: Packet)
    requires k + 1 < |run| && Handed(n, run, k, i, p)
    ensures i < n == |run[k + 1].servers|
    ensures var v' := run[k + 1].servers[i];
            !v'.decided && p.msg.kind != Decide && p.msg.round >= v'.round && !Wants(run[k].servers[i], p.msg) ==>
              p in v'.stash
  {
    ArrivalStashed(n, run[k], i, p);
  }

  /** A message handed to a server, of its round or a later one, is stashed until the server waits for just
      that, or has left that round behind, or has decided. */
  lemma KeptUntilWanted(n: nat, colors: seq<string>, run: seq<State>, k: nat, m: nat, i: nat, p: Packet)
    requires IsRun(n, colors, run) && k < m < |run| && i < |run[m].servers| == n && Handed(n, run, k, i, p)
    requires p.msg.kind != Decide && p.msg.round >= run[m].servers[i].round && !run[m].servers[i].decided
    requires Unwanted(n, run, k, m, i, p.msg)
    ensures p in run[m].servers[i].stash
  {
    assert UnwantedAt(n, run, k, i, p.msg);
    HandedStashed(n, run, k, i, p);
    KeptFrom(n, colors, run, k + 1, m, i, p);
  }

  // Enough has been counted

  /** A choice rests on exactly n/2 + 1 PREPAREs of its round, addressed to its leader. */
  lemma ChoiceIsMajority(n: nat, colors: seq<string>, run: seq<State>, k: nat, r: nat)
    requires n > 0 && IsRun(n, colors, run) && k < |run| && r in run[k].chosen
    ensures |run[k].chosen[r].basis| == n / 2 + 1
    ensures forall p :: p in run[k].chosen[r].basis ==>
              p in run[k].sent && p.dst == r % n && p.msg.kind == Prepare && p.msg.round == r
  {
    RunInv(n, colors, run, k);
    var s := run[k];
    assert ChoiceOk(n, colors, s.servers, s.sent, s.chosen, r);
    forall p | p in s.chosen[r].basis ensures p.dst == r % n {
      assert PacketOk(n, colors, s.servers[p.src], s.sent, s.chosen, p);
    }
  }

  /** Server `i` leaves Phase 5, having counted `ps`: with n/2 + 1 answers of its round it has decided
      exactly if all were positive, and otherwise is in the next round; or it was told of a decision. */
  ghost predicate LeavesPhase5(n: nat, i: nat, v: Server, v': Server, ps: set<Packet>, sent: set<Packet>) {
    || (exists p :: p in sent && p.dst == i && p.msg.kind == Decide && v'.decided && v'.color == p.msg.color)
    || (&& |ps| == n / 2 + 1
        && (forall p :: p in ps ==> p in sent && p.dst == i && p.msg.kind == Ack && p.msg.round == v.round)
        && (if forall p :: p in ps ==> p.msg.ack then v'.decided && v'.color == v.color && v'.round == v.round
            else !v'.decided && v'.round == v.round + 1))
  }

  lemma AllPositive(ps: set<Packet>)
    ensures |Positive(ps)| <= |ps|
    ensures |Positive(ps)| == |ps| <==> forall p :: p in ps ==> p.msg.ack
  {
    SubsetSize(Positive(ps), ps);
    assert ps == Positive(ps) + (ps - Positive(ps)) && |ps| == |Positive(ps)| + |ps - Positive(ps)|;
    assert |ps - Positive(ps)| == 0 <==> ps - Positive(ps) == {};
    assert ps - Positive(ps) == {} <==> forall p :: p in ps ==> p in Positive(ps);
  }

  /** Packet `p` has just been handed to server `i`, which has counted `ps`. */
  ghost predicate AtHand(n: nat, i: nat, v: Server, ps: set<Packet>, sent: set<Packet>, p: Packet) {
    && CountOk(i, v, ps, sent) && p in sent && p.dst == i && (p.msg.Counted() ==> p !in ps)
    && (v.phase.CollectAcks? ==> v.phase.total <= n / 2 && !v.decided)
  }

  lemma IsAtHand(n: nat, colors: seq<string>, s: State, i: nat, p: Packet)
    requires Inv(n, colors, s) && i < n && InHand(s, i, p)
    ensures AtHand(n, i, s.servers[i], s.counted[i], s.sent, p)
  {
    ServerAt(n, colors, s, i);
  }

  lemma CountLeaves(n: nat, i: nat, v: Server, ps: set<Packet>, sent: set<Packet>, p: Packet, ps': set<Packet>)
    requires n > 0 && v.phase.CollectAcks? && AtHand(n, i, v, ps, sent, p)
    requires !Accept(n, v, p).server.phase.CollectAcks?
    requires p.msg.kind == Ack && p.msg.round == v.round ==> ps' == ps + {p}
    ensures LeavesPhase5(n, i, v, Accept(n, v, p).server, ps', sent)
  {
    if p.msg.kind != Decide {
      CountAckCount(n, i, v, ps, sent, p);
      AllPositive(ps + {p});
    }
  }

  /** The packet that a section of `v` looks at. */
  ghost predicate LooksAt(v: Server, a: Action, p: Packet) {
    if a.LocalStep? then Scanning(v) && p == v.stash[0] else a.Receive? && p == a.p
  }

  lemma TakenAtHand(n: nat, colors: seq<string>, s: State, a: Action, p: Packet)
    requires Inv(n, colors, s) && Enabled(n, s, a) && !a.Lose? && LooksAt(s.servers[a.i], a, p)
    ensures var v := s.servers[a.i];
            AtHand(n, a.i, if a.Receive? then v else Unstash(v), s.counted[a.i], s.sent, p)
  {
    if a.Receive? {
      TakeFromNet(n, colors, s, p);
      IsAtHand(n, colors, s.(net := s.net - multiset{p}), a.i, p);
    } else {
      TakeFromStash(n, colors, s, a.i);
      IsAtHand(n, colors, s.(servers := s.servers[a.i := Unstash(s.servers[a.i])]), a.i, p);
    }
  }

  lemma TakenCounted(n: nat, s: State, a: Action, p: Packet)
    requires n > 0 && |s.servers| == |s.counted| == n && Enabled(n, s, a) && !a.Lose? && LooksAt(s.servers[a.i], a, p)
    requires s.servers[a.i].phase.CollectAcks? && p.msg.kind == Ack && p.msg.round == s.servers[a.i].round
    ensures |Apply(n, s, a).counted| == n && Apply(n, s, a).counted[a.i] == s.counted[a.i] + {p}
  {
    var v := s.servers[a.i];
    if a.Receive? {
      CountAckState(n, s.(net := s.net - multiset{p}), a.i, p);
    } else {
      CountAckState(n, s.(servers := s.servers[a.i := Unstash(v)]), a.i, p);
    }
  }

  lemma SectionLeaves(n: nat, v: Server, a: Action, ps: set<Packet>, sent: set<Packet>, p: Packet, ps': set<Packet>)
    requires n > 0 && Takes(n, v, a) && LooksAt(v, a, p) && v.phase.CollectAcks?
    requires !SectionOf(n, v, a).server.phase.CollectAcks?
    requires AtHand(n, a.i, if a.Receive? then v else Unstash(v), ps, sent, p)
    requires p.msg.kind == Ack && p.msg.round == v.round ==> ps' == ps + {p}
    ensures LeavesPhase5(n, a.i, v, SectionOf(n, v, a).server, ps', sent)
  {
    CountLeaves(n, a.i, if a.Receive? then v else Unstash(v), ps, sent, p, ps');
  }

  /** The step that moves server `i` out of Phase 5 is its own. */
  lemma OwnSection(n: nat, s: State, a: Action, i: nat) returns (p: Packet)
    requires n > 0 && |s.servers| == |s.counted| == n && Enabled(n, s, a) && i < n
    requires |Apply(n, s, a).servers| == n
    requires s.servers[i].phase.CollectAcks? && !Apply(n, s, a).servers[i].phase.CollectAcks?
    ensures !a.Lose? && a.i == i && LooksAt(s.servers[i], a, p)
    ensures Apply(n, s, a).servers[i] == SectionOf(n, s.servers[i], a).server
  {
    ApplyEffect(n, s, a);
    p := if a.LocalStep? then s.servers[i].stash[0] else a.p;
  }

  lemma ApplyLeaves(n: nat, colors: seq<string>, s: State, a: Action, i: nat, t: State)
    requires n > 0 && |s.servers| == |s.counted| == n && Enabled(n, s, a) && i < n && t == Apply(n, s, a)
    requires |t.servers| == |t.counted| == n && s.servers[i].phase.CollectAcks? && !t.servers[i].phase.CollectAcks?
    requires Inv(n, colors, s)
    ensures LeavesPhase5(n, i, s.servers[i], t.servers[i], t.counted[i], s.sent)
  {
    var p := OwnSection(n, s, a, i);
    assert AtHand(n, i, if a.Receive? then s.servers[i] else Unstash(s.servers[i]), s.counted[i], s.sent, p) by {
      TakenAtHand(n, colors, s, a, p);
    }
    if p.msg.kind == Ack && p.msg.round == s.servers[i].round {
      TakenCounted(n, s, a, p);
    }
    SectionLeaves(n, s.servers[i], a, s.counted[i], s.sent, p, t.counted[i]);
  }

  /** A leader decides exactly if all of n/2 + 1 answers to its round are positive, or it is told. */
  lemma DecidesExactly(n: nat, colors: seq<string>, run: seq<State>, k: nat, i: nat)
    requires IsRun(n, colors, run) && k + 1 < |run| && i < n
    requires |run[k].servers| == |run[k + 1].servers| == |run[k + 1].counted| == n
    requires run[k].servers[i].phase.CollectAcks? && !run[k + 1].servers[i].phase.CollectAcks?
    ensures LeavesPhase5(n, i, run[k].servers[i], run[k + 1].servers[i], run[k + 1].counted[i], run[k].sent)
  {
    RunInv(n, colors, run, k);
    assert StepAt(n, run, k);
    var a :| Enabled(n, run[k], a) && run[k + 1] == Apply(n, run[k], a);
    ApplyLeaves(n, colors, run[k], a, i, run[k + 1]);
  }
}
