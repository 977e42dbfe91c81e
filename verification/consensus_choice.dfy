/** Which colour a leader takes: its own, unless a PREPARE it counted reports a later colour round. */
module ConsensusChoice {
  import opened ConsensusServer
  import opened ConsensusSystem
  import opened ConsensusInvariant

  /** From its own report `c`, `k` and the PREPAREs `ps`, the colour of the latest colour round; its own if
      none is later. */
  ghost predicate PickedFrom(c: string, k: nat, ps: set<Packet>, color: string, cr: nat) {
    if forall p | p in ps :: p.msg.colorRound <= k then color == c && cr == k
    else
      && (forall p | p in ps :: p.msg.colorRound <= cr)
      && exists p :: p in ps && p.msg.colorRound == cr && p.msg.color == color
  }

  /** The report that counts as its own is the PREPARE it sent in round `r`, to itself. */
  ghost predicate Picked(n: nat, sent: set<Packet>, i: nat, r: nat, ps: set<Packet>, color: string, cr: nat) {
    exists c, k :: Packet(i, i, Message(Prepare, r, c, k, false)) in sent && PickedFrom(c, k, ps, color, cr)
  }

  ghost predicate ServerPicks(n: nat, sent: set<Packet>, i: nat, v: Server, ps: set<Packet>) {
    v.phase.Collecting? ==> Picked(n, sent, i, v.round, ps, v.color, v.colorRound)
  }

  ghost predicate ChoicePicks(n: nat, sent: set<Packet>, chosen: map<nat, Choice>, r: nat)
    requires n > 0 && r in chosen
  { Picked(n, sent, r % n, r, chosen[r].basis, chosen[r].color, chosen[r].basisRound) }

  lemma PickedGrows(n: nat, sent: set<Packet>, sent': set<Packet>, i: nat, r: nat, ps: set<Packet>, c: string, cr: nat)
    requires sent <= sent' && Picked(n, sent, i, r, ps, c, cr)
    ensures Picked(n, sent', i, r, ps, c, cr)
  {
  }

  /** One more PREPARE. */
  lemma PickedMore(c: string, k: nat, ps: set<Packet>, color: string, cr: nat, p: Packet)
    requires PickedFrom(c, k, ps, color, cr)
    ensures var later := p.msg.colorRound > cr;
            PickedFrom(c, k, ps + {p}, if later then p.msg.color else color, if later then p.msg.colorRound else cr)
  {
    if p.msg.colorRound > cr {
      assert p in ps + {p};
    } else if !forall q | q in ps :: q.msg.colorRound <= k {
      var q :| q in ps && q.msg.colorRound == cr && q.msg.color == color;
      assert q in ps + {p};
    }
  }

  // What a section counts and chooses

  /** The packet that the section looks at, if any. */
  function Hand(v: Server, a: Action): seq<Packet> {
    if a.Receive? then [a.p] else if a.LocalStep? && Scanning(v) then [v.stash[0]] else []
  }

  predicate Counts(v: Server, hand: seq<Packet>) {
    && hand != [] && v.phase.Receiving() && !v.phase.AwaitPropose?
    && hand[0].msg.kind == v.phase.Wanted() && hand[0].msg.round == v.round
  }

  function CountedBy(v: Server, v': Server, hand: seq<Packet>, ps: set<Packet>): set<Packet> {
    (if v'.phase.Fresh() then {} else ps) + if Counts(v, hand) then {hand[0]} else {}
  }

  function ChosenBy(
    v: Server, v': Server, hand: seq<Packet>, ps: set<Packet>, chosen: map<nat, Choice>): map<nat, Choice> {
    if Counts(v, hand) && v'.phase.Proposing? then chosen[v.round := Choice(v'.color, v'.colorRound, ps)] else chosen
  }

  lemma HandleCounts(n: nat, s: State, i: nat, p: Packet)
    requires n > 0 && i < |s.servers| == |s.counted| && s.servers[i].phase.Receiving()
    ensures var v', t := Accept(n, s.servers[i], p).server, Handle(n, s, i, p);
            var ps := CountedBy(s.servers[i], v', [p], s.counted[i]);
            t.counted == s.counted[i := ps] && t.chosen == ChosenBy(s.servers[i], v', [p], ps, s.chosen)
  {
    var o, base := Accept(n, s.servers[i], p), s.counted[i];
    assert base + {} == base && s.counted[i := base] == s.counted;
    InstallCounts(s, i, o);
    var s1 := Install(s, i, o);
    assert s1.counted[i] == if o.server.phase.Fresh() then {} else base;
    assert s.counted[i := s1.counted[i]][i := s1.counted[i] + {p}] == s.counted[i := s1.counted[i] + {p}];
  }

  lemma InstallCounts(s: State, i: nat, o: Outcome)
    requires i < |s.servers| == |s.counted|
    ensures var t := Install(s, i, o);
            t.counted == s.counted[i := CountedBy(s.servers[i], o.server, [], s.counted[i])] && t.chosen == s.chosen
  {
    var base := s.counted[i];
    var none: set<Packet> := {};
    assert base + none == base && s.counted[i := base] == s.counted && none + none == none;
  }

  /** What an action does to the record of counts and choices. */
  lemma ApplyCounts(n: nat, s: State, a: Action)
    requires n > 0 && |s.servers| == |s.counted| == n && Enabled(n, s, a) && !a.Lose?
    ensures a.i < n && Takes(n, s.servers[a.i], a)
    ensures var v, t := s.servers[a.i], Apply(n, s, a);
            var v' := SectionOf(n, v, a).server;
            var ps := CountedBy(v, v', Hand(v, a), s.counted[a.i]);
            t.counted == s.counted[a.i := ps] && t.chosen == ChosenBy(v, v', Hand(v, a), ps, s.chosen)
  {
    var v := s.servers[a.i];
    if a.Receive? {
      HandleCounts(n, s.(net := s.net - multiset{a.p}), a.i, a.p);
    } else if a.LocalStep? && Scanning(v) {
      HandleCounts(n, s.(servers := s.servers[a.i := Unstash(v)]), a.i, v.stash[0]);
    } else {
      InstallCounts(s, a.i, SectionOf(n, v, a));
    }
  }

  // Every section

  /** What the invariant says of a server that these steps need. */
  ghost predicate Counting(n: nat, i: nat, v: Server, ps: set<Packet>)
    requires n > 0
  { v.id == i && (v.phase.Collecting? ==> v.round % n == i && |ps| == v.phase.received) }

  lemma CountSection(n: nat, v: Server, p: Packet, ps: set<Packet>, sent: set<Packet>)
    requires n > 0 && v.phase.Collecting? && Counting(n, v.id, v, ps) && ServerPicks(n, sent, v.id, v, ps)
    requires p.msg.kind == Prepare && p.msg.round == v.round
    ensures var v' := CountPrepare(n, v, p.msg);
            Picked(n, sent, v.id, v.round, ps + {p}, v'.color, v'.colorRound) && v'.round == v.round
            && !v'.phase.Fresh()
  {
    var c, k :| Packet(v.id, v.id, Message(Prepare, v.round, c, k, false)) in sent
                && PickedFrom(c, k, ps, v.color, v.colorRound);
    PickedMore(c, k, ps, v.color, v.colorRound, p);
  }

  lemma AcceptPicks(n: nat, v: Server, p: Packet, ps: set<Packet>, sent: set<Packet>)
    requires n > 0 && v.phase.Receiving() && Counting(n, v.id, v, ps) && ServerPicks(n, sent, v.id, v, ps)
    ensures var v' := Accept(n, v, p).server;
            var ps' := CountedBy(v, v', [p], ps);
            && ServerPicks(n, sent, v.id, v', ps')
            && (Counts(v, [p]) && v'.phase.Proposing? ==>
                  v.round % n == v.id && Picked(n, sent, v.id, v.round, ps', v'.color, v'.colorRound))
  {
    if v.phase.Collecting? {
      if Counts(v, [p]) {
        CountSection(n, v, p, ps, sent);
      } else {
        assert ps + {} == ps && (v.phase.received == 0 ==> ps == {});
      }
    }
  }

  lemma OwnReport(n: nat, v: Server, sent: set<Packet>)
    requires n > 0 && v.phase.AtPrepare?
    ensures var o := SendPrepare(n, v);
            o.server.phase.Collecting? ==> ServerPicks(n, sent + AsSet(o.sends), v.id, o.server, {})
  {
    var o := SendPrepare(n, v);
    var sent' := sent + AsSet(o.sends);
    if o.server.phase.Collecting? {
      assert Packet(v.id, v.id, Message(Prepare, v.round, v.color, v.colorRound, false)) in sent';
      assert PickedFrom(v.color, v.colorRound, {}, v.color, v.colorRound);
    }
  }

  /** The part of the record that belongs to server `v.id`, after a section. */
  ghost predicate SectionPicks(n: nat, v: Server, a: Action, ps: set<Packet>, sent: set<Packet>)
    requires n > 0 && Takes(n, v, a)
  {
    var o := SectionOf(n, v, a);
    var ps' := CountedBy(v, o.server, Hand(v, a), ps);
    && ServerPicks(n, sent + AsSet(o.sends), v.id, o.server, ps')
    && (Counts(v, Hand(v, a)) && o.server.phase.Proposing? ==>
          v.round % n == v.id
          && Picked(n, sent + AsSet(o.sends), v.id, v.round, ps', o.server.color, o.server.colorRound))
  }

  lemma EverySection(n: nat, v: Server, a: Action, ps: set<Packet>, sent: set<Packet>)
    requires n > 0 && Takes(n, v, a) && Counting(n, v.id, v, ps) && ServerPicks(n, sent, v.id, v, ps)
    ensures SectionPicks(n, v, a, ps, sent)
  {
    if a.Receive? {
      AcceptPicks(n, v, a.p, ps, sent);
      MoreSent(n, v, a, ps, sent);
    } else if a.LocalStep? && Scanning(v) {
      AcceptPicks(n, Unstash(v), v.stash[0], ps, sent);
      MoreSent(n, v, a, ps, sent);
    } else {
      QuietSection(n, v, a, ps, sent);
    }
  }

  /** The sections that are handed nothing: only the first of a round starts to collect. */
  lemma QuietSection(n: nat, v: Server, a: Action, ps: set<Packet>, sent: set<Packet>)
    requires n > 0 && Takes(n, v, a) && Hand(v, a) == []
    ensures SectionPicks(n, v, a, ps, sent)
  {
    var o := SectionOf(n, v, a);
    if v.phase.AtPrepare? {
      OwnReport(n, v, sent);
      assert o.server.phase.Fresh() ==> CountedBy(v, o.server, [], ps) == {};
    } else {
      assert !o.server.phase.Collecting?;
    }
  }

  lemma MoreSent(n: nat, v: Server, a: Action, ps: set<Packet>, sent: set<Packet>)
    requires n > 0 && Takes(n, v, a) && Hand(v, a) != []
    requires var v' := SectionOf(n, v, a).server;
             var ps' := CountedBy(v, v', Hand(v, a), ps);
             && ServerPicks(n, sent, v.id, v', ps')
             && (Counts(v, Hand(v, a)) && v'.phase.Proposing? ==>
                   v.round % n == v.id && Picked(n, sent, v.id, v.round, ps', v'.color, v'.colorRound))
    ensures SectionPicks(n, v, a, ps, sent)
  {
    var o := SectionOf(n, v, a);
    var ps' := CountedBy(v, o.server, Hand(v, a), ps);
    if o.server.phase.Collecting? {
      PickedGrows(n, sent, sent + AsSet(o.sends), v.id, o.server.round, ps', o.server.color, o.server.colorRound);
    }
    if Counts(v, Hand(v, a)) && o.server.phase.Proposing? {
      PickedGrows(n, sent, sent + AsSet(o.sends), v.id, v.round, ps', o.server.color, o.server.colorRound);
    }
  }

  // Over runs

  ghost predicate AllPick(n: nat, s: State)
    requires n > 0 && |s.servers| == |s.counted|
  {
    && (forall i: nat {:trigger ServerPicks(n, s.sent, i, s.servers[i], s.counted[i])} | i < |s.servers| ::
          ServerPicks(n, s.sent, i, s.servers[i], s.counted[i]))
    && forall r {:trigger ChoicePicks(n, s.sent, s.chosen, r)} | r in s.chosen :: ChoicePicks(n, s.sent, s.chosen, r)
  }

  ghost predicate AllCounting(n: nat, s: State)
    requires n > 0 && |s.servers| == |s.counted|
  {
    forall i: nat {:trigger Counting(n, i, s.servers[i], s.counted[i])} | i < |s.servers| ::
      Counting(n, i, s.servers[i], s.counted[i])
  }

  lemma ServerMoves(n: nat, s: State, t: State, i: nat, v': Server, ps': set<Packet>)
    requires n > 0 && |s.servers| == |s.counted| && i < |s.servers| && AllPick(n, s) && s.sent <= t.sent
    requires t.servers == s.servers[i := v'] && t.counted == s.counted[i := ps'] && ServerPicks(n, t.sent, i, v', ps')
    ensures forall j: nat {:trigger ServerPicks(n, t.sent, j, t.servers[j], t.counted[j])} | j < |t.servers| ::
              ServerPicks(n, t.sent, j, t.servers[j], t.counted[j])
  {
    forall j: nat | j < |t.servers| ensures ServerPicks(n, t.sent, j, t.servers[j], t.counted[j]) {
      if j != i {
        var v := s.servers[j];
        assert ServerPicks(n, s.sent, j, v, s.counted[j]);
        if v.phase.Collecting? {
          PickedGrows(n, s.sent, t.sent, j, v.round, s.counted[j], v.color, v.colorRound);
        }
      }
    }
  }

  lemma ChoicesMove(n: nat, s: State, t: State, r0: nat)
    requires n > 0 && |s.servers| == |s.counted| && AllPick(n, s) && s.sent <= t.sent
    requires forall r | r in t.chosen :: (r in s.chosen && t.chosen[r] == s.chosen[r]) || r == r0
    requires r0 in t.chosen && (r0 !in s.chosen || t.chosen[r0] != s.chosen[r0]) ==>
               ChoicePicks(n, t.sent, t.chosen, r0)
    ensures forall r {:trigger ChoicePicks(n, t.sent, t.chosen, r)} | r in t.chosen ::
              ChoicePicks(n, t.sent, t.chosen, r)
  {
    forall r | r in t.chosen ensures ChoicePicks(n, t.sent, t.chosen, r) {
      if r in s.chosen && t.chosen[r] == s.chosen[r] {
        assert ChoicePicks(n, s.sent, s.chosen, r);
        PickedGrows(n, s.sent, t.sent, r % n, r, s.chosen[r].basis, s.chosen[r].color, s.chosen[r].basisRound);
      }
    }
  }

  lemma ApplyPicks(n: nat, s: State, a: Action, t: State)
    requires n > 0 && |s.servers| == |s.counted| == n && Enabled(n, s, a) && t == Apply(n, s, a)
    requires AllPick(n, s) && AllCounting(n, s)
    ensures |t.servers| == |t.counted| == n && AllPick(n, t)
  {
    if !a.Lose? {
      ApplyEffect(n, s, a);
      ApplyCounts(n, s, a);
      var v, ps := s.servers[a.i], s.counted[a.i];
      var v' := SectionOf(n, v, a).server;
      assert Counting(n, a.i, v, ps) && ServerPicks(n, s.sent, a.i, v, ps);
      EverySection(n, v, a, ps, s.sent);
      ServerMoves(n, s, t, a.i, v', CountedBy(v, v', Hand(v, a), ps));
      ChoicesMove(n, s, t, v.round);
    }
  }

  lemma NextPicks(n: nat, s: State, s': State)
    requires n > 0 && |s.servers| == |s.counted| == n && Next(n, s, s') && AllPick(n, s) && AllCounting(n, s)
    ensures |s'.servers| == |s'.counted| == n && AllPick(n, s')
  {
    var a :| Enabled(n, s, a) && s' == Apply(n, s, a);
    ApplyPicks(n, s, a, s');
  }

  lemma InvCounting(n: nat, colors: seq<string>, s: State)
    requires Inv(n, colors, s)
    ensures AllCounting(n, s)
  {
    forall i: nat | i < n ensures Counting(n, i, s.servers[i], s.counted[i]) {
      ServerAt(n, colors, s, i);
    }
  }

  lemma RunCounting(n: nat, colors: seq<string>, run: seq<State>, k: nat)
    requires IsRun(n, colors, run) && k < |run|
    ensures n > 0 && |run[k].servers| == |run[k].counted| == n && AllCounting(n, run[k])
  {
    RunInv(n, colors, run, k);
    InvCounting(n, colors, run[k]);
  }

  lemma InitPicks(n: nat, colors: seq<string>, s: State)
    requires Init(n, colors, s)
    ensures n > 0 && |s.servers| == |s.counted| == n && AllPick(n, s)
  {
    forall i: nat | i < n ensures ServerPicks(n, s.sent, i, s.servers[i], s.counted[i]) {
      assert s.servers[i] == Start(i, colors[i]);
    }
  }

  lemma StepPicks(n: nat, colors: seq<string>, run: seq<State>, k: nat)
    requires IsRun(n, colors, run) && k + 1 < |run| && n > 0 && |run[k].servers| == |run[k].counted| == n
    requires AllPick(n, run[k])
    ensures |run[k + 1].servers| == |run[k + 1].counted| == n && AllPick(n, run[k + 1])
  {
    RunCounting(n, colors, run, k);
    assert StepAt(n, run, k);
    NextPicks(n, run[k], run[k + 1]);
  }

  lemma {:induction false} RunPicks(n: nat, colors: seq<string>, run: seq<State>, k: nat)
    requires IsRun(n, colors, run) && k < |run|
    ensures n > 0 && |run[k].servers| == |run[k].counted| == n && AllPick(n, run[k])
  {
    if k == 0 {
      InitPicks(n, colors, run[0]);
    } else {
      RunPicks(n, colors, run, k - 1);
      StepPicks(n, colors, run, k - 1);
    }
  }

  /** A choice follows the counted PREPAREs: if none of them reports a later colour round than the leader's
      own PREPARE did, the leader keeps its colour; otherwise it takes the colour of the latest. */
  lemma ChoiceFollowsReports(n: nat, colors: seq<string>, run: seq<State>, k: nat, r: nat)
    requires n > 0 && IsRun(n, colors, run) && k < |run| && r in run[k].chosen
    ensures var ch := run[k].chosen[r];
            exists c, cr :: Packet(r % n, r % n, Message(Prepare, r, c, cr, false)) in run[k].sent
                             && PickedFrom(c, cr, ch.basis, ch.color, ch.basisRound)
  {
    RunPicks(n, colors, run, k);
    assert ChoicePicks(n, run[k].sent, run[k].chosen, r);
  }
}
