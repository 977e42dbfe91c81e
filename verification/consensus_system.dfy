/** The whole system: servers, the packets in flight, and the record of what happened. */
module ConsensusSystem {
  import opened ConsensusServer

  /** What a leader committed to at the end of Phase 2: the colour, the colour round it came
      from, and the PREPAREs it counted. */
  datatype Choice = Choice(color: string, basisRound: nat, basis: set<Packet>)

  /** `sent`, `counted` and `chosen` are history: no enabling condition or server section
      reads them. */
  datatype State = State(
    servers: seq<Server>,
    net: multiset<Packet>,
    sent: set<Packet>,
    counted: seq<set<Packet>>,
    chosen: map<nat, Choice>)

  /** Deliveries happen in any order and after any delay; a packet may be lost; the failure
      detector may fire at any moment. A server stops by taking no further action. */
  datatype Action =
    | LocalStep(i: nat)
    | Receive(i: nat, p: Packet)
    | Timeout(i: nat)
    | Lose(p: Packet)

  ghost predicate Init(n: nat, colors: seq<string>, s: State) {
    && |colors| == n > 0
    && |s.servers| == n
    && (forall i :: 0 <= i < n ==> s.servers[i] == Start(i, colors[i]))
    && s.net == multiset{} && s.sent == {} && s.chosen == map[]
    && |s.counted| == n
    && (forall i :: 0 <= i < n ==> s.counted[i] == {})
  }

  predicate Enabled(n: nat, s: State, a: Action) {
    match a
    case LocalStep(i) => i < |s.servers| && CanStep(n, s.servers[i])
    case Receive(i, p) => i < |s.servers| && CanReceive(s.servers[i]) && p in s.net && p.dst == i
    case Timeout(i) => i < |s.servers| && CanTimeout(s.servers[i])
    case Lose(p) => p in s.net
  }

  function AsSet(ps: seq<Packet>): set<Packet> { set p | p in ps }

  /** Install the outcome of a section of server `i` and put what it sent on the wire. A
      counting loop that starts afresh has counted nothing. */
  function Install(s: State, i: nat, o: Outcome): State
    requires i < |s.servers| == |s.counted|
  {
    s.(servers := s.servers[i := o.server],
       net := s.net + multiset(o.sends),
       sent := s.sent + AsSet(o.sends),
       counted := if o.server.phase.Fresh() then s.counted[i := {}] else s.counted)
  }

  /** History after server `i`, in state `v`, was handed packet `p` and became `v'`. */
  function Record(s: State, i: nat, v: Server, p: Packet, v': Server): State
    requires i < |s.counted| && v.phase.Receiving()
  {
    if p.msg.kind == v.phase.Wanted() && p.msg.round == v.round && !v.phase.AwaitPropose? then
      var c := s.counted[i] + {p};
      var s1 := s.(counted := s.counted[i := c]);
      if v'.phase.Proposing? then s1.(chosen := s1.chosen[v.round := Choice(v'.color, v'.colorRound, c)]) else s1
    else s
  }

  /** Server `i` is handed packet `p`, which has left the network or the stash. */
  function Handle(n: nat, s: State, i: nat, p: Packet): State
    requires n > 0 && i < |s.servers| == |s.counted| && s.servers[i].phase.Receiving()
  {
    var v := s.servers[i];
    var o := Accept(n, v, p);
    Record(Install(s, i, o), i, v, p, o.server)
  }

  function Apply(n: nat, s: State, a: Action): State
    requires n > 0 && |s.servers| == |s.counted| == n && Enabled(n, s, a)
  {
    match a
    case LocalStep(i) =>
      var v := s.servers[i];
      if Scanning(v) then Handle(n, s.(servers := s.servers[i := Unstash(v)]), i, v.stash[0])
      else Install(s, i, Step(n, v))
    case Receive(i, p) => Handle(n, s.(net := s.net - multiset{p}), i, p)
    case Timeout(i) => Install(s, i, Acknowledge(n, s.servers[i], []))
    case Lose(p) => s.(net := s.net - multiset{p})
  }

  /** Action `a` is one that a server in state `v` can take. */
  predicate Takes(n: nat, v: Server, a: Action) {
    match a
    case LocalStep(_) => CanStep(n, v)
    case Receive(_, _) => CanReceive(v)
    case Timeout(_) => CanTimeout(v)
    case Lose(_) => false
  }

  /** The section that it runs. */
  function SectionOf(n: nat, v: Server, a: Action): Outcome
    requires n > 0 && Takes(n, v, a)
  {
    match a
    case LocalStep(_) => Step(n, v)
    case Receive(_, p) => Accept(n, v, p)
    case Timeout(_) => Acknowledge(n, v, [])
  }

  lemma HandleEffect(n: nat, s: State, i: nat, p: Packet)
    requires n > 0 && i < |s.servers| == |s.counted| && s.servers[i].phase.Receiving()
    ensures var o, t := Accept(n, s.servers[i], p), Handle(n, s, i, p);
            t.servers == s.servers[i := o.server] && t.sent == s.sent + AsSet(o.sends)
  {
  }

  /** What an action does to servers and to the record of packets. */
  lemma ApplyEffect(n: nat, s: State, a: Action)
    requires n > 0 && |s.servers| == |s.counted| == n && Enabled(n, s, a)
    ensures a.Lose? ==> Apply(n, s, a).servers == s.servers && Apply(n, s, a).sent == s.sent
    ensures !a.Lose? ==>
              && a.i < n && Takes(n, s.servers[a.i], a)
              && var o, t := SectionOf(n, s.servers[a.i], a), Apply(n, s, a);
              t.servers == s.servers[a.i := o.server] && t.sent == s.sent + AsSet(o.sends)
  {
    if a.Receive? {
      HandleEffect(n, s.(net := s.net - multiset{a.p}), a.i, a.p);
    } else if a.LocalStep? && Scanning(s.servers[a.i]) {
      var v := s.servers[a.i];
      var s0 := s.(servers := s.servers[a.i := Unstash(v)]);
      HandleEffect(n, s0, a.i, v.stash[0]);
      assert s0.servers[a.i := Step(n, v).server] == s.servers[a.i := Step(n, v).server];
    }
  }

  /** A run: from an initial state, one enabled action after another. */
  ghost predicate IsRun(n: nat, colors: seq<string>, run: seq<State>) {
    && |run| > 0
    && Init(n, colors, run[0])
    && forall k :: 0 <= k < |run| - 1 ==> StepAt(n, run, k)
  }

  ghost predicate StepAt(n: nat, run: seq<State>, k: nat)
    requires k + 1 < |run|
  {
    Next(n, run[k], run[k + 1])
  }

  ghost predicate Next(n: nat, s: State, s': State) {
    && n > 0 && |s.servers| == |s.counted| == n
    && exists a :: Enabled(n, s, a) && s' == Apply(n, s, a)
  }
}
