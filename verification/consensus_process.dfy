/** The coroutine as the program writes it: nested loops over fields. The environment is a
    script of what the port and the failure detector will deliver. The method is proved to
    produce exactly what the flattened machine of ConsensusServer produces on that script. */
module ConsensusProcess {
  import opened ConsensusServer

  datatype Input = Arrive(p: Packet) | Expire

  ghost predicate ScanOk(s: Server) {
    s.phase.Receiving() ==> s.phase.scan <= |s.stash|
  }

  /** Sections a server can run before it must consume stash or script. */
  ghost function Rank(n: nat, s: Server): nat {
    match s.phase
    case AtPrepare => |s.stash| + 1
    case Proposing(j) => |s.stash| + 1 + (if j < n then n - j else 0)
    case Announcing(j) => if j < n then n - j else 0
    case Collecting(_, k) => k
    case AwaitPropose(k) => k
    case CollectAcks(_, _, k) => k
  }

  ghost function Then(sent: seq<Packet>, o: Outcome): Outcome { Outcome(o.server, sent + o.sends) }

  /** Run server `s` on the script until the script ends or the coroutine returns. */
  ghost function Execute(n: nat, s: Server, script: seq<Input>): Outcome
    requires n > 0 && ScanOk(s)
    decreases |script|, |s.stash|, Rank(n, s)
  {
    if CanStep(n, s) then
      var o := Step(n, s);
      Then(o.sends, Execute(n, o.server, script))
    else if Finished(n, s) || script == [] then Quiet(s)
    else if script[0].Arrive? then
      var o := Accept(n, s, script[0].p);
      Then(o.sends, Execute(n, o.server, script[1..]))
    else if CanTimeout(s) then
      var o := Acknowledge(n, s, []);
      Then(o.sends, Execute(n, o.server, script[1..]))
    else Execute(n, s, script[1..])
  }

  /** The rest of the run after a section with outcome `o`. */
  ghost function Resume(n: nat, o: Outcome, script: seq<Input>): Outcome
    requires n > 0 && ScanOk(o.server)
  {
    Then(o.sends, Execute(n, o.server, script))
  }

  lemma ResumeQuiet(n: nat, s: Server, script: seq<Input>)
    requires n > 0 && ScanOk(s)
    ensures Resume(n, Quiet(s), script) == Execute(n, s, script)
  {
  }

  lemma ExecuteScan(n: nat, s: Server, script: seq<Input>)
    requires n > 0 && ScanOk(s) && s.phase.Receiving() && s.phase.scan > 0
    ensures ScanOk(Accept(n, Unstash(s), s.stash[0]).server)
    ensures Execute(n, s, script) == Resume(n, Accept(n, Unstash(s), s.stash[0]), script)
  {
  }

  lemma ExecuteArrival(n: nat, s: Server, script: seq<Input>)
    requires n > 0 && s.phase.Receiving() && s.phase.scan == 0 && script != [] && script[0].Arrive?
    ensures ScanOk(Accept(n, s, script[0].p).server)
    ensures Execute(n, s, script) == Resume(n, Accept(n, s, script[0].p), script[1..])
  {
  }

  lemma ExecuteExpiry(n: nat, s: Server, script: seq<Input>)
    requires n > 0 && s.phase.Receiving() && s.phase.scan == 0 && script != [] && script[0].Expire?
    ensures Execute(n, s, script) ==
            if s.phase.AwaitPropose? then Resume(n, Acknowledge(n, s, []), script[1..])
            else Execute(n, s, script[1..])
  {
  }

  /** Where Phase 5 goes with the counts in `s`. */
  function Tallied(n: nat, s: Server): Server
    requires s.phase.CollectAcks?
  {
    if s.decided then s.(phase := Announcing(NANCY))
    else if s.phase.total <= n / 2 then s
    else if s.phase.success > n / 2 then s.(decided := true, phase := Announcing(NANCY))
    else NextRound(s)
  }

  /** Counting an ACK is tallying one more. */
  lemma CountAckTallies(n: nat, s: Server, m: Message)
    requires s.phase.CollectAcks? && !s.decided
    ensures var p := s.phase;
            CountAck(n, s, m) ==
            Tallied(n, s.(phase := CollectAcks(p.success + (if m.ack then 1 else 0), p.total + 1, |s.stash|)))
  {
  }

  lemma ThenResume(sent: seq<Packet>, o: Outcome, rest: Outcome)
    ensures Then(sent, Then(o.sends, rest)) == Then(sent + o.sends, rest)
  {
    assert sent + (o.sends + rest.sends) == sent + o.sends + rest.sends;
  }

  lemma Appended(told: seq<Packet>, id: nat, color: string, j: nat)
    ensures told + Decisions(j, id, color) + (if j == id then [] else [Packet(id, j, DecideMessage(color))]) ==
            told + Decisions(j + 1, id, color)
  {
  }

  datatype Taken = Msg(p: Packet, stashSize: nat) | Clock | Nothing

  datatype Received = Got(m: Message) | TimedOut | Suspended

  /** The fake message of `receive`, returned once the server has decided. */
  function FakeMessage(kind: Kind, round: nat, color: string, colorRound: nat): Message {
    Message(kind, round, color, colorRound, true)
  }

  /** What `receive` makes of one message that it does not return: it adopts a decision, or
      stashes or drops the message. */
  lemma AcceptOther(n: nat, s: Server, p: Packet)
    requires n > 0 && s.phase.Receiving()
    ensures p.msg.kind == Decide ==>
              Accept(n, s, p) == Quiet(s.(color := p.msg.color, decided := true, phase := Announcing(NANCY)))
    ensures p.msg.kind != Decide && (p.msg.kind != s.phase.Wanted() || p.msg.round != s.round) ==>
              Accept(n, s, p) == Quiet(s.(stash := s.stash + if p.msg.round >= s.round then [p] else []))
    ensures p.msg.kind == s.phase.Wanted() && p.msg.round == s.round ==>
              Accept(n, s, p) == Continue(n, s, p.msg)
  {
    assert s.stash + [] == s.stash;
  }

  lemma ContinueForgetsScan(n: nat, s: Server, k: nat, m: Message)
    requires n > 0 && s.phase.Receiving()
    ensures Continue(n, s, m) == Continue(n, s.(phase := s.phase.WithScan(k)), m)
    ensures ScanOk(Continue(n, s, m).server)
  {
  }

  /** The PROPOSEs of server `id` to the servers below `upTo`, in order. */
  function Proposals(upTo: nat, id: nat, round: nat, color: string): (ps: seq<Packet>)
    ensures |ps| == upTo
    ensures forall j: nat | j < upTo :: ps[j] == Packet(id, j, Message(Propose, round, color, 0, false))
  {
    if upTo == 0 then []
    else Proposals(upTo - 1, id, round, color) + [Packet(id, upTo - 1, ProposeMessage(round, color))]
  }

  /** The DECIDEs of server `id` to the other servers below `upTo`, in order. */
  function Decisions(upTo: nat, id: nat, color: string): (ps: seq<Packet>)
    ensures |ps| == if id < upTo then upTo - 1 else upTo
    ensures forall j: nat | j < upTo && j != id ::
              ps[if j < id then j else j - 1] == Packet(id, j, Message(Decide, 0, color, 0, false))
  {
    if upTo == 0 then []
    else
      Decisions(upTo - 1, id, color)
      + if upTo - 1 == id then [] else [Packet(id, upTo - 1, DecideMessage(color))]
  }

  class Process {
    const n: nat
    const id: nat
    var color: string
    var round: nat
    var colorRound: nat
    var stash: seq<Packet>
    var decided: bool
    var script: seq<Input>
    var out: seq<Packet>

    ghost function At(phase: Phase): Server
      reads this
    {
      Server(id, color, round, colorRound, stash, decided, phase)
    }

    /** What the machine ends with, counting what has been sent so far. */
    ghost function Ahead(phase: Phase): Outcome
      requires n > 0 && ScanOk(At(phase))
      reads this
    {
      Then(out, Execute(n, At(phase), script))
    }

    constructor (n: nat, id: nat, color: string, script: seq<Input>)
      ensures this.n == n && this.id == id && this.script == script && out == []
      ensures At(AtPrepare) == Start(id, color)
    {
      this.n, this.id, this.color, this.script := n, id, color, script;
      round, colorRound, stash, decided, out := 1, 0, [], false, [];
    }

    method Send(dst: int, m: Message)
      modifies this`out
      ensures out == old(out) + [Packet(id, dst, m)]
    {
      out := out + [Packet(id, dst, m)];
    }

    /** `pop_stash`: the oldest stashed message. */
    method PopStash() returns (p: Packet)
      requires stash != []
      modifies this`stash
      ensures old(stash) == [p] + stash
    {
      p := stash[0];
      stash := stash[1..];
    }

    /** The next message for `receive`: from the stash while this call has some of it left to
        look at, then from the port. */
    method Take(stashSize: nat, mt: Kind, ghost phase: Phase) returns (t: Taken)
      requires n > 0 && phase.Receiving() && mt == phase.Wanted() && stashSize <= |stash|
      modifies this`stash, this`script
      ensures |script| + |stash| <= old(|script| + |stash|)
      ensures t.Msg? ==>
                && t.stashSize <= |stash|
                && (|script| < old(|script|) || (script == old(script) && t.stashSize < stashSize))
                && |script| + |stash| < old(|script| + |stash|)
                && ScanOk(Accept(n, At(phase.WithScan(t.stashSize)), t.p).server)
                && old(Execute(n, At(phase.WithScan(stashSize)), script)) ==
                   Resume(n, Accept(n, At(phase.WithScan(t.stashSize)), t.p), script)
      ensures t.Clock? ==>
                && stashSize == 0 && stash == old(stash) && |script| < old(|script|)
                && old(Execute(n, At(phase.WithScan(0)), script)) ==
                   if phase.AwaitPropose? then Resume(n, Acknowledge(n, At(phase), []), script)
                   else Execute(n, At(phase.WithScan(0)), script)
      ensures t.Nothing? ==>
                && stash == old(stash)
                && old(Execute(n, At(phase.WithScan(stashSize)), script)) == Quiet(At(phase.WithScan(0)))
    {
      ghost var s := At(phase.WithScan(stashSize));
      if stashSize > 0 {
        ExecuteScan(n, s, script);
        var p := PopStash();
        t := Msg(p, stashSize - 1);
        assert Unstash(s) == At(phase.WithScan(t.stashSize));
      } else if script == [] {
        t := Nothing;
      } else if script[0].Expire? {
        ExecuteExpiry(n, s, script);
        script := script[1..];
        t := Clock;
      } else {
        ExecuteArrival(n, s, script);
        t := Msg(script[0].p, 0);
        script := script[1..];
      }
    }

    /** Look at one message in `receive`: adopt a decision, stash or drop what is not wanted. */
    method Sort(p: Packet, stashSize: nat, mt: Kind, ghost phase: Phase) returns (wanted: bool)
      requires n > 0 && phase.Receiving() && mt == phase.Wanted() && !decided && stashSize <= |stash|
      requires ScanOk(Accept(n, At(phase.WithScan(stashSize)), p).server)
      modifies this`color, this`decided, this`stash
      ensures wanted <==> p.msg.kind == mt && p.msg.kind != Decide && p.msg.round == round
      ensures decided <==> p.msg.kind == Decide
      ensures color == if p.msg.kind == Decide then p.msg.color else old(color)
      ensures stash == old(stash) + if !wanted && !decided && p.msg.round >= round then [p] else []
      ensures wanted ==>
                && ScanOk(Continue(n, At(phase), p.msg).server)
                && old(Resume(n, Accept(n, At(phase.WithScan(stashSize)), p), script)) ==
                   Resume(n, Continue(n, At(phase), p.msg), script)
      ensures !wanted ==>
                old(Resume(n, Accept(n, At(phase.WithScan(stashSize)), p), script)) ==
                Execute(n, At(if decided then Announcing(NANCY) else phase.WithScan(stashSize)), script)
    {
      var m := p.msg;
      AcceptOther(n, At(phase.WithScan(stashSize)), p);
      wanted := false;
      if m.kind == Decide {
        color := m.color;
        decided := true;
      } else if m.kind != mt || m.round != round {
        if m.round >= round {
          stash := stash + [p];
        }
      } else {
        ContinueForgetsScan(n, At(phase), stashSize, m);
        wanted := true;
      }
    }

    /** How `receive` ends, when `goal` is what the machine was to end with. */
    ghost predicate Ends(goal: Outcome, mt: Kind, phase: Phase, r: Received)
      requires n > 0 && phase.Receiving()
      reads this
    {
      if decided then
        r == Got(FakeMessage(mt, round, color, colorRound)) && goal == Execute(n, At(Announcing(NANCY)), script)
      else
        match r
        case Got(m) =>
          && m.kind == mt && m.round == round && ScanOk(Continue(n, At(phase), m).server)
          && goal == Resume(n, Continue(n, At(phase), m), script)
        case TimedOut => phase.AwaitPropose? && goal == Resume(n, Acknowledge(n, At(phase), []), script)
        case Suspended => goal == Quiet(At(phase.WithScan(0)))
    }

    /** One turn of the loop in `receive`, with `stashSize` stashed messages left to look at. */
    method ReceiveTurn(stashSize: nat, mt: Kind, ghost phase: Phase) returns (ended: bool, left: nat, r: Received)
      requires n > 0 && phase.Receiving() && mt == phase.Wanted() && !decided && stashSize <= |stash|
      modifies this`color, this`decided, this`stash, this`script
      ensures !decided ==> color == old(color)
      ensures !decided && !(ended && r.Suspended?) ==>
                && |script| + |stash| <= old(|script| + |stash|)
                && (|script| < old(|script|) || (script == old(script) && left < stashSize))
      ensures !decided && ended && !r.Suspended? ==> |script| + |stash| < old(|script| + |stash|)
      ensures ended ==> Ends(old(Execute(n, At(phase.WithScan(stashSize)), script)), mt, phase, r)
      ensures !ended ==>
                && !decided && left <= |stash|
                && old(Execute(n, At(phase.WithScan(stashSize)), script)) ==
                   Execute(n, At(phase.WithScan(left)), script)
    {
      var t := Take(stashSize, mt, phase);
      if t.Nothing? {
        return true, 0, Suspended;
      }
      if t.Clock? {
        return mt == Propose, 0, TimedOut;
      }
      var wanted := Sort(t.p, t.stashSize, mt, phase);
      return wanted || decided, t.stashSize,
        Got(if wanted then t.p.msg else FakeMessage(mt, round, color, colorRound));
    }

    /** `receive(mt)`, with the failure detector's expiry as a possible outcome. */
    method Receive(mt: Kind, ghost phase: Phase) returns (r: Received)
      requires n > 0 && phase.Receiving() && mt == phase.Wanted()
      modifies this`color, this`decided, this`stash, this`script
      ensures old(decided) ==>
                r == Got(FakeMessage(mt, round, color, colorRound)) && decided && color == old(color)
                && stash == old(stash) && script == old(script)
      ensures !old(decided) ==> Ends(old(Execute(n, At(phase.WithScan(|stash|)), script)), mt, phase, r)
      ensures !decided ==> color == old(color)
      ensures !decided && !r.Suspended? ==> |script| + |stash| < old(|script| + |stash|)
    {
      var stashSize: nat := |stash|;
      while !decided
        invariant decided == old(decided) && color == old(color)
        invariant stashSize <= |stash| && |script| + |stash| <= old(|script| + |stash|)
        invariant decided ==> stash == old(stash) && script == old(script)
        invariant old(Execute(n, At(phase.WithScan(|stash|)), script)) ==
                  Execute(n, At(phase.WithScan(stashSize)), script)
        decreases |script|, stashSize
      {
        var ended;
        ended, stashSize, r := ReceiveTurn(stashSize, mt, phase);
        if ended {
          return;
        }
      }
      r := Got(FakeMessage(mt, round, color, colorRound));
    }

    /** Phase 2. The result says whether the coroutine is still waiting, and in which phase. */
    method CollectPrepares() returns (waiting: bool, ghost stop: Phase)
      requires n > 0 && !decided
      modifies this`color, this`colorRound, this`decided, this`stash, this`script
      ensures waiting ==> old(Ahead(Collecting(0, |stash|))) == Outcome(At(stop), out)
      ensures !waiting && decided ==> old(Ahead(Collecting(0, |stash|))) == Ahead(Announcing(NANCY))
      ensures !waiting && !decided ==> old(Ahead(Collecting(0, |stash|))) == Ahead(Proposing(0))
      ensures !waiting && !decided ==> |script| + |stash| <= old(|script| + |stash|)
    {
      var received: nat := 0;
      ghost var goal := Ahead(Collecting(0, |stash|));
      waiting, stop := false, AtPrepare;
      while received <= n / 2
        invariant goal == Ahead(Gathering(received))
        invariant !decided ==> |script| + |stash| <= old(|script| + |stash|)
        decreases n / 2 - received
      {
        waiting := CollectPrepare(received);
        if waiting {
          return true, Collecting(received, 0);
        }
        received := received + 1;
      }
    }

    /** The phase the machine is in when the Phase 2 loop has counted `received`. */
    ghost function Gathering(received: nat): Phase
      reads this
    {
      if decided then Announcing(NANCY) else if received <= n / 2 then Collecting(received, |stash|) else Proposing(0)
    }

    /** One iteration of the Phase 2 loop. */
    method CollectPrepare(received: nat) returns (waiting: bool)
      requires n > 0 && received <= n / 2
      modifies this`color, this`colorRound, this`decided, this`stash, this`script
      ensures waiting ==> !decided && old(Ahead(Gathering(received))) == Outcome(At(Collecting(received, 0)), out)
      ensures !waiting ==> old(Ahead(Gathering(received))) == Ahead(Gathering(received + 1))
      ensures !waiting && !decided ==> !old(decided) && |script| + |stash| <= old(|script| + |stash|)
    {
      ghost var phase := Collecting(received, 0);
      var r := Receive(Kind.Prepare, phase);
      if r.Suspended? {
        return true;
      }
      ghost var s' := CountPrepare(n, At(phase), r.m);
      if !decided {
        ResumeQuiet(n, s', script);
      }
      if r.m.colorRound > colorRound {
        color := r.m.color;
        colorRound := r.m.colorRound;
      }
      assert !decided ==> s' == At(Gathering(received + 1));
      waiting := false;
    }

    /** Phase 3. */
    method BroadcastProposal()
      requires n > 0 && !decided
      modifies this`out
      ensures old(Ahead(Proposing(0))) == Ahead(AwaitPropose(|stash|))
      ensures out == old(out) + Proposals(n, id, round, color)
    {
      var j: nat := 0;
      while j != n
        invariant j <= n && old(Ahead(Proposing(0))) == Ahead(Proposing(j))
        invariant out == old(out) + Proposals(j, id, round, color)
      {
        ghost var before := out;
        ghost var s := At(Proposing(j));
        Send(j, ProposeMessage(round, color));
        j := j + 1;
        assert Step(n, s) == Outcome(At(Proposing(j)), [Packet(id, j - 1, ProposeMessage(round, color))]);
        ThenResume(before, Step(n, s), Execute(n, At(Proposing(j)), script));
      }
      assert Step(n, At(Proposing(n))) == Quiet(At(AwaitPropose(|stash|)));
      ThenResume(out, Step(n, At(Proposing(n))), Execute(n, At(AwaitPropose(|stash|)), script));
    }

    /** Phase 4. */
    method AnswerProposal() returns (waiting: bool, ghost stop: Phase, ghost answer: bool)
      requires n > 0 && !decided
      modifies this`color, this`colorRound, this`decided, this`stash, this`script, this`out
      ensures waiting ==> old(Ahead(AwaitPropose(|stash|))) == Outcome(At(stop), out)
      ensures !waiting && decided ==> old(Ahead(AwaitPropose(|stash|))) == Ahead(Announcing(NANCY))
      ensures !waiting && !decided && id == Leader(n, round) ==>
                old(Ahead(AwaitPropose(|stash|))) == Ahead(CollectAcks(0, 0, |stash|))
      ensures !waiting && !decided && id != Leader(n, round) ==>
                old(Ahead(AwaitPropose(|stash|))) == Then(out, Execute(n, NextRound(At(AtPrepare)), script))
      ensures !waiting && !decided ==> |script| + |stash| < old(|script| + |stash|)
      ensures waiting || decided ==> out == old(out) && !answer
      ensures !waiting && !decided ==> out == old(out) + [Packet(id, round % n, Message(Ack, round, "", 0, answer))]
      ensures if answer then colorRound == round else colorRound == old(colorRound) && (decided || color == old(color))
    {
      waiting, stop, answer := false, AtPrepare, false;
      ghost var phase := AwaitPropose(0);
      var r := Receive(Propose, phase);
      if r.Suspended? {
        return true, phase, false;
      }
      if decided {
        return;
      }
      answer := r.Got?;
      ghost var s, before := At(phase), out;
      if r.Got? {
        color := r.m.color;
        colorRound := round;
      }
      var leader := Leader(n, round);
      Send(leader, AckMessage(round, r.Got?));
      ghost var o := Acknowledge(n, s, if r.Got? then [r.m] else []);
      assert o.server == if id == leader then At(CollectAcks(0, 0, |stash|)) else NextRound(At(AtPrepare));
      ThenResume(before, o, Execute(n, o.server, script));
    }

    /** Phase 5. */
    method CollectAnswers() returns (waiting: bool, ghost stop: Phase)
      requires n > 0 && !decided
      modifies this`color, this`decided, this`stash, this`script
      ensures waiting ==> old(Ahead(CollectAcks(0, 0, |stash|))) == Outcome(At(stop), out)
      ensures !waiting && decided ==> old(Ahead(CollectAcks(0, 0, |stash|))) == Ahead(Announcing(NANCY))
      ensures !waiting && !decided ==>
                old(Ahead(CollectAcks(0, 0, |stash|))) == Then(out, Execute(n, NextRound(At(AtPrepare)), script))
      ensures !waiting && !decided ==> |script| + |stash| <= old(|script| + |stash|)
    {
      var success: nat, total: nat := 0, 0;
      ghost var goal := Ahead(CollectAcks(0, 0, |stash|));
      TallyMeans(0, 0);
      waiting, stop := false, AtPrepare;
      while total <= n / 2
        invariant goal == Tally(success, total)
        invariant !decided ==> |script| + |stash| <= old(|script| + |stash|)
        decreases n / 2 - total
      {
        var ack;
        waiting, ack := CollectAnswer(success, total);
        if waiting {
          return true, CollectAcks(success, total, 0);
        }
        if ack {
          success := success + 1;
        }
        total := total + 1;
      }
      Conclude(success, total);
    }

    /** A majority has answered: decide if a majority agreed. */
    method Conclude(success: nat, total: nat)
      requires n > 0 && total > n / 2
      modifies this`decided
      ensures decided ==> old(Tally(success, total)) == Ahead(Announcing(NANCY))
      ensures !decided ==>
                !old(decided) && old(Tally(success, total)) == Then(out, Execute(n, NextRound(At(AtPrepare)), script))
    {
      if !decided && success > n / 2 {
        decided := true;
      }
    }

    /** What the machine ends with when the Phase 5 loop has these counts. */
    ghost function Tally(success: nat, total: nat): Outcome
      requires n > 0
      reads this
    {
      Then(out, Execute(n, Tallied(n, At(CollectAcks(success, total, |stash|))), script))
    }

    lemma TallyMeans(success: nat, total: nat)
      requires n > 0
      ensures decided ==> Tally(success, total) == Ahead(Announcing(NANCY))
      ensures !decided && total <= n / 2 ==> Tally(success, total) == Ahead(CollectAcks(success, total, |stash|))
    {
    }

    lemma AnswerCounted(success: nat, total: nat, m: Message)
      requires n > 0 && !decided
      ensures ScanOk(Continue(n, At(CollectAcks(success, total, 0)), m).server)
      ensures Then(out, Resume(n, Continue(n, At(CollectAcks(success, total, 0)), m), script)) ==
              Tally(success + (if m.ack then 1 else 0), total + 1)
    {
      var s := At(CollectAcks(success, total, 0));
      CountAckTallies(n, s, m);
      ResumeQuiet(n, CountAck(n, s, m), script);
    }

    /** One iteration of the Phase 5 loop. */
    method CollectAnswer(success: nat, total: nat) returns (waiting: bool, ack: bool)
      requires n > 0 && total <= n / 2
      modifies this`color, this`decided, this`stash, this`script
      ensures waiting ==> !decided && old(Tally(success, total)) == Outcome(At(CollectAcks(success, total, 0)), out)
      ensures !waiting ==> old(Tally(success, total)) == Tally(success + (if ack then 1 else 0), total + 1)
      ensures !waiting && !decided ==> !old(decided) && |script| + |stash| <= old(|script| + |stash|)
    {
      ghost var phase := CollectAcks(success, total, 0);
      TallyMeans(success, total);
      var r := Receive(Ack, phase);
      if r.Suspended? {
        return true, false;
      }
      waiting, ack := false, r.m.ack;
      if decided {
        TallyMeans(success + (if ack then 1 else 0), total + 1);
      } else {
        AnswerCounted(success, total, r.m);
      }
    }

    /** The announcement. */
    method Announce()
      requires n > 0 && decided
      modifies this`out
      ensures old(Ahead(Announcing(NANCY))) == Outcome(At(Announcing(n)), out)
      ensures out == old(out) + [Packet(id, -1, Message(Decide, 0, color, 0, false))] + Decisions(n, id, color)
    {
      AnnounceTo(NANCY);
      ghost var told := out;
      var j: nat := 0;
      while j != n
        invariant j <= n && old(Ahead(Announcing(NANCY))) == Ahead(Announcing(j))
        invariant out == told + Decisions(j, id, color)
      {
        AnnounceNext(j);
        Appended(told, id, color, j);
        j := j + 1;
      }
      assert Ahead(Announcing(n)) == Then(out, Quiet(At(Announcing(n))));
    }

    method AnnounceNext(j: nat)
      requires n > 0 && decided && j < n
      modifies this`out
      ensures out == old(out) + if j == id then [] else [Packet(id, j, DecideMessage(color))]
      ensures old(Ahead(Announcing(j))) == Ahead(Announcing(j + 1))
    {
      if j != id {
        AnnounceTo(j);
      } else {
        ThenResume(out, Step(n, At(Announcing(j))), Execute(n, At(Announcing(j + 1)), script));
      }
    }

    method AnnounceTo(j: int)
      requires n > 0 && decided && j < n && j != id
      modifies this`out
      ensures out == old(out) + [Packet(id, j, DecideMessage(color))]
      ensures old(Ahead(Announcing(j))) == Ahead(Announcing(j + 1))
    {
      ghost var before, s := out, At(Announcing(j));
      Send(j, DecideMessage(color));
      ThenResume(before, Step(n, s), Execute(n, At(Announcing(j + 1)), script));
    }

    /** Phases 2 and 3, for the leader. */
    method Lead() returns (waiting: bool, ghost stop: Phase)
      requires n > 0 && !decided
      modifies this`color, this`colorRound, this`decided, this`stash, this`script, this`out
      ensures waiting ==> old(Ahead(Collecting(0, |stash|))) == Outcome(At(stop), out)
      ensures !waiting ==> old(Ahead(Collecting(0, |stash|))) ==
                           Ahead(if decided then Announcing(NANCY) else AwaitPropose(|stash|))
      ensures !waiting && !decided ==> |script| + |stash| <= old(|script| + |stash|)
    {
      waiting, stop := CollectPrepares();
      if !waiting && !decided {
        BroadcastProposal();
      }
    }

    /** Phase 1. */
    method Prepare()
      requires n > 0 && !decided
      modifies this`out
      ensures old(Ahead(AtPrepare)) ==
              Ahead(if id == Leader(n, round) then Collecting(0, |stash|) else AwaitPropose(|stash|))
      ensures out == old(out) + [Packet(id, round % n, Message(Kind.Prepare, round, color, colorRound, false))]
    {
      ghost var before, s := out, At(AtPrepare);
      Send(Leader(n, round), PrepareMessage(round, color, colorRound));
      ThenResume(before, Step(n, s), Execute(n, Step(n, s).server, script));
    }

    /** One round: Phases 1 to 6. */
    method Round() returns (waiting: bool, ghost stop: Phase)
      requires n > 0 && !decided
      modifies this
      ensures waiting ==> old(Ahead(AtPrepare)) == Outcome(At(stop), out)
      ensures !waiting ==> old(Ahead(AtPrepare)) == Ahead(if decided then Announcing(NANCY) else AtPrepare)
      ensures !waiting && !decided ==> |script| + |stash| < old(|script| + |stash|)
    {
      var leader := Leader(n, round);
      Prepare();
      if id == leader {
        waiting, stop := Lead();
        if waiting || decided {
          return;
        }
      }
      waiting, stop := FinishRound();
    }

    /** Phases 4 to 6. */
    method FinishRound() returns (waiting: bool, ghost stop: Phase)
      requires n > 0 && !decided
      modifies this
      ensures waiting ==> old(Ahead(AwaitPropose(|stash|))) == Outcome(At(stop), out)
      ensures !waiting ==> old(Ahead(AwaitPropose(|stash|))) == Ahead(if decided then Announcing(NANCY) else AtPrepare)
      ensures !waiting && !decided ==> |script| + |stash| < old(|script| + |stash|)
    {
      ghost var answer;
      waiting, stop, answer := AnswerProposal();
      if waiting || decided {
        return;
      }
      if id == Leader(n, round) {
        waiting, stop := CollectAnswers();
        if waiting || decided {
          return;
        }
      }
      round := round + 1;
    }

    /** `consensus()`: on any script, the structured coroutine sends exactly what the machine
        sends and stops in exactly its state. */
    method Consensus() returns (ghost stop: Phase)
      requires n > 0 && !decided
      modifies this
      ensures old(Ahead(AtPrepare)) == Outcome(At(stop), out)
    {
      ghost var goal := Ahead(AtPrepare);
      while !decided
        invariant goal == Ahead(if decided then Announcing(NANCY) else AtPrepare)
        decreases !decided, |script| + |stash|
      {
        var waiting;
        waiting, stop := Round();
        if waiting {
          return;
        }
      }
      Announce();
      stop := Announcing(n);
    }
  }
}
