/** Nancy, the observer, and the setup that tells her what to require. */
module ConsensusNancy {
  import opened ConsensusServer
  import opened ConsensusSystem
  import opened ConsensusProposals
  import opened ConsensusSafety

  datatype Verdict =
    | Approves(received: nat, consensus: string)
    | Unexpected(m: Message)
    | ConsensusError(m: Message)
    | TooFew

  predicate IsColor(c: string) { c == "red" || c == "blue" }

  /** What the setup loop leaves in `required_consensus`: the common colour, or nothing. */
  method RequiredConsensus(colors: seq<string>) returns (required: string)
    requires |colors| > 0 && forall c :: c in colors ==> IsColor(c)
    ensures required != "" <==> forall i :: 0 <= i < |colors| ==> colors[i] == colors[0]
    ensures required != "" ==> required == colors[0]
  {
    required := colors[0];
    assert colors[0] in colors;
    for i := 1 to |colors|
      invariant required != "" <==> forall k :: 0 <= k < i ==> colors[k] == colors[0]
      invariant required != "" ==> required == colors[0]
    {
      assert colors[i] in colors && colors[0] in colors;
      if required != colors[i] {
        required := "";
      }
    }
  }

  ghost predicate WellFormed(m: Message) { m.kind == Decide && IsColor(m.color) }

  ghost predicate Consistent(inbox: seq<Message>, required: string) {
    && (forall i :: 0 <= i < |inbox| ==> WellFormed(inbox[i]))
    && (forall i :: 0 <= i < |inbox| && required != "" ==> inbox[i].color == required)
    && (forall i, j :: 0 <= i < j < |inbox| ==> inbox[i].color == inbox[j].color)
  }

  /** Nancy's loop over the messages that reach her before her stop timer fires. */
  method Observe(n: nat, inbox: seq<Message>, required: string) returns (v: Verdict)
    ensures v.Approves? <==> Consistent(inbox, required) && |inbox| > n / 2
    ensures v.Approves? ==> v.received == |inbox| && v.consensus == inbox[0].color
    ensures v == TooFew <==> Consistent(inbox, required) && |inbox| <= n / 2
    ensures v.Unexpected? ==> v.m in inbox && !WellFormed(v.m)
  {
    var consensus := "";
    var received := 0;
    for i := 0 to |inbox|
      invariant received == i && Consistent(inbox[..i], required)
      invariant consensus == if i == 0 then "" else inbox[0].color
    {
      var m := inbox[i];
      assert i > 0 ==> WellFormed(inbox[..i][0]) && inbox[..i][0] == inbox[0];
      if m.kind != Decide || !IsColor(m.color) {
        return Unexpected(m);
      }
      if (required != "" && m.color != required) || (consensus != "" && m.color != consensus) {
        return ConsensusError(m);
      }
      consensus := m.color;
      received := received + 1;
      forall a, b | 0 <= a < b < i + 1 ensures inbox[a].color == inbox[b].color {
        if b < i {
          assert inbox[..i][a].color == inbox[..i][b].color;
        } else if a > 0 {
          assert inbox[..i][0].color == inbox[..i][a].color;
        }
      }
      forall a | 0 <= a < i + 1 ensures WellFormed(inbox[a]) && (required != "" ==> inbox[a].color == required) {
        if a < i {
          assert WellFormed(inbox[..i][a]);
        }
      }
    }
    assert inbox[..|inbox|] == inbox;
    if received <= n / 2 {
      return TooFew;
    }
    return Approves(received, consensus);
  }

  ghost predicate ReachesNancy(run: seq<State>, m: Message) {
    exists p :: SentDuring(run, p) && p.dst == NANCY && p.msg == m
  }

  /** Whatever reaches Nancy in a run passes every check she makes. */
  lemma NancyNeverObjects(n: nat, colors: seq<string>, run: seq<State>, inbox: seq<Message>, required: string)
    requires IsRun(n, colors, run) && forall c :: c in colors ==> IsColor(c)
    requires required != "" ==> forall i :: 0 <= i < n ==> colors[i] == required
    requires forall i :: 0 <= i < |inbox| ==>
               ReachesNancy(run, inbox[i])
    ensures Consistent(inbox, required)
  {
    forall i | 0 <= i < |inbox| ensures WellFormed(inbox[i]) && (required != "" ==> inbox[i].color == required) {
      assert ReachesNancy(run, inbox[i]);
      var p :| SentDuring(run, p) && p.dst == NANCY && p.msg == inbox[i];
      NancyHearsDecides(n, colors, run, p);
      Validity(n, colors, run, p);
    }
    forall i, j | 0 <= i < j < |inbox| ensures inbox[i].color == inbox[j].color {
      assert ReachesNancy(run, inbox[i]) && ReachesNancy(run, inbox[j]);
      var p :| SentDuring(run, p) && p.dst == NANCY && p.msg == inbox[i];
      var q :| SentDuring(run, q) && q.dst == NANCY && q.msg == inbox[j];
      Agreement(n, colors, run, p, q);
    }
  }
}
