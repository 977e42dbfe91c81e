/** Whole runs of ports, senders and racing consumers: no item is lost, repeated or reordered. */
module RaceRuns {
  import opened RaceModel
  import opened RaceMeaning

  /** `sent` and `returned` are history: what was put on each port's queue, and what completed tasks
      handed to their consumers. */
  datatype Net = Net(queues: Queues, tasks: seq<Task>, sent: Queues, returned: Queues)

  datatype Action =
    | Send(port: nat, value: Value)       // `send_after` puts a message on the queue
    | Spawn(task: Task)                   // a consumer starts a task
    | Stir(index: nat, task: Task)        // coroutines run on to resolution points, events fire
    | Resume(index: nat)                  // the consumer drives the task past its resolution point
    | Drop(index: nat)                    // the consumer abandons the task

  predicate Fresh(t: Task, n: nat) { InRange(t, n) && Unfinished(t) && CancelledByEvents(t) }

  ghost predicate Enabled(s: Net, a: Action) {
    match a
    case Send(p, _) => p < |s.queues|
    case Spawn(t) => Fresh(t, |s.queues|)
    case Stir(k, u) => k < |s.tasks| && SameShape(s.tasks[k], u)
    case Resume(k) => k < |s.tasks| && InRange(s.tasks[k], |s.queues|)
    case Drop(k) => k < |s.tasks|
  }

  function Start(ports: nat): Net {
    var none := seq(ports, i => []);
    Net(none, [], none, none)
  }

  function Append(qs: Queues, p: nat, v: Value): Queues
    requires p < |qs|
  { qs[p := qs[p] + [v]] }

  /** A completed task leaves, and its consumer gets the result. */
  function Deliver(returned: Queues, r: Result): Queues {
    if r.Item? && r.port < |returned| then Append(returned, r.port, r.value) else returned
  }

  function Apply(s: Net, a: Action): Net
    requires Enabled(s, a)
  {
    match a
    case Send(p, v) =>
      s.(queues := Append(s.queues, p, v), sent := if p < |s.sent| then Append(s.sent, p, v) else s.sent)
    case Spawn(t) => s.(tasks := s.tasks + [t])
    case Stir(k, u) => s.(tasks := s.tasks[k := u])
    case Resume(k) =>
      var o := Resolve(s.tasks[k], s.queues);
      if o.completed then
        s.(queues := o.queues,
           tasks := s.tasks[..k] + s.tasks[k + 1..],
           returned := Deliver(s.returned, ResultOf(o.task)))
      else s.(queues := o.queues, tasks := s.tasks[k := o.task])
    case Drop(k) => s.(tasks := s.tasks[..k] + s.tasks[k + 1..])
  }

  ghost predicate StepAt(run: seq<Net>, k: nat)
    requires k + 1 < |run|
  { exists a :: Enabled(run[k], a) && run[k + 1] == Apply(run[k], a) }

  ghost predicate IsRun(run: seq<Net>, ports: nat) {
    |run| > 0 && run[0] == Start(ports) && forall k :: 0 <= k < |run| - 1 ==> StepAt(run, k)
  }

  ghost predicate ConservedAt(s: Net, p: nat)
    requires p < |s.queues| && |s.sent| == |s.queues| && |s.returned| == |s.queues|
  { s.sent[p] == s.returned[p] + s.queues[p] }

  ghost predicate Inv(s: Net, n: nat) {
    && |s.queues| == n && |s.sent| == n && |s.returned| == n
    && (forall k :: 0 <= k < |s.tasks| ==> Fresh(s.tasks[k], n))
    && (forall p: nat :: p < n ==> ConservedAt(s, p))
  }

  lemma {:induction false} StirKeepsFresh(t: Task, u: Task, n: nat)
    requires SameShape(t, u) && InRange(t, n) && Unfinished(t)
    ensures InRange(u, n) && Unfinished(u)
    decreases t, 1
  {
    match t
    case Forward(i) => StirKeepsFresh(i, u.inner, n);
    case Race(args, _) => StirKeepsAllFresh(args, u.args, n);
    case Attempt(b, cs, _) =>
      StirKeepsFresh(b, u.body, n);
      StirKeepsAllFresh(cs, u.cancels, n);
    case Receive(_, _) =>
    case Signal(_) =>
  }

  lemma {:induction false} StirKeepsAllFresh(ts: seq<Task>, us: seq<Task>, n: nat)
    requires SameShapes(ts, us) && AllInRange(ts, n) && AllUnfinished(ts)
    ensures AllInRange(us, n) && AllUnfinished(us)
    decreases ts, 0
  {
    if ts != [] {
      StirKeepsFresh(ts[0], us[0], n);
      StirKeepsAllFresh(ts[1..], us[1..], n);
    }
  }

  lemma ResumeKeeps(s: Net, n: nat, k: nat)
    requires Inv(s, n) && k < |s.tasks|
    ensures Inv(Apply(s, Resume(k)), n)
  {
    assert Fresh(s.tasks[k], n);
    RaceConsumption(s.tasks[k], s.queues);
    var o, s' := Resolve(s.tasks[k], s.queues), Apply(s, Resume(k));
    forall p: nat | p < n ensures ConservedAt(s', p) {
      assert ConservedAt(s, p);
    }
  }

  lemma StepKeeps(s: Net, n: nat, a: Action)
    requires Inv(s, n) && Enabled(s, a)
    ensures Inv(Apply(s, a), n)
  {
    var s' := Apply(s, a);
    match a
    case Resume(k) => ResumeKeeps(s, n, k);
    case Stir(k, u) =>
      assert Fresh(s.tasks[k], n);
      StirKeepsFresh(s.tasks[k], u, n);
      ShapeKeepsCancellers(s.tasks[k], u);
      assert forall p: nat :: p < n ==> ConservedAt(s, p) ==> ConservedAt(s', p);
    case Send(p, v) =>
      forall q: nat | q < n ensures ConservedAt(s', q) {
        assert ConservedAt(s, q);
      }
    case Spawn(t) =>
      assert forall p: nat :: p < n ==> ConservedAt(s, p) ==> ConservedAt(s', p);
    case Drop(k) =>
      assert forall p: nat :: p < n ==> ConservedAt(s, p) ==> ConservedAt(s', p);
  }

  lemma {:induction false} RunInv(run: seq<Net>, ports: nat, k: nat)
    requires IsRun(run, ports) && k < |run|
    ensures Inv(run[k], ports)
  {
    if k > 0 {
      RunInv(run, ports, k - 1);
      assert StepAt(run, k - 1);
      var a :| Enabled(run[k - 1], a) && run[k] == Apply(run[k - 1], a);
      StepKeeps(run[k - 1], ports, a);
    }
  }

  // Told by the actions of a run

  /** Action `acts[k]` leads from state `k` to the next. */
  ghost predicate IsTrace(run: seq<Net>, acts: seq<Action>, ports: nat) {
    |run| == |acts| + 1 && run[0] == Start(ports) && forall k | 0 <= k < |acts| :: Does(run, acts, k)
  }

  ghost predicate Does(run: seq<Net>, acts: seq<Action>, k: nat)
    requires k < |acts| && |run| == |acts| + 1
  { Enabled(run[k], acts[k]) && run[k + 1] == Apply(run[k], acts[k]) }

  lemma TraceInv(run: seq<Net>, acts: seq<Action>, ports: nat, k: nat)
    requires IsTrace(run, acts, ports) && k <= |acts|
    ensures Inv(run[k], ports)
  {
    forall j | 0 <= j < |run| - 1 ensures StepAt(run, j) {
      assert Does(run, acts, j);
    }
    RunInv(run, ports, k);
  }

  /** What was sent to port `p` in the first `k` steps. */
  ghost function SentTo(acts: seq<Action>, k: nat, p: nat): seq<Value>
    requires k <= |acts|
  {
    if k == 0 then []
    else SentTo(acts, k - 1, p) + match acts[k - 1] case Send(q, v) => (if q == p then [v] else []) case _ => []
  }

  /** What a consumer that resumes task `t` is handed from port `p`. */
  ghost function HandedBy(t: Task, qs: Queues, p: nat): seq<Value> {
    if !InRange(t, |qs|) then []
    else
      var o := Resolve(t, qs);
      if o.completed && ResultOf(o.task).Item? && ResultOf(o.task).port == p then [ResultOf(o.task).value] else []
  }

  /** What consumers were handed from port `p` in the first `k` steps. */
  ghost function HandedFrom(run: seq<Net>, acts: seq<Action>, k: nat, p: nat): seq<Value>
    requires k <= |acts| && |run| == |acts| + 1
  {
    if k == 0 then []
    else
      HandedFrom(run, acts, k - 1, p)
      + match acts[k - 1]
        case Resume(i) => if i < |run[k - 1].tasks| then HandedBy(run[k - 1].tasks[i], run[k - 1].queues, p) else []
        case _ => []
  }

  lemma StepTells(s: Net, n: nat, a: Action, p: nat)
    requires Inv(s, n) && Enabled(s, a) && p < n
    ensures var t := Apply(s, a);
            && |t.sent| == |t.returned| == n
            && t.sent[p] == s.sent[p] + (match a case Send(q, v) => (if q == p then [v] else []) case _ => [])
            && t.returned[p] ==
               s.returned[p]
               + (match a case Resume(i) => HandedBy(s.tasks[i], s.queues, p) case _ => [])
  {
  }

  lemma {:induction false} TraceTells(run: seq<Net>, acts: seq<Action>, ports: nat, k: nat, p: nat)
    requires IsTrace(run, acts, ports) && k <= |acts| && p < ports
    ensures |run[k].sent| == |run[k].returned| == ports
    ensures run[k].sent[p] == SentTo(acts, k, p) && run[k].returned[p] == HandedFrom(run, acts, k, p)
  {
    if k > 0 {
      TraceTells(run, acts, ports, k - 1, p);
      TraceInv(run, acts, ports, k - 1);
      assert Does(run, acts, k - 1);
      StepTells(run[k - 1], ports, acts[k - 1], p);
    }
  }

  /** A consumer that resumes task `k` gets its result exactly if the task can complete, and the task leaves;
      otherwise the task waits again in its place. No other task is touched. */
  lemma ResumeMeans(s: Net, n: nat, k: nat)
    requires Inv(s, n) && Enabled(s, Resume(k))
    ensures var t := Apply(s, Resume(k)).tasks;
            if CanComplete(s.tasks[k], s.queues) then t == s.tasks[..k] + s.tasks[k + 1..]
            else
              && |t| == |s.tasks| && Blocked(s.tasks[k], t[k]) && Apply(s, Resume(k)).queues == s.queues
              && forall j | 0 <= j < |t| && j != k :: t[j] == s.tasks[j]
  {
    ResolveMeans(s.tasks[k], s.queues);
  }

  /** How many tasks the first `k` steps started, less those they completed or dropped. */
  ghost function Alive(run: seq<Net>, acts: seq<Action>, k: nat): int
    requires k <= |acts| && |run| == |acts| + 1
  {
    if k == 0 then 0
    else
      Alive(run, acts, k - 1)
      + match acts[k - 1]
        case Spawn(_) => 1
        case Drop(_) => -1
        case Resume(i) =>
          if i < |run[k - 1].tasks| && CanComplete(run[k - 1].tasks[i], run[k - 1].queues) then -1 else 0
        case _ => 0
  }

  /** No consumer's task vanishes or is made up. */
  lemma {:induction false} TasksCounted(run: seq<Net>, acts: seq<Action>, ports: nat, k: nat)
    requires IsTrace(run, acts, ports) && k <= |acts|
    ensures |run[k].tasks| == Alive(run, acts, k)
  {
    if k > 0 {
      TasksCounted(run, acts, ports, k - 1);
      TraceInv(run, acts, ports, k - 1);
      assert Does(run, acts, k - 1);
      if acts[k - 1].Resume? {
        ResumeMeans(run[k - 1], ports, acts[k - 1].index);
      }
    }
  }

  /** Conservation: however consumers race, forward, give up and cancel, what was sent to a port is
      what its consumers were handed, in order and once each, followed by what is still queued. */
  lemma ItemsConserved(run: seq<Net>, acts: seq<Action>, ports: nat, k: nat, p: nat)
    requires IsTrace(run, acts, ports) && k <= |acts| && p < ports
    ensures |run[k].queues| == ports
    ensures SentTo(acts, k, p) == HandedFrom(run, acts, k, p) + run[k].queues[p]
  {
    TraceInv(run, acts, ports, k);
    TraceTells(run, acts, ports, k, p);
    assert ConservedAt(run[k], p);
  }
}
