/** What resolution does, said without saying how: when a task can complete, with what, and what is left
    of one that cannot. */
module RaceMeaning {
  import opened RaceModel

  /** A task completes now if it is done, its event has fired, it is at its resolution point and its queue
      holds an item, or it is at its resolution point and some argument completes. */
  ghost predicate CanComplete(t: Task, qs: Queues)
    decreases t
  {
    match t
    case Done(_) => true
    case Signal(fired) => fired
    case Receive(p, parked) => parked && p < |qs| && qs[p] != []
    case Forward(i) => CanComplete(i, qs)
    case Race(args, parked) => parked && exists k | 0 <= k < |args| :: CanComplete(args[k], qs)
    case Attempt(b, cs, parked) =>
      parked && (CanComplete(b, qs) || exists k | 0 <= k < |cs| :: CanComplete(cs[k], qs))
  }

  /** Argument `w` is the first that can complete. */
  ghost predicate FirstAt(ts: seq<Task>, qs: Queues, w: int) {
    0 <= w < |ts| && CanComplete(ts[w], qs) && forall k | 0 <= k < w :: !CanComplete(ts[k], qs)
  }

  /** Its result: the head of the queue, or what its first completing argument gives; an `attempt` whose
      body does not complete gives nothing. */
  ghost predicate Answers(t: Task, qs: Queues, r: Result)
    decreases t
  {
    match t
    case Done(x) => r == x
    case Signal(_) => r == NoItem
    case Receive(p, _) => p < |qs| && qs[p] != [] && r == Item(p, qs[p][0])
    case Forward(i) => Answers(i, qs, r)
    case Race(args, _) => exists w | 0 <= w < |args| :: FirstAt(args, qs, w) && Answers(args[w], qs, r)
    case Attempt(b, _, _) => if CanComplete(b, qs) then Answers(b, qs, r) else r == NoItem
  }

  /** What is left of a task that was tried and could not complete: whatever was at its resolution point
      waits again. */
  ghost predicate Blocked(t: Task, u: Task)
    decreases t
  {
    match t
    case Done(_) => false
    case Signal(_) => u == t
    case Receive(p, _) => u == Receive(p, false)
    case Forward(i) => u.Forward? && Blocked(i, u.inner)
    case Race(args, parked) =>
      && u.Race? && !u.parked && |u.args| == |args|
      && forall k | 0 <= k < |args| :: if parked then Blocked(args[k], u.args[k]) else u.args[k] == args[k]
    case Attempt(b, cs, parked) =>
      && u.Attempt? && !u.parked && |u.cancels| == |cs|
      && (if parked then Blocked(b, u.body) else u.body == b)
      && forall k | 0 <= k < |cs| :: if parked then Blocked(cs[k], u.cancels[k]) else u.cancels[k] == cs[k]
  }

  ghost predicate Means(t: Task, qs: Queues, o: Outcome) {
    && (o.completed <==> CanComplete(t, qs))
    && (o.completed ==> Answers(t, qs, ResultOf(o.task)))
    && (!o.completed ==> o.queues == qs && Blocked(t, o.task))
  }

  ghost predicate ArgsMean(ts: seq<Task>, qs: Queues, r: ArgsOutcome) {
    && |r.args| == |ts| && 0 <= r.winner <= |ts|
    && (r.winner < |ts| ==> FirstAt(ts, qs, r.winner) && Answers(ts[r.winner], qs, ResultOf(r.args[r.winner])))
    && (r.winner == |ts| ==>
          r.queues == qs && forall k | 0 <= k < |ts| :: !CanComplete(ts[k], qs) && Blocked(ts[k], r.args[k]))
  }

  /** Resolution does just that. */
  lemma {:induction false} ResolveMeans(t: Task, qs: Queues)
    requires InRange(t, |qs|)
    ensures Means(t, qs, Resolve(t, qs))
    decreases t, 1
  {
    match t
    case Forward(i) => ResolveMeans(i, qs);
    case Race(args, parked) =>
      if parked {
        FindMeans(args, qs);
      }
    case Attempt(b, cs, parked) =>
      if parked {
        ResolveMeans(b, qs);
        if !Resolve(b, qs).completed {
          FindMeans(cs, qs);
        }
      }
    case Receive(_, _) =>
    case Signal(_) =>
    case Done(_) =>
  }

  /** Arguments are tried in order, up to the first that completes. */
  lemma {:induction false} FindMeans(ts: seq<Task>, qs: Queues)
    requires AllInRange(ts, |qs|)
    ensures ArgsMean(ts, qs, FindResolved(ts, qs))
    decreases ts, 0
  {
    if ts != [] {
      ResolveMeans(ts[0], qs);
      FindMeans(ts[1..], qs);
      FindOf(ts, qs);
      LaterMeans(ts, qs, Resolve(ts[0], qs), FindResolved(ts[1..], qs), FindResolved(ts, qs));
    }
  }

  lemma FindOf(ts: seq<Task>, qs: Queues)
    requires AllInRange(ts, |qs|) && ts != []
    ensures var o, r := Resolve(ts[0], qs), FindResolved(ts, qs);
            if o.completed then r == ArgsOutcome([o.task] + ts[1..], o.queues, 0)
            else var q := FindResolved(ts[1..], o.queues); r == ArgsOutcome([o.task] + q.args, q.queues, q.winner + 1)
  {
  }

  lemma LaterMeans(ts: seq<Task>, qs: Queues, o: Outcome, q: ArgsOutcome, r: ArgsOutcome)
    requires ts != [] && Means(ts[0], qs, o) && ArgsMean(ts[1..], qs, q)
    requires if o.completed then r == ArgsOutcome([o.task] + ts[1..], o.queues, 0)
             else r == ArgsOutcome([o.task] + q.args, q.queues, q.winner + 1)
    ensures ArgsMean(ts, qs, r)
  {
    if !o.completed {
      forall k | 0 < k < |ts| ensures ts[k] == ts[1..][k - 1] && r.args[k] == q.args[k - 1] {}
    }
  }
}
