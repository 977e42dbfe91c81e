/** Tasks that wait at resolution points: receives from message queues, wrapped by `forward` and
    combined by `race`, `first` and `attempt`, to any depth. */
module RaceModel {

  type Value = nat

  /** What a completed task gives its consumer: an item from a port's queue, or nothing that came
      from a queue (an event won, or `attempt` was cancelled). */
  datatype Result = Item(port: nat, value: Value) | NoItem

  /** A suspended or completed task. A receive is blocked on its port's event or parked at its
      resolution point (`resolving_`). A combinator is parked at the resolution point at the top of
      its loop, or is waiting for one of its arguments. A `forward` wrapper is parked exactly when
      the task it forwards is. */
  datatype Task =
    | Receive(port: nat, parked: bool)
    | Forward(inner: Task)
    | Race(args: seq<Task>, parked: bool)
    | Attempt(body: Task, cancels: seq<Task>, parked: bool)
    | Signal(fired: bool)
    | Done(result: Result)

  type Queues = seq<seq<Value>>

  datatype Outcome = Outcome(task: Task, queues: Queues, completed: bool)
  datatype ArgsOutcome = ArgsOutcome(args: seq<Task>, queues: Queues, winner: int)

  /** Every receive names an existing port. */
  predicate InRange(t: Task, n: nat) {
    match t
    case Receive(p, _) => p < n
    case Forward(i) => InRange(i, n)
    case Race(args, _) => AllInRange(args, n)
    case Attempt(b, cs, _) => InRange(b, n) && AllInRange(cs, n)
    case Signal(_) => true
    case Done(_) => true
  }

  predicate AllInRange(ts: seq<Task>, n: nat) {
    ts == [] || (InRange(ts[0], n) && AllInRange(ts[1..], n))
  }

  /** `t.resolve()`: drive the task past its resolution point, if it is at one, and report whether
      it completed. Code between resolution points runs to its next suspension. */
  function Resolve(t: Task, qs: Queues): (o: Outcome)
    requires InRange(t, |qs|)
    ensures |o.queues| == |qs| && InRange(o.task, |qs|)
    ensures o.completed <==> o.task.Done? || o.task == Signal(true)
    decreases t, 1
  {
    match t
    case Done(_) => Outcome(t, qs, true)
    case Signal(fired) => Outcome(t, qs, fired)
    case Receive(p, parked) =>
      if !parked then Outcome(t, qs, false)
      else if qs[p] == [] then Outcome(Receive(p, false), qs, false)
      else Outcome(Done(Item(p, qs[p][0])), qs[p := qs[p][1..]], true)
    case Forward(inner) =>
      var o := Resolve(inner, qs);
      if o.completed then Outcome(Done(ResultOf(o.task)), o.queues, true)
      else Outcome(Forward(o.task), o.queues, false)
    case Race(args, parked) =>
      if !parked then Outcome(t, qs, false)
      else
        var r := FindResolved(args, qs);
        if r.winner < |args| then Outcome(Done(ResultOf(r.args[r.winner])), r.queues, true)
        else Outcome(Race(r.args, false), r.queues, false)
    case Attempt(body, cancels, parked) =>
      if !parked then Outcome(t, qs, false)
      else
        var o := Resolve(body, qs);
        if o.completed then Outcome(Done(ResultOf(o.task)), o.queues, true)
        else
          var r := FindResolved(cancels, o.queues);
          if r.winner < |cancels| then Outcome(Done(NoItem), r.queues, true)
          else Outcome(Attempt(o.task, r.args, false), r.queues, false)
  }

  /** `find_resolved`: resolve the arguments in order until one completes. */
  function FindResolved(args: seq<Task>, qs: Queues): (r: ArgsOutcome)
    requires AllInRange(args, |qs|)
    ensures |r.queues| == |qs| && |r.args| == |args| && AllInRange(r.args, |qs|)
    ensures 0 <= r.winner <= |args|
    ensures r.winner < |args| ==> r.args[r.winner].Done? || r.args[r.winner] == Signal(true)
    decreases args, 0
  {
    if args == [] then ArgsOutcome([], qs, 0)
    else
      var o := Resolve(args[0], qs);
      if o.completed then ArgsOutcome([o.task] + args[1..], o.queues, 0)
      else
        var r := FindResolved(args[1..], o.queues);
        ArgsOutcome([o.task] + r.args, r.queues, r.winner + 1)
  }

  function ResultOf(t: Task): Result
  {
    if t.Done? then t.result else NoItem
  }

  /** Nothing inside has completed: no item is held anywhere in the tree. */
  predicate Unfinished(t: Task) {
    match t
    case Receive(_, _) => true
    case Forward(i) => Unfinished(i)
    case Race(args, _) => AllUnfinished(args)
    case Attempt(b, cs, _) => Unfinished(b) && AllUnfinished(cs)
    case Signal(_) => true
    case Done(_) => false
  }

  predicate AllUnfinished(ts: seq<Task>) {
    ts == [] || (Unfinished(ts[0]) && AllUnfinished(ts[1..]))
  }

  /** Whether the task can take an item from a queue. */
  predicate Receives(t: Task) {
    match t
    case Receive(_, _) => true
    case Forward(i) => Receives(i)
    case Race(args, _) => AnyReceives(args)
    case Attempt(b, cs, _) => Receives(b) || AnyReceives(cs)
    case Signal(_) => false
    case Done(_) => false
  }

  predicate AnyReceives(ts: seq<Task>) {
    ts != [] && (Receives(ts[0]) || AnyReceives(ts[1..]))
  }

  /** As documented, `attempt` is cancelled by events, not by tasks that receive. */
  predicate CancelledByEvents(t: Task) {
    match t
    case Forward(i) => CancelledByEvents(i)
    case Race(args, _) => AllCancelledByEvents(args)
    case Attempt(b, cs, _) => CancelledByEvents(b) && !AnyReceives(cs) && AllCancelledByEvents(cs)
    case _ => true
  }

  predicate AllCancelledByEvents(ts: seq<Task>) {
    ts == [] || (CancelledByEvents(ts[0]) && AllCancelledByEvents(ts[1..]))
  }

  // Consumption

  /** Resolving from `qs` to `qs'` with outcome `result` took exactly the item it returns, from the
      head of its queue, or took nothing and returns none. */
  ghost predicate ConsumesWhatItReturns(qs: Queues, qs': Queues, completed: bool, result: Result) {
    if completed && result.Item? then
      && result.port < |qs| && qs[result.port] != [] && result.value == qs[result.port][0]
      && qs' == qs[result.port := qs[result.port][1..]]
    else qs' == qs
  }

  lemma {:induction false} NonReceiverKeepsQueues(t: Task, qs: Queues)
    requires InRange(t, |qs|) && !Receives(t) && Unfinished(t)
    ensures Resolve(t, qs).queues == qs
    ensures !Receives(Resolve(t, qs).task)
    ensures Resolve(t, qs).completed ==> ResultOf(Resolve(t, qs).task) == NoItem
    decreases t, 1
  {
    match t
    case Forward(i) => NonReceiverKeepsQueues(i, qs);
    case Race(args, parked) =>
      if parked {
        NonReceiversKeepQueues(args, qs);
      }
    case Attempt(b, cs, parked) =>
      if parked {
        NonReceiverKeepsQueues(b, qs);
        NonReceiversKeepQueues(cs, qs);
      }
    case Receive(_, _) =>
    case Signal(_) =>
  }

  lemma {:induction false} NonReceiversKeepQueues(ts: seq<Task>, qs: Queues)
    requires AllInRange(ts, |qs|) && !AnyReceives(ts) && AllUnfinished(ts)
    ensures FindResolved(ts, qs).queues == qs
    ensures !AnyReceives(FindResolved(ts, qs).args)
    ensures var r := FindResolved(ts, qs); r.winner < |ts| ==> ResultOf(r.args[r.winner]) == NoItem
    decreases ts, 0
  {
    if ts != [] {
      NonReceiverKeepsQueues(ts[0], qs);
      var o := Resolve(ts[0], qs);
      if !o.completed {
        NonReceiversKeepQueues(ts[1..], qs);
        assert ([o.task] + FindResolved(ts[1..], qs).args)[1..] == FindResolved(ts[1..], qs).args;
      } else {
        assert ([o.task] + ts[1..])[1..] == ts[1..];
      }
    }
  }

  /** Race consumption: resolving any nesting completes with the head of a queue and removes exactly
      that item, or leaves every queue unchanged; what has not completed still holds nothing. */
  lemma {:induction false} RaceConsumption(t: Task, qs: Queues)
    requires InRange(t, |qs|) && Unfinished(t) && CancelledByEvents(t)
    ensures var o := Resolve(t, qs);
            && ConsumesWhatItReturns(qs, o.queues, o.completed, ResultOf(o.task))
            && (!o.completed ==> Unfinished(o.task) && CancelledByEvents(o.task))
    decreases t, 1
  {
    match t
    case Forward(i) => RaceConsumption(i, qs);
    case Race(args, parked) =>
      if parked {
        ArgsConsumption(args, qs);
      }
    case Attempt(b, cs, parked) =>
      if parked {
        RaceConsumption(b, qs);
        if !Resolve(b, qs).completed {
          NonReceiversKeepQueues(cs, qs);
          ArgsConsumption(cs, qs);
        }
      }
    case Receive(_, _) =>
    case Signal(_) =>
  }

  lemma {:induction false} ArgsConsumption(ts: seq<Task>, qs: Queues)
    requires AllInRange(ts, |qs|) && AllUnfinished(ts) && AllCancelledByEvents(ts)
    ensures var r := FindResolved(ts, qs);
            && ConsumesWhatItReturns(qs, r.queues, r.winner < |ts|,
                                     if r.winner < |ts| then ResultOf(r.args[r.winner]) else NoItem)
            && (r.winner == |ts| ==> AllUnfinished(r.args) && AllCancelledByEvents(r.args))
    decreases ts, 0
  {
    if ts != [] {
      RaceConsumption(ts[0], qs);
      var o := Resolve(ts[0], qs);
      if !o.completed {
        assert o.queues == qs;
        ArgsConsumption(ts[1..], qs);
        var r := FindResolved(ts[1..], qs);
        assert ([o.task] + r.args)[1..] == r.args;
      }
    }
  }

  /** `after` has unfinished tasks before the winner, and after it what `before` had. */
  ghost predicate OneWinner(before: seq<Task>, after: seq<Task>, winner: int, i: nat)
    requires i < |before| == |after|
  {
    (i < winner ==> Unfinished(after[i])) && (i > winner ==> after[i] == before[i])
  }

  lemma WinnerFirst(t: Task, rest: seq<Task>, o: Task, i: nat)
    requires i <= |rest|
    ensures OneWinner([t] + rest, [o] + rest, 0, i)
  {
  }

  lemma WinnerLater(t: Task, rest: seq<Task>, o: Task, rest': seq<Task>, winner: int, i: nat)
    requires i <= |rest| == |rest'| && Unfinished(o) && 0 <= winner
    requires i > 0 ==> OneWinner(rest, rest', winner, i - 1)
    ensures OneWinner([t] + rest, [o] + rest', winner + 1, i)
  {
    assert i > 0 ==> ([t] + rest)[i] == rest[i - 1] && ([o] + rest')[i] == rest'[i - 1];
  }

  /** At most one contender completes: those before the winner have not, and those after it have not
      been touched. */
  lemma {:induction false} OnlyWinnerCompletes(ts: seq<Task>, qs: Queues, i: nat)
    requires AllInRange(ts, |qs|) && AllUnfinished(ts) && AllCancelledByEvents(ts) && i < |ts|
    ensures var r := FindResolved(ts, qs); OneWinner(ts, r.args, r.winner, i)
    decreases |ts|
  {
    var t, rest, o := ts[0], ts[1..], Resolve(ts[0], qs);
    assert ts == [t] + rest;
    FirstOf(ts, qs);
    if o.completed {
      WinnerFirst(t, rest, o.task, i);
    } else {
      FirstKeeps(t, qs);
      if i > 0 {
        OnlyWinnerCompletes(rest, qs, i - 1);
      }
      var q := FindResolved(rest, qs);
      WinnerLater(t, rest, o.task, q.args, q.winner, i);
    }
  }

  lemma FirstOf(ts: seq<Task>, qs: Queues)
    requires AllInRange(ts, |qs|) && ts != []
    ensures var o, r := Resolve(ts[0], qs), FindResolved(ts, qs);
            if o.completed then r == ArgsOutcome([o.task] + ts[1..], o.queues, 0)
            else var q := FindResolved(ts[1..], o.queues); r == ArgsOutcome([o.task] + q.args, q.queues, q.winner + 1)
  {
  }

  lemma FirstKeeps(t: Task, qs: Queues)
    requires InRange(t, |qs|) && Unfinished(t) && CancelledByEvents(t) && !Resolve(t, qs).completed
    ensures Resolve(t, qs).queues == qs && Unfinished(Resolve(t, qs).task)
  {
    RaceConsumption(t, qs);
  }

  // The condition on `attempt` is exact

  /** Equal but for what is parked and which events have fired. */
  ghost predicate SameShape(t: Task, u: Task)
    decreases t, 1
  {
    match t
    case Receive(p, _) => u.Receive? && u.port == p
    case Forward(i) => u.Forward? && SameShape(i, u.inner)
    case Race(args, _) => u.Race? && SameShapes(args, u.args)
    case Attempt(b, cs, _) => u.Attempt? && SameShape(b, u.body) && SameShapes(cs, u.cancels)
    case Signal(_) => u.Signal?
    case Done(r) => u == t
  }

  ghost predicate SameShapes(ts: seq<Task>, us: seq<Task>)
    decreases ts, 0
  {
    |ts| == |us| && (ts == [] || (SameShape(ts[0], us[0]) && SameShapes(ts[1..], us[1..])))
  }

  /** Nothing is parked and no event has fired. */
  function Quiet(t: Task): Task
    decreases t, 1
  {
    match t
    case Receive(p, _) => Receive(p, false)
    case Forward(i) => Forward(Quiet(i))
    case Race(args, _) => Race(QuietAll(args), false)
    case Attempt(b, cs, _) => Attempt(Quiet(b), QuietAll(cs), false)
    case Signal(_) => Signal(false)
    case Done(_) => t
  }

  function QuietAll(ts: seq<Task>): seq<Task>
    decreases ts, 0
  {
    if ts == [] then [] else [Quiet(ts[0])] + QuietAll(ts[1..])
  }

  lemma {:induction false} QuietStays(t: Task, qs: Queues)
    requires Unfinished(t) && InRange(t, |qs|)
    ensures SameShape(t, Quiet(t)) && Unfinished(Quiet(t)) && InRange(Quiet(t), |qs|)
    ensures Resolve(Quiet(t), qs).queues == qs && !Resolve(Quiet(t), qs).completed
    decreases t, 1
  {
    match t
    case Forward(i) => QuietStays(i, qs);
    case Race(args, _) => QuietAllStay(args, qs);
    case Attempt(b, cs, _) =>
      QuietStays(b, qs);
      QuietAllStay(cs, qs);
    case Receive(_, _) =>
    case Signal(_) =>
  }

  lemma {:induction false} QuietAllStay(ts: seq<Task>, qs: Queues)
    requires AllUnfinished(ts) && AllInRange(ts, |qs|)
    ensures SameShapes(ts, QuietAll(ts)) && AllUnfinished(QuietAll(ts)) && AllInRange(QuietAll(ts), |qs|)
    ensures FindResolved(QuietAll(ts), qs).queues == qs && FindResolved(QuietAll(ts), qs).winner == |ts|
    decreases ts, 0
  {
    if ts != [] {
      QuietStays(ts[0], qs);
      QuietAllStay(ts[1..], qs);
      assert QuietAll(ts)[1..] == QuietAll(ts[1..]);
    }
  }

  /** The same task with exactly the way to its first receive parked. */
  function Expose(t: Task): Task
    requires Receives(t)
    decreases t, 1
  {
    match t
    case Receive(p, _) => Receive(p, true)
    case Forward(i) => Forward(Expose(i))
    case Race(args, _) => Race(ExposeFirst(args), true)
    case Attempt(b, cs, _) =>
      if Receives(b) then Attempt(Expose(b), QuietAll(cs), true)
      else Attempt(Quiet(b), ExposeFirst(cs), true)
  }

  function ExposeFirst(ts: seq<Task>): seq<Task>
    requires AnyReceives(ts)
    decreases ts, 0
  {
    if Receives(ts[0]) then [Expose(ts[0])] + QuietAll(ts[1..]) else [Quiet(ts[0])] + ExposeFirst(ts[1..])
  }

  ghost predicate AllNonempty(qs: Queues) { forall p :: 0 <= p < |qs| ==> qs[p] != [] }

  lemma {:induction false} ExposeTakes(t: Task, qs: Queues)
    requires Receives(t) && Unfinished(t) && InRange(t, |qs|) && AllNonempty(qs)
    ensures SameShape(t, Expose(t)) && Unfinished(Expose(t)) && InRange(Expose(t), |qs|)
    ensures Resolve(Expose(t), qs).completed && Resolve(Expose(t), qs).queues != qs
    decreases t, 1
  {
    match t
    case Receive(p, _) =>
      var o := Resolve(Expose(t), qs);
      assert |o.queues[p]| == |qs[p]| - 1;
    case Forward(i) => ExposeTakes(i, qs);
    case Race(args, _) => ExposeFirstTakes(args, qs);
    case Attempt(b, cs, _) =>
      if Receives(b) {
        ExposeTakes(b, qs);
        QuietAllStay(cs, qs);
      } else {
        QuietStays(b, qs);
        ExposeFirstTakes(cs, qs);
      }
  }

  lemma {:induction false} ExposeFirstTakes(ts: seq<Task>, qs: Queues)
    requires AnyReceives(ts) && AllUnfinished(ts) && AllInRange(ts, |qs|) && AllNonempty(qs)
    ensures SameShapes(ts, ExposeFirst(ts)) && AllUnfinished(ExposeFirst(ts)) && AllInRange(ExposeFirst(ts), |qs|)
    ensures FindResolved(ExposeFirst(ts), qs).winner < |ts| && FindResolved(ExposeFirst(ts), qs).queues != qs
    decreases ts, 0
  {
    if Receives(ts[0]) {
      ExposeTakes(ts[0], qs);
      QuietAllStay(ts[1..], qs);
      assert ExposeFirst(ts)[1..] == QuietAll(ts[1..]);
    } else {
      QuietStays(ts[0], qs);
      ExposeFirstTakes(ts[1..], qs);
      assert ExposeFirst(ts)[1..] == ExposeFirst(ts[1..]);
    }
  }

  /** A task whose `attempt` has a receiving canceller receives. */
  lemma {:induction false} OffenderReceives(t: Task)
    requires !CancelledByEvents(t)
    ensures Receives(t)
    decreases t, 1
  {
    match t
    case Forward(i) => OffenderReceives(i);
    case Race(args, _) => OffendersReceive(args);
    case Attempt(b, cs, _) =>
      if !CancelledByEvents(b) {
        OffenderReceives(b);
      } else if !AnyReceives(cs) {
        OffendersReceive(cs);
      }
  }

  lemma {:induction false} OffendersReceive(ts: seq<Task>)
    requires !AllCancelledByEvents(ts)
    ensures AnyReceives(ts)
    decreases ts, 0
  {
    if !CancelledByEvents(ts[0]) {
      OffenderReceives(ts[0]);
    } else {
      OffendersReceive(ts[1..]);
    }
  }

  /** A state of the same shape in which a canceller takes an item that nobody gets. */
  lemma {:induction false} ReceivingCancellerLoses(t: Task, qs: Queues) returns (u: Task)
    requires !CancelledByEvents(t) && Unfinished(t) && InRange(t, |qs|) && AllNonempty(qs)
    ensures SameShape(t, u) && Unfinished(u) && InRange(u, |qs|)
    ensures var o := Resolve(u, qs); o.completed && o.task == Done(NoItem) && o.queues != qs
    decreases t, 1
  {
    match t
    case Forward(i) =>
      var v := ReceivingCancellerLoses(i, qs);
      u := Forward(v);
    case Race(args, _) =>
      var us := ReceivingArgLoses(args, qs);
      u := Race(us, true);
    case Attempt(b, cs, _) =>
      if !CancelledByEvents(b) {
        var v := ReceivingCancellerLoses(b, qs);
        QuietAllStay(cs, qs);
        u := Attempt(v, QuietAll(cs), true);
      } else {
        if !AnyReceives(cs) {
          OffendersReceive(cs);
        }
        QuietStays(b, qs);
        ExposeFirstTakes(cs, qs);
        u := Attempt(Quiet(b), ExposeFirst(cs), true);
      }
  }

  lemma {:induction false} ReceivingArgLoses(ts: seq<Task>, qs: Queues) returns (us: seq<Task>)
    requires !AllCancelledByEvents(ts) && AllUnfinished(ts) && AllInRange(ts, |qs|) && AllNonempty(qs)
    ensures SameShapes(ts, us) && AllUnfinished(us) && AllInRange(us, |qs|)
    ensures var r := FindResolved(us, qs);
            r.winner < |us| && ResultOf(r.args[r.winner]) == NoItem && r.queues != qs
    decreases ts, 0
  {
    if !CancelledByEvents(ts[0]) {
      var v := ReceivingCancellerLoses(ts[0], qs);
      QuietAllStay(ts[1..], qs);
      us := [v] + QuietAll(ts[1..]);
      assert us[1..] == QuietAll(ts[1..]);
    } else {
      QuietStays(ts[0], qs);
      var vs := ReceivingArgLoses(ts[1..], qs);
      us := [Quiet(ts[0])] + vs;
      assert us[1..] == vs;
    }
  }

  /** In every state of this shape, resolving consumes what it returns. */
  ghost predicate AlwaysConservative(t: Task, n: nat) {
    forall u: Task, qs: Queues | |qs| == n && SameShape(t, u) && Unfinished(u) && InRange(u, n) ::
      ConsumesWhatItReturns(qs, Resolve(u, qs).queues, Resolve(u, qs).completed, ResultOf(Resolve(u, qs).task))
  }

  lemma {:induction false} ShapeKeepsCancellers(t: Task, u: Task)
    requires SameShape(t, u)
    ensures CancelledByEvents(t) == CancelledByEvents(u) && Receives(t) == Receives(u)
    decreases t, 1
  {
    match t
    case Forward(i) => ShapeKeepsCancellers(i, u.inner);
    case Race(args, _) => ShapesKeepCancellers(args, u.args);
    case Attempt(b, cs, _) =>
      ShapeKeepsCancellers(b, u.body);
      ShapesKeepCancellers(cs, u.cancels);
    case Receive(_, _) =>
    case Signal(_) =>
    case Done(_) =>
  }

  lemma {:induction false} ShapesKeepCancellers(ts: seq<Task>, us: seq<Task>)
    requires SameShapes(ts, us)
    ensures AllCancelledByEvents(ts) == AllCancelledByEvents(us) && AnyReceives(ts) == AnyReceives(us)
    decreases ts, 0
  {
    if ts != [] {
      ShapeKeepsCancellers(ts[0], us[0]);
      ShapesKeepCancellers(ts[1..], us[1..]);
    }
  }

  /** No item is ever lost to a race exactly when every `attempt` is cancelled by events only. */
  lemma ConservativeExactly(t: Task, n: nat)
    requires Unfinished(t) && InRange(t, n)
    ensures AlwaysConservative(t, n) <==> CancelledByEvents(t)
  {
    if CancelledByEvents(t) {
      forall u: Task, qs: Queues | |qs| == n && SameShape(t, u) && Unfinished(u) && InRange(u, n)
        ensures ConsumesWhatItReturns(qs, Resolve(u, qs).queues, Resolve(u, qs).completed,
                  ResultOf(Resolve(u, qs).task))
      {
        ShapeKeepsCancellers(t, u);
        RaceConsumption(u, qs);
      }
    } else {
      var qs := seq(n, i => [0]);
      var u := ReceivingCancellerLoses(t, qs);
      assert !ConsumesWhatItReturns(qs, Resolve(u, qs).queues, Resolve(u, qs).completed, ResultOf(Resolve(u, qs).task));
    }
  }
}
