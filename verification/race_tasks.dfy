/** Tasks as promises with flags: `resolve` and the combinators' coroutine bodies run in place on an
    arena of promises, and do what resolution of the task tree says. */
module RaceTasks {
  import opened Basics
  import opened RaceModel

  /** What a promise's coroutine is: a guarded receive, a task that awaits a forwarded one, a `race` or
      `first`, an `attempt`; or, among arguments, an event. Arguments are indexes of promises. */
  datatype Kind =
    | Receiving(port: nat)
    | Forwarding(child: nat)
    | Racing(args: seq<nat>)
    | Attempting(body: nat, cancels: seq<nat>)
    | Event

  /** `resolving_`, the result once done, and for events whether they have triggered. */
  datatype Flags = Flags(resolving: seq<bool>, result: seq<Option<Result>>, fired: seq<bool>)

  // Layout: the promises below a promise are the interval of indexes before it

  ghost predicate ArgsLaid(lo: seq<nat>, args: seq<nat>, from: nat, to: nat) {
    if args == [] then from == to
    else from <= args[0] < to && args[0] < |lo| && lo[args[0]] == from && ArgsLaid(lo, args[1..], args[0] + 1, to)
  }

  ghost predicate LaidAt(kinds: seq<Kind>, lo: seq<nat>, i: nat)
    requires i < |kinds| == |lo|
  {
    && lo[i] <= i
    && match kinds[i]
       case Receiving(_) => lo[i] == i
       case Event => lo[i] == i
       case Forwarding(c) => c + 1 == i && lo[i] == lo[c]
       case Racing(args) => ArgsLaid(lo, args, lo[i], i)
       case Attempting(b, cs) => b < i && lo[b] == lo[i] && lo[i] <= b && ArgsLaid(lo, cs, b + 1, i)
  }

  ghost predicate Laid(kinds: seq<Kind>, lo: seq<nat>) {
    |lo| == |kinds| && forall i: nat | i < |kinds| :: LaidAt(kinds, lo, i)
  }

  ghost predicate Sized(kinds: seq<Kind>, f: Flags) { |f.resolving| == |f.result| == |f.fired| == |kinds| }

  ghost predicate AllBelow(args: seq<nat>, n: nat) { forall k | 0 <= k < |args| :: args[k] < n }

  lemma {:induction false} ArgsBelow(lo: seq<nat>, args: seq<nat>, from: nat, to: nat)
    requires ArgsLaid(lo, args, from, to)
    ensures AllBelow(args, to) && from <= to
  {
    if args != [] {
      ArgsBelow(lo, args[1..], args[0] + 1, to);
      forall k | 0 <= k < |args| ensures args[k] < to {
        assert k > 0 ==> args[k] == args[1..][k - 1];
      }
    }
  }

  // The tree a promise stands for

  ghost function TreeOf(kinds: seq<Kind>, lo: seq<nat>, f: Flags, i: nat): Task
    requires Laid(kinds, lo) && Sized(kinds, f) && i < |kinds|
    decreases i, 1, 0
  {
    assert LaidAt(kinds, lo, i);
    if f.result[i].Some? then Done(f.result[i].value)
    else
      match kinds[i]
      case Receiving(p) => Receive(p, f.resolving[i])
      case Event => Signal(f.fired[i])
      case Forwarding(c) => Forward(TreeOf(kinds, lo, f, c))
      case Racing(args) =>
        ArgsBelow(lo, args, lo[i], i);
        Race(Trees(kinds, lo, f, args, i), f.resolving[i])
      case Attempting(b, cs) =>
        ArgsBelow(lo, cs, b + 1, i);
        Attempt(TreeOf(kinds, lo, f, b), Trees(kinds, lo, f, cs, i), f.resolving[i])
  }

  ghost function Trees(kinds: seq<Kind>, lo: seq<nat>, f: Flags, args: seq<nat>, n: nat): (ts: seq<Task>)
    requires Laid(kinds, lo) && Sized(kinds, f) && AllBelow(args, n) && n <= |kinds|
    ensures |ts| == |args|
    decreases n, 0, |args|
  {
    if args == [] then []
    else
      assert AllBelow(args[1..], n) by { assert forall k | 0 <= k < |args| - 1 :: args[1..][k] == args[k + 1]; }
      [TreeOf(kinds, lo, f, args[0])] + Trees(kinds, lo, f, args[1..], n)
  }

  ghost predicate AgreeOn(f: Flags, g: Flags, from: nat, to: nat) {
    && |f.resolving| == |f.result| == |f.fired| == |g.resolving| == |g.result| == |g.fired|
    && forall k | from <= k < to && k < |f.result| ::
      f.resolving[k] == g.resolving[k] && f.result[k] == g.result[k] && f.fired[k] == g.fired[k]
  }

  /** Nothing outside the promises of `i` changed. */
  ghost predicate AgreeOff(f: Flags, g: Flags, from: nat, to: nat) {
    && |f.resolving| == |f.result| == |f.fired| == |g.resolving| == |g.result| == |g.fired|
    && f.fired == g.fired
    && forall k | 0 <= k < |f.result| && !(from <= k < to) ::
      f.resolving[k] == g.resolving[k] && f.result[k] == g.result[k]
  }

  lemma {:induction false} TreeSame(kinds: seq<Kind>, lo: seq<nat>, f: Flags, g: Flags, i: nat)
    requires Laid(kinds, lo) && Sized(kinds, f) && i < |kinds| && AgreeOn(f, g, lo[i], i + 1)
    ensures TreeOf(kinds, lo, f, i) == TreeOf(kinds, lo, g, i)
    decreases i, 1, 0
  {
    assert LaidAt(kinds, lo, i);
    if f.result[i].None? {
      match kinds[i]
      case Receiving(_) =>
      case Event =>
      case Forwarding(c) => TreeSame(kinds, lo, f, g, c);
      case Racing(args) =>
        ArgsBelow(lo, args, lo[i], i);
        TreesSame(kinds, lo, f, g, args, lo[i], i);
      case Attempting(b, cs) =>
        ArgsBelow(lo, cs, b + 1, i);
        TreeSame(kinds, lo, f, g, b);
        TreesSame(kinds, lo, f, g, cs, b + 1, i);
    }
  }

  lemma {:induction false} TreesSame(
    kinds: seq<Kind>, lo: seq<nat>, f: Flags, g: Flags, args: seq<nat>, from: nat, n: nat)
    requires Laid(kinds, lo) && Sized(kinds, f) && n <= |kinds| && AllBelow(args, n) && ArgsLaid(lo, args, from, n)
    requires AgreeOn(f, g, from, n)
    ensures Trees(kinds, lo, f, args, n) == Trees(kinds, lo, g, args, n)
    decreases n, 0, |args|
  {
    if args != [] {
      TreeSame(kinds, lo, f, g, args[0]);
      ArgsBelow(lo, args[1..], args[0] + 1, n);
      TreesSame(kinds, lo, f, g, args[1..], args[0] + 1, n);
    }
  }

  // Parked tasks

  /** At a resolution point, or complete. */
  predicate Parked(t: Task) {
    match t
    case Receive(_, p) => p
    case Forward(i) => Parked(i)
    case Race(_, p) => p
    case Attempt(_, _, p) => p
    case Signal(fired) => fired
    case Done(_) => true
  }

  lemma {:induction false} UnparkedStays(t: Task, qs: Queues)
    requires InRange(t, |qs|) && !Parked(t)
    ensures Resolve(t, qs) == Outcome(t, qs, false)
  {
    if t.Forward? {
      UnparkedStays(t.inner, qs);
    }
  }

  lemma {:induction false} ResolvedUnparks(t: Task, qs: Queues)
    requires InRange(t, |qs|) && !Resolve(t, qs).completed
    ensures !Parked(Resolve(t, qs).task)
  {
    if t.Forward? {
      ResolvedUnparks(t.inner, qs);
    }
  }

  /** A task that awaits a forwarded one is flagged exactly when that one is parked. */
  ghost predicate Linked(kinds: seq<Kind>, lo: seq<nat>, f: Flags, i: nat)
    requires Laid(kinds, lo) && Sized(kinds, f) && i < |kinds|
    decreases i, 1, 0
  {
    assert LaidAt(kinds, lo, i);
    if f.result[i].Some? then !kinds[i].Event?
    else
      match kinds[i]
      case Receiving(_) => true
      case Event => true
      case Forwarding(c) => (f.resolving[i] <==> Parked(TreeOf(kinds, lo, f, c))) && Linked(kinds, lo, f, c)
      case Racing(args) =>
        ArgsBelow(lo, args, lo[i], i);
        AllLinked(kinds, lo, f, args, i)
      case Attempting(b, cs) =>
        ArgsBelow(lo, cs, b + 1, i);
        Linked(kinds, lo, f, b) && AllLinked(kinds, lo, f, cs, i)
  }

  ghost predicate AllLinked(kinds: seq<Kind>, lo: seq<nat>, f: Flags, args: seq<nat>, n: nat)
    requires Laid(kinds, lo) && Sized(kinds, f) && AllBelow(args, n) && n <= |kinds|
    decreases n, 0, |args|
  {
    if args == [] then true
    else
      assert AllBelow(args[1..], n) by { assert forall k | 0 <= k < |args| - 1 :: args[1..][k] == args[k + 1]; }
      Linked(kinds, lo, f, args[0]) && AllLinked(kinds, lo, f, args[1..], n)
  }

  lemma {:induction false} LinkedSame(kinds: seq<Kind>, lo: seq<nat>, f: Flags, g: Flags, i: nat)
    requires Laid(kinds, lo) && Sized(kinds, f) && i < |kinds| && AgreeOn(f, g, lo[i], i + 1)
    ensures Linked(kinds, lo, f, i) == Linked(kinds, lo, g, i)
    decreases i, 1, 0
  {
    assert LaidAt(kinds, lo, i);
    if f.result[i].None? {
      match kinds[i]
      case Receiving(_) =>
      case Event =>
      case Forwarding(c) =>
        TreeSame(kinds, lo, f, g, c);
        LinkedSame(kinds, lo, f, g, c);
      case Racing(args) =>
        ArgsBelow(lo, args, lo[i], i);
        AllLinkedSame(kinds, lo, f, g, args, lo[i], i);
      case Attempting(b, cs) =>
        ArgsBelow(lo, cs, b + 1, i);
        LinkedSame(kinds, lo, f, g, b);
        AllLinkedSame(kinds, lo, f, g, cs, b + 1, i);
    }
  }

  lemma {:induction false} AllLinkedSame(
    kinds: seq<Kind>, lo: seq<nat>, f: Flags, g: Flags, args: seq<nat>, from: nat, n: nat)
    requires Laid(kinds, lo) && Sized(kinds, f) && n <= |kinds| && AllBelow(args, n) && ArgsLaid(lo, args, from, n)
    requires AgreeOn(f, g, from, n)
    ensures AllLinked(kinds, lo, f, args, n) == AllLinked(kinds, lo, g, args, n)
    decreases n, 0, |args|
  {
    if args != [] {
      LinkedSame(kinds, lo, f, g, args[0]);
      ArgsBelow(lo, args[1..], args[0] + 1, n);
      AllLinkedSame(kinds, lo, f, g, args[1..], args[0] + 1, n);
    }
  }

  lemma {:induction false} TreesAt(kinds: seq<Kind>, lo: seq<nat>, f: Flags, args: seq<nat>, n: nat, k: nat)
    requires Laid(kinds, lo) && Sized(kinds, f) && AllBelow(args, n) && n <= |kinds| && k < |args|
    ensures Trees(kinds, lo, f, args, n)[k] == TreeOf(kinds, lo, f, args[k])
    decreases |args|
  {
    if k > 0 {
      assert AllBelow(args[1..], n) by { assert forall j | 0 <= j < |args| - 1 :: args[1..][j] == args[j + 1]; }
      TreesAt(kinds, lo, f, args[1..], n, k - 1);
    }
  }

  ghost predicate PortsOk(kinds: seq<Kind>, n: nat) {
    forall i | 0 <= i < |kinds| && kinds[i].Receiving? :: kinds[i].port < n
  }

  lemma {:induction false} TreeInRange(kinds: seq<Kind>, lo: seq<nat>, f: Flags, i: nat, n: nat)
    requires Laid(kinds, lo) && Sized(kinds, f) && i < |kinds| && PortsOk(kinds, n)
    ensures InRange(TreeOf(kinds, lo, f, i), n)
    decreases i, 1, 0
  {
    assert LaidAt(kinds, lo, i);
    if f.result[i].None? {
      match kinds[i]
      case Receiving(_) =>
      case Event =>
      case Forwarding(c) => TreeInRange(kinds, lo, f, c, n);
      case Racing(args) =>
        ArgsBelow(lo, args, lo[i], i);
        TreesInRange(kinds, lo, f, args, i, n);
      case Attempting(b, cs) =>
        ArgsBelow(lo, cs, b + 1, i);
        TreeInRange(kinds, lo, f, b, n);
        TreesInRange(kinds, lo, f, cs, i, n);
    }
  }

  lemma {:induction false} TreesInRange(kinds: seq<Kind>, lo: seq<nat>, f: Flags, args: seq<nat>, m: nat, n: nat)
    requires Laid(kinds, lo) && Sized(kinds, f) && AllBelow(args, m) && m <= |kinds| && PortsOk(kinds, n)
    ensures AllInRange(Trees(kinds, lo, f, args, m), n)
    decreases m, 0, |args|
  {
    if args != [] {
      TreeInRange(kinds, lo, f, args[0], n);
      assert AllBelow(args[1..], m) by { assert forall k | 0 <= k < |args| - 1 :: args[1..][k] == args[k + 1]; }
      TreesInRange(kinds, lo, f, args[1..], m, n);
    }
  }

  /** What a call of `resolve` on promise `i` must have done to flags and queues. */
  ghost predicate Did(kinds: seq<Kind>, lo: seq<nat>, f: Flags, qs: Queues, i: nat, g: Flags, qs': Queues, ok: bool)
    requires Laid(kinds, lo) && Sized(kinds, f) && Sized(kinds, g) && i < |kinds|
  {
    && InRange(TreeOf(kinds, lo, f, i), |qs|)
    && Outcome(TreeOf(kinds, lo, g, i), qs', ok) == Resolve(TreeOf(kinds, lo, f, i), qs)
    && AgreeOff(f, g, lo[i], i + 1) && Linked(kinds, lo, g, i)
  }

  /** The coroutine of promise `i` ran on from its resolution point. */
  ghost predicate Ran(kinds: seq<Kind>, lo: seq<nat>, f: Flags, qs: Queues, i: nat, g: Flags, qs': Queues)
    requires Laid(kinds, lo) && Sized(kinds, f) && Sized(kinds, g) && i < |kinds|
  {
    Did(kinds, lo, f, qs, i, g, qs', g.result[i].Some?) && (g.result[i].Some? || !g.resolving[i])
  }

  ghost predicate DidArgs(
    kinds: seq<Kind>, lo: seq<nat>, f: Flags, qs: Queues, args: seq<nat>, from: nat, n: nat, g: Flags, qs': Queues,
    k: nat)
    requires Laid(kinds, lo) && Sized(kinds, f) && Sized(kinds, g) && AllBelow(args, n) && n <= |kinds|
  {
    && AllInRange(Trees(kinds, lo, f, args, n), |qs|)
    && ArgsOutcome(Trees(kinds, lo, g, args, n), qs', k) == FindResolved(Trees(kinds, lo, f, args, n), qs)
    && AgreeOff(f, g, from, n) && AllLinked(kinds, lo, g, args, n)
  }

  ghost predicate AllClear(f: Flags) {
    && (forall k | 0 <= k < |f.resolving| :: !f.resolving[k])
    && (forall k | 0 <= k < |f.result| :: f.result[k].None?)
    && (forall k | 0 <= k < |f.fired| :: !f.fired[k])
  }

  lemma {:induction false} StartLinked(kinds: seq<Kind>, lo: seq<nat>, f: Flags, i: nat)
    requires Laid(kinds, lo) && Sized(kinds, f) && i < |kinds| && AllClear(f)
    ensures Linked(kinds, lo, f, i) && !Parked(TreeOf(kinds, lo, f, i))
    decreases i, 1, 0
  {
    assert LaidAt(kinds, lo, i);
    match kinds[i]
    case Receiving(_) =>
    case Event =>
    case Forwarding(c) => StartLinked(kinds, lo, f, c);
    case Racing(args) =>
      ArgsBelow(lo, args, lo[i], i);
      StartAllLinked(kinds, lo, f, args, i);
    case Attempting(b, cs) =>
      ArgsBelow(lo, cs, b + 1, i);
      StartLinked(kinds, lo, f, b);
      StartAllLinked(kinds, lo, f, cs, i);
  }

  lemma {:induction false} StartAllLinked(kinds: seq<Kind>, lo: seq<nat>, f: Flags, args: seq<nat>, n: nat)
    requires Laid(kinds, lo) && Sized(kinds, f) && n <= |kinds| && AllBelow(args, n) && AllClear(f)
    ensures AllLinked(kinds, lo, f, args, n)
    decreases n, 0, |args|
  {
    if args != [] {
      StartLinked(kinds, lo, f, args[0]);
      assert AllBelow(args[1..], n) by { assert forall k | 0 <= k < |args| - 1 :: args[1..][k] == args[k + 1]; }
      StartAllLinked(kinds, lo, f, args[1..], n);
    }
  }

  lemma {:induction false} ShapeOfItself(t: Task)
    ensures SameShape(t, t)
    decreases t, 1
  {
    match t
    case Receive(_, _) =>
    case Signal(_) =>
    case Done(_) =>
    case Forward(i) => ShapeOfItself(i);
    case Race(args, _) => ShapesOfThemselves(args);
    case Attempt(b, cs, _) =>
      ShapeOfItself(b);
      ShapesOfThemselves(cs);
  }

  lemma {:induction false} ShapesOfThemselves(ts: seq<Task>)
    ensures SameShapes(ts, ts)
    decreases ts, 0
  {
    if ts != [] {
      ShapeOfItself(ts[0]);
      ShapesOfThemselves(ts[1..]);
    }
  }

  /** Setting the flag of a coroutine of its own parks it and changes nothing below it. */
  lemma Flagged(kinds: seq<Kind>, lo: seq<nat>, f: Flags, g: Flags, i: nat)
    requires Laid(kinds, lo) && Sized(kinds, f) && i < |kinds| && f.result[i].None? && Linked(kinds, lo, f, i)
    requires kinds[i].Receiving? || kinds[i].Racing? || kinds[i].Attempting?
    requires g == f.(resolving := f.resolving[i := true])
    ensures Linked(kinds, lo, g, i) && Parked(TreeOf(kinds, lo, g, i))
    ensures SameShape(TreeOf(kinds, lo, f, i), TreeOf(kinds, lo, g, i))
  {
    assert LaidAt(kinds, lo, i);
    match kinds[i]
    case Receiving(_) =>
    case Racing(args) =>
      ArgsBelow(lo, args, lo[i], i);
      TreesSame(kinds, lo, f, g, args, lo[i], i);
      AllLinkedSame(kinds, lo, f, g, args, lo[i], i);
      ShapesOfThemselves(Trees(kinds, lo, f, args, i));
    case Attempting(b, cs) =>
      ArgsBelow(lo, cs, b + 1, i);
      TreeSame(kinds, lo, f, g, b);
      LinkedSame(kinds, lo, f, g, b);
      TreesSame(kinds, lo, f, g, cs, b + 1, i);
      AllLinkedSame(kinds, lo, f, g, cs, b + 1, i);
      ShapeOfItself(TreeOf(kinds, lo, f, b));
      ShapesOfThemselves(Trees(kinds, lo, f, cs, i));
  }

  /** The flag passes from a forwarded task to the one that awaits it. */
  lemma ForwardFlagged(kinds: seq<Kind>, lo: seq<nat>, f: Flags, g: Flags, h: Flags, c: nat)
    requires Laid(kinds, lo) && Sized(kinds, f) && Sized(kinds, g) && c + 1 < |kinds| && kinds[c + 1] == Forwarding(c)
    requires f.result == g.result && g.result[c + 1].None? && h == g.(resolving := g.resolving[c + 1 := true])
    requires Linked(kinds, lo, g, c) && Parked(TreeOf(kinds, lo, g, c))
    requires SameShape(TreeOf(kinds, lo, f, c), TreeOf(kinds, lo, g, c))
    ensures Linked(kinds, lo, h, c + 1) && Parked(TreeOf(kinds, lo, h, c + 1))
    ensures SameShape(TreeOf(kinds, lo, f, c + 1), TreeOf(kinds, lo, h, c + 1))
  {
    assert LaidAt(kinds, lo, c + 1);
    TreeSame(kinds, lo, g, h, c);
    LinkedSame(kinds, lo, g, h, c);
  }

  /** What a finished promise gives. */
  function ResultIn(f: Flags, a: nat): Result
    requires a < |f.result|
  { if f.result[a].Some? then f.result[a].value else NoItem }

  /** Flags in which promise `i` of `f` has left its resolution point. */
  ghost function Unflagged(f: Flags, i: nat): Flags
    requires i < |f.resolving|
  { f.(resolving := f.resolving[i := false]) }

  ghost function Finished(g: Flags, i: nat, r: Result): Flags
    requires i < |g.result|
  { g.(result := g.result[i := Some(r)]) }

  /** A pass of a combinator that found a winner. */
  lemma FinishedRan(kinds: seq<Kind>, lo: seq<nat>, f: Flags, qs: Queues, i: nat, g: Flags, qs': Queues, r: Result)
    requires Laid(kinds, lo) && Sized(kinds, f) && Sized(kinds, g) && i < |kinds| && !kinds[i].Event?
    requires InRange(TreeOf(kinds, lo, f, i), |qs|) && AgreeOff(f, g, lo[i], i + 1)
    requires Resolve(TreeOf(kinds, lo, f, i), qs) == Outcome(Done(r), qs', true)
    ensures Ran(kinds, lo, f, qs, i, Finished(g, i, r), qs')
  {
    assert LaidAt(kinds, lo, i);
  }

  /** A pass of the `race` loop, from what it made of its arguments. */
  lemma RaceRan(
    kinds: seq<Kind>, lo: seq<nat>, f: Flags, qs: Queues, i: nat, args: seq<nat>, g: Flags, qs': Queues, k: nat,
      h: Flags)
    requires Laid(kinds, lo) && Sized(kinds, f) && Sized(kinds, g) && i < |kinds| && kinds[i] == Racing(args)
    requires f.result[i].None? && f.resolving[i] && AllBelow(args, i) && InRange(TreeOf(kinds, lo, f, i), |qs|)
    requires Trees(kinds, lo, f, args, i) == Trees(kinds, lo, Unflagged(f, i), args, i)
    requires DidArgs(kinds, lo, Unflagged(f, i), qs, args, lo[i], i, g, qs', k) && k <= |args|
    requires h == if k < |args| then Finished(g, i, ResultIn(g, args[k])) else g
    requires k < |args| ==> Trees(kinds, lo, g, args, i)[k] == TreeOf(kinds, lo, g, args[k])
    ensures Ran(kinds, lo, f, qs, i, h, qs')
  {
    assert LaidAt(kinds, lo, i);
    if k < |args| {
      FinishedRan(kinds, lo, f, qs, i, g, qs', ResultIn(g, args[k]));
    }
  }

  /** A pass of the `attempt` loop, from what it made of its arguments. */
  lemma AttemptRan(
    kinds: seq<Kind>, lo: seq<nat>, f: Flags, qs: Queues, i: nat, b: nat, cs: seq<nat>, g: Flags, qs': Queues, k: nat,
    h: Flags)
    requires Laid(kinds, lo) && Sized(kinds, f) && Sized(kinds, g) && i < |kinds| && kinds[i] == Attempting(b, cs)
    requires f.result[i].None? && f.resolving[i] && AllBelow([b] + cs, i) && InRange(TreeOf(kinds, lo, f, i), |qs|)
    requires Trees(kinds, lo, f, [b] + cs, i) == Trees(kinds, lo, Unflagged(f, i), [b] + cs, i)
    requires DidArgs(kinds, lo, Unflagged(f, i), qs, [b] + cs, lo[i], i, g, qs', k) && k <= |cs| + 1
    requires h == if k == 0 then Finished(g, i, ResultIn(g, b)) else if k <= |cs| then Finished(g, i, NoItem) else g
    ensures Ran(kinds, lo, f, qs, i, h, qs')
  {
    assert LaidAt(kinds, lo, i);
    ArgsBelow(lo, cs, b + 1, i);
    TreesOfCons(kinds, lo, f, b, cs, i);
    TreesOfCons(kinds, lo, g, b, cs, i);
    var tb, tcs := TreeOf(kinds, lo, f, b), Trees(kinds, lo, f, cs, i);
    FirstOf([tb] + tcs, qs);
    assert ([tb] + tcs)[1..] == tcs;
    if k == 0 {
      FinishedRan(kinds, lo, f, qs, i, g, qs', ResultIn(g, b));
    } else if k <= |cs| {
      FinishedRan(kinds, lo, f, qs, i, g, qs', NoItem);
    }
  }

  lemma TreesOfCons(kinds: seq<Kind>, lo: seq<nat>, f: Flags, b: nat, cs: seq<nat>, n: nat)
    requires Laid(kinds, lo) && Sized(kinds, f) && AllBelow([b] + cs, n) && AllBelow(cs, n) && n <= |kinds|
    ensures b < |kinds| && Trees(kinds, lo, f, [b] + cs, n) == [TreeOf(kinds, lo, f, b)] + Trees(kinds, lo, f, cs, n)
    ensures AllLinked(kinds, lo, f, [b] + cs, n) <==> Linked(kinds, lo, f, b) && AllLinked(kinds, lo, f, cs, n)
  {
    assert ([b] + cs)[0] == b && ([b] + cs)[1..] == cs;
  }

  class Tasks {
    const kinds: seq<Kind>
    ghost const lo: seq<nat>
    var resolving: seq<bool>
    var result: seq<Option<Result>>
    var fired: seq<bool>
    var queues: Queues

    function F(): Flags reads this { Flags(resolving, result, fired) }

    ghost predicate Valid() reads this { Laid(kinds, lo) && Sized(kinds, F()) && PortsOk(kinds, |queues|) }

    ghost function Tree(i: nat): Task
      reads this
      requires Valid() && i < |kinds|
    { TreeOf(kinds, lo, F(), i) }

    constructor (kinds: seq<Kind>, ghost lo: seq<nat>, ports: nat)
      requires Laid(kinds, lo) && PortsOk(kinds, ports)
      ensures this.kinds == kinds && this.lo == lo && Valid() && queues == seq(ports, i => [])
      ensures forall i: nat | i < |kinds| :: Linked(kinds, lo, F(), i) && !Parked(Tree(i))
    {
      this.kinds, this.lo := kinds, lo;
      resolving, result, fired := seq(|kinds|, i => false), seq(|kinds|, i => None), seq(|kinds|, i => false);
      queues := seq(ports, i => []);
      new;
      forall i: nat | i < |kinds| ensures Linked(kinds, lo, F(), i) && !Parked(Tree(i)) {
        StartLinked(kinds, lo, F(), i);
      }
    }

    /** `find_resolved`: try the arguments in order until one has resolved. */
    method FindArgs(args: seq<nat>, ghost from: nat, ghost n: nat) returns (k: nat)
      requires Valid() && n <= |kinds| && ArgsLaid(lo, args, from, n) && AllBelow(args, n)
      requires AllLinked(kinds, lo, F(), args, n)
      modifies this`resolving, this`result, this`queues
      ensures Valid() && |queues| == |old(queues)|
      ensures DidArgs(kinds, lo, old(F()), old(queues), args, from, n, F(), queues, k)
      decreases n, 0, |args|
    {
      if args == [] {
        return 0;
      }
      var rest := args[1..];
      ghost var f, qs := F(), queues;
      ArgsBelow(lo, rest, args[0] + 1, n);
      TreesInRange(kinds, lo, f, args, n, |qs|);
      var ok := IsResolved(args[0]);
      ghost var g := F();
      TreesSame(kinds, lo, f, g, rest, args[0] + 1, n);
      AllLinkedSame(kinds, lo, f, g, rest, args[0] + 1, n);
      if ok {
        return 0;
      }
      k := FindArgs(rest, args[0] + 1, n);
      TreeSame(kinds, lo, g, F(), args[0]);
      LinkedSame(kinds, lo, g, F(), args[0]);
      k := k + 1;
    }

    /** `is_resolved`: a task is resolved, an event asked. */
    method IsResolved(i: nat) returns (ok: bool)
      requires Valid() && i < |kinds| && Linked(kinds, lo, F(), i)
      modifies this`resolving, this`result, this`queues
      ensures Valid() && |queues| == |old(queues)| && Did(kinds, lo, old(F()), old(queues), i, F(), queues, ok)
      decreases i, 4, 0
    {
      if kinds[i].Event? {
        ok := fired[i];
      } else {
        ok := ResolveTask(i);
      }
    }

    /** `task_promise_base::resolve`. */
    method ResolveTask(i: nat) returns (ok: bool)
      requires Valid() && i < |kinds| && Linked(kinds, lo, F(), i) && !kinds[i].Event?
      modifies this`resolving, this`result, this`queues
      ensures Valid() && |queues| == |old(queues)| && Did(kinds, lo, old(F()), old(queues), i, F(), queues, ok)
      decreases i, 3, 0
    {
      ghost var ran := false;
      TreeInRange(kinds, lo, F(), i, |queues|);
      while true
        invariant Valid() && |queues| == |old(queues)|
        invariant !ran ==> F() == old(F()) && queues == old(queues)
        invariant ran ==> Ran(kinds, lo, old(F()), old(queues), i, F(), queues)
        decreases !ran
      {
        if result[i].Some? {
          return true;
        }
        if !resolving[i] {
          if !ran {
            UnparkedStays(Tree(i), queues);
          }
          return false;
        }
        Advance(i);
        ran := true;
      }
    }

    /** Clear the flag, resolve a forwarded task first, and run the coroutine on from its resolution
        point to its next suspension or its end. */
    method Advance(i: nat)
      requires Valid() && i < |kinds| && Linked(kinds, lo, F(), i) && !kinds[i].Event? && result[i].None?
      requires resolving[i]
      modifies this`resolving, this`result, this`queues
      ensures Valid() && |queues| == |old(queues)|
      ensures Ran(kinds, lo, old(F()), old(queues), i, F(), queues)
      decreases i, 2, 0
    {
      assert LaidAt(kinds, lo, i);
      match kinds[i]
      case Receiving(p) => RunReceive(i, p);
      case Forwarding(c) => RunForward(i, c);
      case Racing(args) => RunRace(i, args);
      case Attempting(b, cs) => RunAttempt(i, b, cs);
    }

    method RunReceive(i: nat, p: nat)
      requires Valid() && i < |kinds| && kinds[i] == Receiving(p) && result[i].None? && resolving[i]
      modifies this`resolving, this`result, this`queues
      ensures Valid() && |queues| == |old(queues)|
      ensures Ran(kinds, lo, old(F()), old(queues), i, F(), queues)
    {
      assert LaidAt(kinds, lo, i);
      resolving := resolving[i := false];
      if queues[p] != [] {
        result := result[i := Some(Item(p, queues[p][0]))];
        queues := queues[p := queues[p][1..]];
      }
    }

    method RunForward(i: nat, c: nat)
      requires Valid() && i < |kinds| && kinds[i] == Forwarding(c) && Linked(kinds, lo, F(), i) && result[i].None?
      requires resolving[i]
      modifies this`resolving, this`result, this`queues
      ensures Valid() && |queues| == |old(queues)|
      ensures Ran(kinds, lo, old(F()), old(queues), i, F(), queues)
      decreases i, 1, 0
    {
      assert LaidAt(kinds, lo, i);
      ghost var f, qs := F(), queues;
      TreeInRange(kinds, lo, f, i, |qs|);
      resolving := resolving[i := false];
      ghost var f1 := F();
      TreeSame(kinds, lo, f, f1, c);
      LinkedSame(kinds, lo, f, f1, c);
      var ok := IsResolved(c);
      if ok {
        result := result[i := Some(ResultAt(c))];
      } else {
        ResolvedUnparks(TreeOf(kinds, lo, f, c), qs);
      }
    }

    /** What a finished argument gives. */
    function ResultAt(a: nat): Result
      reads this
      requires a < |result|
    { ResultIn(F(), a) }

    method RunRace(i: nat, args: seq<nat>)
      requires Valid() && i < |kinds| && kinds[i] == Racing(args) && Linked(kinds, lo, F(), i) && result[i].None?
      requires resolving[i]
      modifies this`resolving, this`result, this`queues
      ensures Valid() && |queues| == |old(queues)|
      ensures Ran(kinds, lo, old(F()), old(queues), i, F(), queues)
      decreases i, 1, 0
    {
      assert LaidAt(kinds, lo, i);
      ghost var f, qs := F(), queues;
      TreeInRange(kinds, lo, f, i, |qs|);
      ArgsBelow(lo, args, lo[i], i);
      resolving := resolving[i := false];
      ghost var f1 := F();
      TreesSame(kinds, lo, f, f1, args, lo[i], i);
      AllLinkedSame(kinds, lo, f, f1, args, lo[i], i);
      var k := FindArgs(args, lo[i], i);
      ghost var g := F();
      if k < |args| {
        result := result[i := Some(ResultAt(args[k]))];
        TreesAt(kinds, lo, g, args, i, k);
      }
      RaceRan(kinds, lo, f, qs, i, args, g, queues, k, F());
    }

    method RunAttempt(i: nat, b: nat, cs: seq<nat>)
      requires Valid() && i < |kinds| && kinds[i] == Attempting(b, cs) && Linked(kinds, lo, F(), i) && result[i].None?
      requires resolving[i]
      modifies this`resolving, this`result, this`queues
      ensures Valid() && |queues| == |old(queues)|
      ensures Ran(kinds, lo, old(F()), old(queues), i, F(), queues)
      decreases i, 1, 0
    {
      assert LaidAt(kinds, lo, i);
      ghost var f, qs := F(), queues;
      TreeInRange(kinds, lo, f, i, |qs|);
      var args := [b] + cs;
      assert args[1..] == cs;
      ArgsBelow(lo, args, lo[i], i);
      resolving := resolving[i := false];
      ghost var f1 := F();
      TreesSame(kinds, lo, f, f1, args, lo[i], i);
      AllLinkedSame(kinds, lo, f, f1, args, lo[i], i);
      var k := FindArgs(args, lo[i], i);
      ghost var g := F();
      if k == 0 {
        result := result[i := Some(ResultAt(b))];
      } else if k < |args| {
        result := result[i := Some(NoItem)];
      }
      AttemptRan(kinds, lo, f, qs, i, b, cs, g, queues, k, F());
    }

    /** `resolution_point`: a coroutine stops at a resolution point, and so, in turn, does every task that
        awaits it by forwarding. */
    method ResolutionPoint(i: nat) returns (top: nat)
      requires Valid() && i < |kinds| && result[i].None? && Linked(kinds, lo, F(), i)
      requires kinds[i].Receiving? || kinds[i].Racing? || kinds[i].Attempting?
      modifies this`resolving
      ensures Valid() && i <= top < |kinds| && Linked(kinds, lo, F(), top) && Parked(Tree(top))
      ensures SameShape(old(Tree(top)), Tree(top))
      ensures forall k | 0 <= k < |kinds| && !(i <= k <= top) :: resolving[k] == old(resolving)[k]
      ensures !(top + 1 < |kinds| && kinds[top + 1] == Forwarding(top) && result[top + 1].None?)
    {
      ghost var f := F();
      resolving := resolving[i := true];
      top := i;
      Flagged(kinds, lo, f, F(), i);
      while top + 1 < |kinds| && kinds[top + 1] == Forwarding(top) && result[top + 1].None?
        invariant Valid() && i <= top < |kinds| && Linked(kinds, lo, F(), top) && Parked(Tree(top))
        invariant SameShape(TreeOf(kinds, lo, f, top), Tree(top))
        invariant forall k | 0 <= k < |kinds| && !(i <= k <= top) :: resolving[k] == f.resolving[k]
        decreases |kinds| - top
      {
        ghost var g := F();
        resolving := resolving[top + 1 := true];
        ForwardFlagged(kinds, lo, f, g, F(), top);
        top := top + 1;
      }
    }
  }
}
