/** Events posted to a driver from other threads: the locked migration queue and the handshake that
    wakes a driver blocked in the kernel. Steps are single atomic accesses, sequentially consistent. */
module Migration {

  /** What can be posted: an event to resume, or the close of a descriptor. */
  datatype Post = Resume(event: nat) | Close(fd: nat)

  /** Where a posting thread is in `migrate_asap` or `migrate_fd_close`. */
  datatype Poster =
    | Idle
    | Acquiring(post: Post)
    | Holding(post: Post)
    | Releasing
    | Loading
    | Signalling

  /** Where the driver is in its loop. `zero` says that it will poll the kernel without blocking. */
  datatype Driver =
    | Outside
    | Top
    | Locking
    | Swapping
    | Unlocking(events: seq<nat>, fds: seq<nat>)
    | Importing(events: seq<nat>, fds: seq<nat>)
    | Working
    | Deciding
    | Arming(zero: bool)
    | Rechecking(zero: bool)
    | Waiting(zero: bool)
    | Disarming
    | Collecting

  /** `lock` and `nonempty` are the bits of the lock word. `posted`, `closed`, `taken` and `notified`
      are history: what was queued, and what reached `asap_` or `notify_close`. */
  datatype State = State(
    lock: bool, nonempty: bool, migrate: seq<nat>, closing: seq<nat>,
    armed: bool, signal: bool, posters: seq<Poster>, driver: Driver, asap: seq<nat>,
    posted: seq<nat>, closed: seq<nat>, taken: seq<nat>, notified: seq<nat>)

  datatype Action =
    | Start(thread: nat, post: Post)     // a thread posts
    | Post(thread: nat)                  // a posting thread takes its next step
    | Drive                              // the driver takes its next step
    | Enter                              // a thread calls `loop`
    | Leave                              // the loop finds nothing to do and returns
    | Poll(kernel: bool)                 // the loop has a reason not to block, such as a virtual clock
    | Run                                // the driver processes one event

  predicate Word(s: State) { s.lock || s.nonempty }

  /** Blocked in the kernel until a signal, a timer or a descriptor event. */
  predicate Asleep(s: State) { s.driver == Waiting(false) }

  predicate Pending(s: State) { s.migrate != [] || s.closing != [] }

  predicate PostEnabled(s: State, i: nat) {
    && i < |s.posters| && s.posters[i] != Idle && (s.posters[i].Acquiring? ==> !s.lock)
  }

  predicate Enabled(s: State, a: Action) {
    match a
    case Start(i, _) => i < |s.posters| && s.posters[i] == Idle
    case Post(i) => PostEnabled(s, i)
    case Drive => !s.driver.Outside? && (s.driver.Locking? ==> !s.lock)
    case Enter => s.driver.Outside?
    case Leave => s.driver.Deciding? && !Word(s)
    case Poll(_) => s.driver.Deciding?
    case Run => s.driver.Working? && s.asap != []
  }

  /** One step of a posting thread. */
  function PostStep(s: State, i: nat): State
    requires PostEnabled(s, i)
  {
    match s.posters[i]
    case Acquiring(p) => s.(lock := true, posters := s.posters[i := Holding(p)])
    case Holding(p) =>
      var t := s.(posters := s.posters[i := Releasing]);
      if p.Resume? then t.(migrate := s.migrate + [p.event], posted := s.posted + [p.event])
      else t.(closing := s.closing + [p.fd], closed := s.closed + [p.fd])
    case Releasing => s.(lock := false, nonempty := true, posters := s.posters[i := Loading])
    case Loading => s.(posters := s.posters[i := if s.armed then Signalling else Idle])
    case Signalling => s.(signal := true, posters := s.posters[i := Idle])
  }

  /** In `finish_migrate`. */
  predicate Migrating(d: Driver) { d.Locking? || d.Swapping? || d.Unlocking? || d.Importing? }

  /** One step of `finish_migrate`. */
  function MigrateStep(s: State): State
    requires Migrating(s.driver)
  {
    match s.driver
    case Locking => s.(lock := true, driver := Swapping)
    case Swapping => s.(migrate := [], closing := [], driver := Unlocking(s.migrate, s.closing))
    case Unlocking(es, fs) => s.(lock := false, nonempty := false, driver := Importing(es, fs))
    case Importing(es, fs) =>
      s.(asap := s.asap + es, taken := s.taken + es, notified := s.notified + fs, driver := Working)
  }

  /** Where the loop goes next when it is not migrating. */
  function NextPlace(s: State): Driver
    requires !s.driver.Outside? && !Migrating(s.driver)
  {
    match s.driver
    case Top => if Word(s) then Locking else Working
    case Working => Deciding
    case Deciding => Arming(s.asap != [] || Word(s))
    case Arming(z) => Rechecking(z)
    case Rechecking(z) => Waiting(z || Word(s))
    case Waiting(_) => Disarming
    case Disarming => Collecting
    case Collecting => Top
  }

  /** One step of the driver's loop: stores to the wake descriptor, and the signal read. */
  function DriveStep(s: State): State
    requires !s.driver.Outside?
  {
    if Migrating(s.driver) then MigrateStep(s)
    else
      s.(driver := NextPlace(s),
         armed := if s.driver.Arming? then true else if s.driver.Disarming? then false else s.armed,
         signal := if s.driver.Collecting? then false else s.signal)
  }

  function Apply(s: State, a: Action): State
    requires Enabled(s, a)
  {
    match a
    case Start(i, p) => s.(posters := s.posters[i := Acquiring(p)])
    case Post(i) => PostStep(s, i)
    case Drive => DriveStep(s)
    case Enter => s.(driver := Top)
    case Leave => s.(driver := Outside)
    case Poll(kernel) => s.(driver := if kernel then Arming(true) else Top)
    case Run => s.(asap := s.asap[1..])
  }

  function Init(threads: nat): State {
    State(false, false, [], [], false, false, seq(threads, i => Idle), Outside, [], [], [], [], [])
  }

  ghost predicate StepAt(run: seq<State>, k: nat)
    requires k + 1 < |run|
  { Next(run[k], run[k + 1]) }

  ghost predicate Next(s: State, s': State) { exists a :: Enabled(s, a) && s' == Apply(s, a) }

  ghost predicate IsRun(run: seq<State>, threads: nat) {
    |run| > 0 && run[0] == Init(threads) && forall k :: 0 <= k < |run| - 1 ==> StepAt(run, k)
  }

  // The invariant

  /** A posting thread that holds the lock. */
  predicate Holds(p: Poster) { p.Holding? || p.Releasing? }

  predicate DriverHolds(d: Driver) { d.Swapping? || d.Unlocking? }

  /** A posting thread that has queued something and has yet to look whether to signal. */
  predicate WillSignal(p: Poster) { p.Releasing? || p.Loading? || p.Signalling? }

  ghost predicate Coming(posters: seq<Poster>) { exists i: nat :: i < |posters| && WillSignal(posters[i]) }

  /** The lock excludes. */
  ghost predicate LockInv(s: State) { LockHeld(s.lock, s.posters, DriverHolds(s.driver)) }

  ghost predicate LockHeld(lock: bool, posters: seq<Poster>, driver: bool) {
    && (forall i, j | 0 <= i < j < |posters| :: !(Holds(posters[i]) && Holds(posters[j])))
    && (forall i | 0 <= i < |posters| && Holds(posters[i]) :: lock && !driver)
    && (driver ==> lock)
  }

  /** Work is queued only under the flag, or by a thread about to raise it. */
  ghost predicate FlagInv(s: State) {
    (Pending(s) ==> s.nonempty || Raising(s.posters)) && (s.driver.Unlocking? ==> !Pending(s))
  }

  ghost predicate Raising(posters: seq<Poster>) { exists i: nat :: i < |posters| && posters[i].Releasing? }

  ghost predicate SleepInv(s: State) {
    && (s.armed <==> s.driver.Rechecking? || s.driver.Waiting? || s.driver.Disarming?)
    && (Asleep(s) && Pending(s) ==> s.signal || Coming(s.posters))
  }

  /** What the driver has swapped out and not yet imported. */
  function EventsInHand(d: Driver): seq<nat> { if d.Unlocking? || d.Importing? then d.events else [] }

  function ClosesInHand(d: Driver): seq<nat> { if d.Unlocking? || d.Importing? then d.fds else [] }

  ghost predicate InOrder(all: seq<nat>, done: seq<nat>, inHand: seq<nat>, queued: seq<nat>) {
    all == done + inHand + queued
  }

  ghost predicate OrderInv(s: State) {
    && InOrder(s.posted, s.taken, EventsInHand(s.driver), s.migrate)
    && InOrder(s.closed, s.notified, ClosesInHand(s.driver), s.closing)
  }

  ghost predicate Inv(s: State) { LockInv(s) && FlagInv(s) && SleepInv(s) && OrderInv(s) }

  /** Taking, keeping and giving back the lock, on threads alone. */
  lemma LockMoves(lock: bool, posters: seq<Poster>, driver: bool, i: nat, p: Poster)
    requires LockHeld(lock, posters, driver) && i < |posters|
    ensures !lock && Holds(p) ==> LockHeld(true, posters[i := p], driver)
    ensures Holds(posters[i]) && !Holds(p) ==> LockHeld(false, posters[i := p], driver)
    ensures Holds(posters[i]) || !Holds(p) ==> LockHeld(lock, posters[i := p], driver)
  {
  }

  lemma PostKeepsLock(s: State, i: nat)
    requires LockInv(s) && PostEnabled(s, i)
    ensures LockInv(PostStep(s, i))
  {
    LockMoves(s.lock, s.posters, DriverHolds(s.driver), i, PostStep(s, i).posters[i]);
  }

  lemma PostKeepsFlag(s: State, i: nat)
    requires LockInv(s) && FlagInv(s) && PostEnabled(s, i)
    ensures FlagInv(PostStep(s, i))
  {
    var t := PostStep(s, i);
    if s.posters[i].Holding? {
      assert t.posters[i].Releasing?;
    } else if !s.posters[i].Releasing? {
      if j: nat :| j < |s.posters| && s.posters[j].Releasing? {
        assert t.posters[j].Releasing?;
      }
    }
  }

  lemma PostKeepsSleep(s: State, i: nat)
    requires SleepInv(s) && PostEnabled(s, i)
    ensures SleepInv(PostStep(s, i))
  {
    var t := PostStep(s, i);
    if Asleep(t) && Pending(t) && !t.signal {
      if WillSignal(t.posters[i]) {
        assert Coming(t.posters);
      } else {
        assert !WillSignal(s.posters[i]);
        var j: nat :| j < |s.posters| && WillSignal(s.posters[j]);
        assert WillSignal(t.posters[j]);
      }
    }
  }

  lemma PostKeepsOrder(s: State, i: nat)
    requires OrderInv(s) && PostEnabled(s, i)
    ensures OrderInv(PostStep(s, i))
  {
    if s.posters[i].Holding? {
      var p := s.posters[i].post;
      if p.Resume? {
        InOrderQueued(s.posted, s.taken, EventsInHand(s.driver), s.migrate, p.event);
      } else {
        InOrderQueued(s.closed, s.notified, ClosesInHand(s.driver), s.closing, p.fd);
      }
    }
  }

  lemma InOrderQueued(all: seq<nat>, done: seq<nat>, inHand: seq<nat>, queued: seq<nat>, x: nat)
    requires InOrder(all, done, inHand, queued)
    ensures InOrder(all + [x], done, inHand, queued + [x])
  {
  }

  lemma InOrderMoves(all: seq<nat>, done: seq<nat>, inHand: seq<nat>, queued: seq<nat>)
    requires InOrder(all, done, inHand, queued)
    ensures inHand == [] ==> InOrder(all, done, queued, [])
    ensures InOrder(all, done + inHand, [], queued)
  {
  }

  lemma PostKeeps(s: State, i: nat)
    requires Inv(s) && PostEnabled(s, i)
    ensures Inv(PostStep(s, i))
  {
    var t := PostStep(s, i);
    assert LockInv(t) by { PostKeepsLock(s, i); }
    assert FlagInv(t) by { PostKeepsFlag(s, i); }
    assert SleepInv(t) by { PostKeepsSleep(s, i); }
    assert OrderInv(t) by { PostKeepsOrder(s, i); }
  }

  lemma MigrateKeepsLock(s: State)
    requires LockInv(s) && Migrating(s.driver) && (s.driver.Locking? ==> !s.lock)
    ensures LockInv(MigrateStep(s))
  {
  }

  lemma MigrateKeepsOrder(s: State)
    requires OrderInv(s) && Migrating(s.driver)
    ensures OrderInv(MigrateStep(s))
  {
    InOrderMoves(s.posted, s.taken, EventsInHand(s.driver), s.migrate);
    InOrderMoves(s.closed, s.notified, ClosesInHand(s.driver), s.closing);
  }

  lemma MigrateKeepsRest(s: State)
    requires FlagInv(s) && SleepInv(s) && Migrating(s.driver)
    ensures FlagInv(MigrateStep(s)) && SleepInv(MigrateStep(s))
  {
  }

  /** When the driver looks again and finds nothing, nothing is queued. */
  lemma WordTells(s: State)
    requires LockInv(s) && FlagInv(s) && !Word(s)
    ensures !Pending(s)
  {
    assert Raising(s.posters) ==> s.lock;
  }

  lemma LoopKeeps(s: State)
    requires Inv(s) && !s.driver.Outside? && !Migrating(s.driver)
    ensures Inv(DriveStep(s))
  {
    var t := DriveStep(s);
    assert LockInv(t) && FlagInv(t) && OrderInv(t);
    if s.driver.Rechecking? && !Word(s) {
      WordTells(s);
    }
  }

  lemma DriveKeeps(s: State)
    requires Inv(s) && Enabled(s, Drive)
    ensures Inv(DriveStep(s))
  {
    if Migrating(s.driver) {
      MigrateKeepsLock(s);
      MigrateKeepsOrder(s);
      MigrateKeepsRest(s);
    } else {
      LoopKeeps(s);
    }
  }

  lemma StartKeeps(s: State, i: nat, p: Post)
    requires Inv(s) && Enabled(s, Start(i, p))
    ensures Inv(Apply(s, Start(i, p)))
  {
    var t := Apply(s, Start(i, p));
    LockMoves(s.lock, s.posters, DriverHolds(s.driver), i, Acquiring(p));
    if Raising(s.posters) {
      var j: nat :| j < |s.posters| && s.posters[j].Releasing?;
      assert t.posters[j].Releasing?;
    }
    if Coming(s.posters) {
      var j: nat :| j < |s.posters| && WillSignal(s.posters[j]);
      assert WillSignal(t.posters[j]);
    }
  }

  lemma StepKeeps(s: State, a: Action)
    requires Inv(s) && Enabled(s, a)
    ensures Inv(Apply(s, a))
  {
    match a
    case Post(i) => PostKeeps(s, i);
    case Drive => DriveKeeps(s);
    case Start(i, p) => StartKeeps(s, i, p);
    case Enter =>
    case Leave =>
    case Poll(_) =>
    case Run =>
  }

  lemma NextKeeps(s: State, s': State)
    requires Inv(s) && Next(s, s')
    ensures Inv(s')
  {
    var a :| Enabled(s, a) && s' == Apply(s, a);
    StepKeeps(s, a);
  }

  lemma {:induction false} RunInv(run: seq<State>, threads: nat, k: nat)
    requires IsRun(run, threads) && k < |run|
    ensures Inv(run[k])
  {
    if k > 0 {
      RunInv(run, threads, k - 1);
      assert StepAt(run, k - 1);
      NextKeeps(run[k - 1], run[k]);
    }
  }

  // What it means

  /** No lost wakeup: a driver asleep with work queued has a signal pending, or a posting thread is
      still on its way to signal. */
  lemma NoLostWakeup(run: seq<State>, threads: nat, k: nat)
    requires IsRun(run, threads) && k < |run| && Asleep(run[k]) && Pending(run[k])
    ensures run[k].signal || exists i: nat :: i < |run[k].posters| && WillSignal(run[k].posters[i])
  {
    RunInv(run, threads, k);
  }

  /** How many steps a thread on its way to signal still has to take. */
  function Left(p: Poster): nat { if p.Releasing? then 3 else if p.Loading? then 2 else if p.Signalling? then 1 else 0 }

  /** How often thread `i` moves from state `k` to state `m`. */
  ghost function Moves(run: seq<State>, i: nat, k: nat, m: nat): nat
    requires k <= m < |run| && forall x :: k <= x <= m ==> i < |run[x].posters|
  {
    if k == m then 0
    else Moves(run, i, k, m - 1) + if run[m].posters[i] != run[m - 1].posters[i] then 1 else 0
  }

  /** Thread `i` moves on towards its signal, or the signal is set. */
  ghost predicate Nearer(s: State, s': State, i: nat)
    requires i < |s.posters| == |s'.posters|
  {
    !s'.signal ==>
      && WillSignal(s'.posters[i])
      && Left(s.posters[i]) == Left(s'.posters[i]) + if s'.posters[i] != s.posters[i] then 1 else 0
  }

  /** One step of a run in which the driver sleeps on. */
  lemma SleepingStep(s: State, s': State, i: nat)
    requires SleepInv(s) && Next(s, s') && Asleep(s) && Asleep(s') && i < |s.posters|
    ensures |s'.posters| == |s.posters| && (s.signal ==> s'.signal)
    ensures WillSignal(s.posters[i]) ==> Nearer(s, s', i)
  {
    var a :| Enabled(s, a) && s' == Apply(s, a);
    OnlyThreadsMove(s, a);
    if a.Post? {
      PostNears(s, a.thread, i);
    }
  }

  /** While the driver sleeps on, every step is a posting thread's. */
  lemma OnlyThreadsMove(s: State, a: Action)
    requires Enabled(s, a) && Asleep(s) && Asleep(Apply(s, a))
    ensures a.Start? || a.Post?
  {
    assert DriveStep(s).driver == Disarming;
  }

  lemma PostNears(s: State, j: nat, i: nat)
    requires s.armed && PostEnabled(s, j) && i < |s.posters|
    ensures |PostStep(s, j).posters| == |s.posters| && (s.signal ==> PostStep(s, j).signal)
    ensures WillSignal(s.posters[i]) ==> Nearer(s, PostStep(s, j), i)
  {
    if i != j {
      assert PostStep(s, j).posters[i] == s.posters[i];
    }
  }

  ghost predicate SleepsThrough(run: seq<State>, k: nat, m: nat)
    requires k <= m < |run|
  {
    forall x :: k <= x <= m ==> Asleep(run[x])
  }

  lemma {:induction false} PostersStay(run: seq<State>, threads: nat, k: nat)
    requires IsRun(run, threads) && k < |run|
    ensures |run[k].posters| == threads
  {
    if k > 0 {
      PostersStay(run, threads, k - 1);
      assert StepAt(run, k - 1);
      SamePosters(run[k - 1], run[k]);
    }
  }

  lemma SamePosters(s: State, s': State)
    requires Next(s, s')
    ensures |s'.posters| == |s.posters|
  {
    var a :| Enabled(s, a) && s' == Apply(s, a);
    match a
    case Start(_, _) =>
    case Post(i) => PostKeepsCount(s, i);
    case Drive => DriveKeepsPosters(s);
    case Enter =>
    case Leave =>
    case Poll(_) =>
    case Run =>
  }

  lemma PostKeepsCount(s: State, i: nat)
    requires PostEnabled(s, i)
    ensures |PostStep(s, i).posters| == |s.posters|
  {
  }

  lemma DriveKeepsPosters(s: State)
    requires !s.driver.Outside?
    ensures DriveStep(s).posters == s.posters
  {
    assert Migrating(s.driver) ==> MigrateStep(s).posters == s.posters;
  }

  lemma SleepAt(run: seq<State>, threads: nat, k: nat)
    requires IsRun(run, threads) && k < |run|
    ensures SleepInv(run[k])
  {
    RunInv(run, threads, k);
  }

  /** Such a thread does signal. While the driver sleeps on, however the threads interleave, it stays on
      its way until the signal is set; it is never blocked, and at its third move at the latest the
      signal is set. */
  lemma {:induction false} SignalComes(run: seq<State>, threads: nat, k: nat, m: nat, i: nat)
    requires IsRun(run, threads) && k <= m < |run| && SleepsThrough(run, k, m)
    requires i < threads && |run[k].posters| == threads && WillSignal(run[k].posters[i])
    ensures forall x :: k <= x <= m ==> |run[x].posters| == threads
    ensures !run[m].signal ==> WillSignal(run[m].posters[i]) && PostEnabled(run[m], i)
    ensures !run[m].signal ==> Left(run[m].posters[i]) + Moves(run, i, k, m) == Left(run[k].posters[i])
    ensures Moves(run, i, k, m) >= 3 ==> run[m].signal
    decreases m
  {
    forall x | k <= x <= m ensures |run[x].posters| == threads {
      PostersStay(run, threads, x);
    }
    if k < m {
      assert Asleep(run[m - 1]) && Asleep(run[m]);
      SignalComes(run, threads, k, m - 1, i);
      SleepAt(run, threads, m - 1);
      assert StepAt(run, m - 1);
      SleepingStep(run[m - 1], run[m], i);
    }
  }

  // What becomes of every post, told by the actions of a run and not by its history

  /** Action `acts[k]` leads from state `k` to the next. */
  ghost predicate IsTrace(run: seq<State>, acts: seq<Action>, threads: nat) {
    && |run| == |acts| + 1 && run[0] == Init(threads)
    && forall k | 0 <= k < |acts| :: Does(run, acts, k)
  }

  ghost predicate Does(run: seq<State>, acts: seq<Action>, k: nat)
    requires k < |acts| && |run| == |acts| + 1
  { Enabled(run[k], acts[k]) && run[k + 1] == Apply(run[k], acts[k]) }

  lemma TraceIsRun(run: seq<State>, acts: seq<Action>, threads: nat)
    requires IsTrace(run, acts, threads)
    ensures IsRun(run, threads)
  {
    forall k | 0 <= k < |run| - 1 ensures StepAt(run, k) {
      assert Does(run, acts, k);
    }
  }

  /** The events that the driver processed in the first `k` steps: each time the front of `asap_`. */
  ghost function Processed(run: seq<State>, acts: seq<Action>, k: nat): seq<nat>
    requires k <= |acts| && |run| == |acts| + 1
  {
    if k == 0 then []
    else
      Processed(run, acts, k - 1)
      + if acts[k - 1].Run? && run[k - 1].asap != [] then [run[k - 1].asap[0]] else []
  }

  /** How often post `p` was asked for in the first `k` steps. */
  ghost function Asked(acts: seq<Action>, k: nat, p: Post): nat
    requires k <= |acts|
  { if k == 0 then 0 else Asked(acts, k - 1, p) + if acts[k - 1].Start? && acts[k - 1].post == p then 1 else 0 }

  /** A thread has `p` to queue. */
  predicate Carries(t: Poster, p: Post) { (t.Acquiring? || t.Holding?) && t.post == p }

  function Carried(ps: seq<Poster>, p: Post): nat {
    if ps == [] then 0 else Carried(ps[..|ps| - 1], p) + if Carries(ps[|ps| - 1], p) then 1 else 0
  }

  lemma {:induction false} CarriedUpdate(ps: seq<Poster>, i: nat, t: Poster, p: Post)
    requires i < |ps|
    ensures Carried(ps[i := t], p) + (if Carries(ps[i], p) then 1 else 0) ==
            Carried(ps, p) + (if Carries(t, p) then 1 else 0)
  {
    var last := |ps| - 1;
    if i == last {
      assert ps[i := t][..last] == ps[..last];
    } else {
      assert ps[i := t][..last] == ps[..last][i := t];
      CarriedUpdate(ps[..last], i, t, p);
    }
  }

  lemma {:induction false} IdleCarries(ps: seq<Poster>, p: Post)
    requires forall i | 0 <= i < |ps| :: ps[i] == Idle
    ensures Carried(ps, p) == 0
  {
    if ps != [] {
      IdleCarries(ps[..|ps| - 1], p);
    }
  }

  /** How often `p` is among the events `es` and the closes `fds`. */
  function Among(es: seq<nat>, fds: seq<nat>, p: Post): nat {
    if p.Resume? then multiset(es)[p.event] else multiset(fds)[p.fd]
  }

  lemma AmongGrows(es: seq<nat>, fds: seq<nat>, x: nat, p: Post)
    ensures Among(es + [x], fds, p) == Among(es, fds, p) + if p == Resume(x) then 1 else 0
    ensures Among(es, fds + [x], p) == Among(es, fds, p) + if p == Close(x) then 1 else 0
  {
  }

  /** What a step of a posting thread queues. */
  lemma PostStepQueues(s: State, i: nat, p: Post)
    requires PostEnabled(s, i)
    ensures var t := PostStep(s, i);
            Among(t.posted, t.closed, p) == Among(s.posted, s.closed, p)
            + if s.posters[i].Holding? && s.posters[i].post == p then 1 else 0
  {
    if s.posters[i].Holding? {
      var q := s.posters[i].post;
      AmongGrows(s.posted, s.closed, if q.Resume? then q.event else q.fd, p);
    }
  }

  lemma PostStepPlace(s: State, i: nat)
    requires PostEnabled(s, i)
    ensures var t := PostStep(s, i).posters;
            |t| == |s.posters| && t == s.posters[i := t[i]]
            && (s.posters[i].Acquiring? ==> t[i] == Holding(s.posters[i].post))
            && (!s.posters[i].Acquiring? ==> !t[i].Acquiring? && !t[i].Holding?)
  {
  }

  lemma PostStepThere(s: State, i: nat, p: Post)
    requires PostEnabled(s, i)
    ensures var t := PostStep(s, i);
            Carried(t.posters, p) + Among(t.posted, t.closed, p) == Carried(s.posters, p) + Among(s.posted, s.closed, p)
  {
    PostStepPlace(s, i);
    PostStepQueues(s, i, p);
    CarriedUpdate(s.posters, i, PostStep(s, i).posters[i], p);
  }

  lemma DriveStepThere(s: State)
    requires !s.driver.Outside?
    ensures var t := DriveStep(s); t.posters == s.posters && t.posted == s.posted && t.closed == s.closed
  {
    DriveKeepsPosters(s);
    assert Migrating(s.driver) ==> MigrateStep(s).posted == s.posted && MigrateStep(s).closed == s.closed;
  }

  lemma StepThere(s: State, a: Action, p: Post)
    requires Enabled(s, a)
    ensures var t := Apply(s, a);
            Carried(t.posters, p) + Among(t.posted, t.closed, p) ==
            Carried(s.posters, p) + Among(s.posted, s.closed, p) + if a.Start? && a.post == p then 1 else 0
  {
    match a
    case Start(i, q) => CarriedUpdate(s.posters, i, Acquiring(q), p);
    case Post(i) => PostStepThere(s, i, p);
    case Drive => DriveStepThere(s);
    case Enter =>
    case Leave =>
    case Poll(_) =>
    case Run =>
  }

  lemma {:induction false} TraceThere(run: seq<State>, acts: seq<Action>, threads: nat, k: nat, p: Post)
    requires IsTrace(run, acts, threads) && k <= |acts|
    ensures Asked(acts, k, p) == Carried(run[k].posters, p) + Among(run[k].posted, run[k].closed, p)
  {
    if k == 0 {
      IdleCarries(run[0].posters, p);
    } else {
      TraceThere(run, acts, threads, k - 1, p);
      assert Does(run, acts, k - 1);
      StepThere(run[k - 1], acts[k - 1], p);
    }
  }

  /** What has reached `asap_` is what was processed, and then what is left there. */
  lemma StepProcessed(s: State, a: Action, ran: seq<nat>)
    requires Enabled(s, a) && s.taken == ran + s.asap
    ensures Apply(s, a).taken == ran + (if a.Run? then [s.asap[0]] else []) + Apply(s, a).asap
  {
    if a.Drive? && Migrating(s.driver) {
      assert s.driver.Importing? ==> ran + s.asap + s.driver.events == ran + (s.asap + s.driver.events);
    }
  }

  lemma {:induction false} TraceProcessed(run: seq<State>, acts: seq<Action>, threads: nat, k: nat)
    requires IsTrace(run, acts, threads) && k <= |acts|
    ensures run[k].taken == Processed(run, acts, k) + run[k].asap
  {
    if k > 0 {
      TraceProcessed(run, acts, threads, k - 1);
      assert Does(run, acts, k - 1);
      StepProcessed(run[k - 1], acts[k - 1], Processed(run, acts, k - 1));
    }
  }

  /** Exactly once and in order: what was queued is what the driver has processed, then what is in `asap_`,
      then what it has in hand, then what is still queued; closes likewise. */
  lemma PostsArriveInOrder(run: seq<State>, acts: seq<Action>, threads: nat, k: nat)
    requires IsTrace(run, acts, threads) && k <= |acts|
    ensures var s := run[k];
            && s.posted == Processed(run, acts, k) + s.asap + EventsInHand(s.driver) + s.migrate
            && s.closed == s.notified + ClosesInHand(s.driver) + s.closing
  {
    TraceIsRun(run, acts, threads);
    RunInv(run, threads, k);
    TraceProcessed(run, acts, threads, k);
  }

  /** No post is lost or made twice: whatever threads have started to post, as often as they have, some
      thread is about to queue, or it has been processed, or is in `asap_`, in hand or queued. */
  lemma EveryPostArrives(run: seq<State>, acts: seq<Action>, threads: nat, k: nat, p: Post)
    requires IsTrace(run, acts, threads) && k <= |acts|
    ensures var s := run[k];
            Asked(acts, k, p) ==
            Carried(s.posters, p)
            + Among(
                Processed(run, acts, k) + s.asap + EventsInHand(s.driver) + s.migrate,
                s.notified + ClosesInHand(s.driver) + s.closing, p)
  {
    TraceThere(run, acts, threads, k, p);
    PostsArriveInOrder(run, acts, threads, k);
  }

  /** The step from state `k` is a thread's signal. */
  ghost predicate Signals(run: seq<State>, acts: seq<Action>, k: nat)
    requires k < |acts| && |run| == |acts| + 1
  { acts[k].Post? && acts[k].thread < |run[k].posters| && run[k].posters[acts[k].thread].Signalling? }

  /** It is the driver's read of the signal. */
  ghost predicate Reads(run: seq<State>, acts: seq<Action>, k: nat)
    requires k < |acts| && |run| == |acts| + 1
  { acts[k].Drive? && run[k].driver.Collecting? }

  /** Some thread has signalled since the driver last read the signal. */
  ghost predicate Unread(run: seq<State>, acts: seq<Action>, k: nat)
    requires k <= |acts| && |run| == |acts| + 1
  { k > 0 && (Signals(run, acts, k - 1) || (!Reads(run, acts, k - 1) && Unread(run, acts, k - 1))) }

  lemma StepSignal(s: State, a: Action)
    requires Enabled(s, a)
    ensures Apply(s, a).signal <==>
            (a.Post? && s.posters[a.thread].Signalling?) || (s.signal && !(a.Drive? && s.driver.Collecting?))
  {
    if a.Drive? && Migrating(s.driver) {
      assert MigrateStep(s).signal == s.signal;
    }
  }

  /** The signal is set exactly if some thread has signalled since the driver last read it. */
  lemma {:induction false} SignalExactly(run: seq<State>, acts: seq<Action>, threads: nat, k: nat)
    requires IsTrace(run, acts, threads) && k <= |acts|
    ensures run[k].signal <==> Unread(run, acts, k)
  {
    if k > 0 {
      SignalExactly(run, acts, threads, k - 1);
      assert Does(run, acts, k - 1);
      StepSignal(run[k - 1], acts[k - 1]);
    }
  }

  /** The loop returns only with nothing queued. */
  lemma LeavesEmpty(run: seq<State>, threads: nat, k: nat)
    requires IsRun(run, threads) && k + 1 < |run| && Enabled(run[k], Leave) && run[k + 1] == Apply(run[k], Leave)
    ensures !Pending(run[k + 1]) && run[k + 1].driver.Outside?
  {
    RunInv(run, threads, k);
    WordTells(run[k]);
  }

  /** The driver lock excludes. */
  lemma LockExcludes(run: seq<State>, threads: nat, k: nat, i: nat, j: nat)
    requires IsRun(run, threads) && k < |run| && i < |run[k].posters| && j < |run[k].posters|
    requires Holds(run[k].posters[i])
    ensures !DriverHolds(run[k].driver) && (Holds(run[k].posters[j]) ==> i == j)
  {
    RunInv(run, threads, k);
  }

  // The lock word and the loop, exactly

  /** The lock bit is set just when somebody holds the lock. */
  ghost predicate LockExact(s: State) {
    s.lock <==> DriverHolds(s.driver) || Locked(s.posters)
  }

  ghost predicate Locked(posters: seq<Poster>) { exists i: nat :: i < |posters| && Holds(posters[i]) }

  /** A thread that is about to give the lock back has queued something; the flag is up only while something
      is queued, or the driver is taking it. */
  ghost predicate FlagExact(s: State) {
    (Raising(s.posters) ==> Pending(s)) && (s.nonempty ==> Pending(s) || s.driver.Unlocking?)
  }

  /** The driver is only about to block with nothing to run. */
  ghost predicate BlockExact(s: State) {
    (s.driver == Arming(false) || s.driver == Rechecking(false) || Asleep(s)) ==> s.asap == []
  }

  ghost predicate Exact(s: State) { LockExact(s) && FlagExact(s) && BlockExact(s) }

  lemma LockerMoves(posters: seq<Poster>, i: nat, p: Poster)
    requires i < |posters|
    ensures Holds(p) ==> Locked(posters[i := p])
    ensures !Holds(p) && !Holds(posters[i]) ==> (Locked(posters[i := p]) <==> Locked(posters))
  {
    var ps := posters[i := p];
    assert Holds(p) ==> Holds(ps[i]);
    if j: nat :| j < |posters| && Holds(posters[j]) && j != i {
      assert Holds(ps[j]);
    }
  }

  lemma PostKeepsLockExact(s: State, i: nat)
    requires LockInv(s) && LockExact(s) && PostEnabled(s, i)
    ensures LockExact(PostStep(s, i))
  {
    LockerMoves(s.posters, i, PostStep(s, i).posters[i]);
  }

  lemma PostKeepsFlagExact(s: State, i: nat)
    requires LockInv(s) && FlagExact(s) && PostEnabled(s, i)
    ensures FlagExact(PostStep(s, i)) && PostStep(s, i).driver == s.driver && PostStep(s, i).asap == s.asap
  {
    var t := PostStep(s, i);
    if s.posters[i].Releasing? {
      assert Raising(s.posters);
    }
    if Raising(t.posters) && !s.posters[i].Holding? {
      var j: nat :| j < |t.posters| && t.posters[j].Releasing?;
      assert s.posters[j].Releasing?;
    }
  }

  lemma DriveKeepsExact(s: State)
    requires LockInv(s) && Exact(s) && Enabled(s, Drive)
    ensures Exact(DriveStep(s))
  {
    if Migrating(s.driver) {
      MigrateKeepsExact(s);
    } else {
      assert DriveStep(s).posters == s.posters;
    }
  }

  lemma MigrateKeepsExact(s: State)
    requires LockInv(s) && Exact(s) && Migrating(s.driver) && (s.driver.Locking? ==> !s.lock)
    ensures Exact(MigrateStep(s))
  {
    assert MigrateStep(s).posters == s.posters;
    if s.driver.Swapping? {
      assert !Raising(s.posters);
    }
  }

  lemma StartKeepsExact(s: State, i: nat, p: Post)
    requires Exact(s) && Enabled(s, Start(i, p))
    ensures Exact(Apply(s, Start(i, p)))
  {
    LockerMoves(s.posters, i, Acquiring(p));
    var t := Apply(s, Start(i, p));
    if Raising(t.posters) {
      var j: nat :| j < |t.posters| && t.posters[j].Releasing?;
      assert s.posters[j].Releasing?;
    }
  }

  lemma StepKeepsExact(s: State, a: Action)
    requires LockInv(s) && Exact(s) && Enabled(s, a)
    ensures Exact(Apply(s, a))
  {
    match a
    case Post(i) =>
      PostKeepsLockExact(s, i);
      PostKeepsFlagExact(s, i);
    case Drive => DriveKeepsExact(s);
    case Start(i, p) => StartKeepsExact(s, i, p);
    case Enter =>
    case Leave =>
    case Poll(_) =>
    case Run =>
  }

  lemma LockAt(run: seq<State>, threads: nat, k: nat)
    requires IsRun(run, threads) && k < |run|
    ensures LockInv(run[k])
  {
    RunInv(run, threads, k);
  }

  lemma NextKeepsExact(s: State, s': State)
    requires LockInv(s) && Exact(s) && Next(s, s')
    ensures Exact(s')
  {
    var a :| Enabled(s, a) && s' == Apply(s, a);
    StepKeepsExact(s, a);
  }

  lemma {:induction false} RunExact(run: seq<State>, threads: nat, k: nat)
    requires IsRun(run, threads) && k < |run|
    ensures Exact(run[k])
  {
    if k > 0 {
      RunExact(run, threads, k - 1);
      LockAt(run, threads, k - 1);
      assert StepAt(run, k - 1);
      NextKeepsExact(run[k - 1], run[k]);
    }
  }

  /** The lock word says what is: the lock bit that somebody holds the lock, the flag that something is
      queued or being taken; and the driver never sleeps on work of its own. */
  lemma WordIsExact(run: seq<State>, threads: nat, k: nat)
    requires IsRun(run, threads) && k < |run|
    ensures run[k].lock <==> DriverHolds(run[k].driver) || Locked(run[k].posters)
    ensures run[k].nonempty ==> run[k].migrate != [] || run[k].closing != [] || run[k].driver.Unlocking?
    ensures Asleep(run[k]) ==> run[k].asap == []
  {
    RunExact(run, threads, k);
  }

  /** When the look at the lock word after announcing the wake descriptor lets the driver sleep, nothing
      is queued, and every later poster will find the descriptor. */
  lemma SleepStartsEmpty(run: seq<State>, threads: nat, k: nat)
    requires IsRun(run, threads) && k + 1 < |run| && run[k].driver.Rechecking?
    requires run[k + 1] == DriveStep(run[k]) && Asleep(run[k + 1])
    ensures !Pending(run[k + 1]) && run[k + 1].armed
  {
    RunInv(run, threads, k);
  }
}
