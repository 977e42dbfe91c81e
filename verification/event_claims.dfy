/** Which coroutines a trigger by a driver resumes. A driver that triggers an event is not posted what the
    cascade triggers; it claims one coroutine, and then runs those of its own on the event itself. */
module EventClaims {
  import opened Basics
  import opened EventGraph
  import opened EventPosts

  /** Coroutine `id` of driver `d` waits on event `e`, which has triggered. */
  ghost predicate Waits(bs: seq<Body>, e: nat, d: nat, id: nat) {
    e < |bs| && bs[e].triggered && ListedAt(bs, e, Coroutine(id, d))
  }

  /** It waits for a post that is under way. */
  ghost predicate Due(bs: seq<Body>, silent: set<Post>, d: nat, id: nat) {
    exists e: nat :: Waits(bs, e, d, id) && Post(d, e) !in silent
  }

  /** It waits on an event that has triggered, and no post of it was made. */
  ghost predicate Stranded(bs: seq<Body>, silent: set<Post>, d: nat, id: nat) {
    exists e: nat :: Waits(bs, e, d, id) && Post(d, e) in silent
  }

  /** A stranded coroutine is still stranded. */
  ghost predicate StillStranded(bs: seq<Body>, silent: set<Post>, bs': seq<Body>, silent': set<Post>) {
    forall d: nat, id: nat :: Stranded(bs, silent, d, id) ==> Stranded(bs', silent', d, id)
  }

  /** Lists keep their coroutines, and only grow at the end. */
  lemma StrandedStays(bs: seq<Body>, bs': seq<Body>, silent: set<Post>)
    requires |bs| <= |bs'| && SameListed(bs, bs'[..|bs|])
    requires forall e :: 0 <= e < |bs| && bs[e].triggered ==> bs'[e].triggered
    ensures StillStranded(bs, silent, bs', silent)
  {
    forall d: nat, id: nat | Stranded(bs, silent, d, id) ensures Stranded(bs', silent, d, id) {
      var e: nat :| Waits(bs, e, d, id) && Post(d, e) in silent;
      SameMembers(bs[e].listeners, bs'[..|bs|][e].listeners, Coroutine(id, d));
      assert Waits(bs', e, d, id);
    }
  }

  // What one more trigger reaches

  /** The events that triggering `x` triggers, by the threshold formula. */
  ghost function Reached(bs: seq<Body>, explicit: set<nat>, x: nat): set<nat>
    requires Ordered(bs)
  {
    set e | 0 <= e < |bs| && !bs[e].triggered && Meaning(bs, explicit + {x}, e)
  }

  /** Coroutine `id` of driver `d` is on event `e`, one of those reached. */
  ghost predicate WokenAt(bs: seq<Body>, reached: set<nat>, e: nat, d: nat, id: nat) {
    e < |bs| && e in reached && ListedAt(bs, e, Coroutine(id, d))
  }

  ghost predicate Woken(bs: seq<Body>, reached: set<nat>, d: nat, id: nat) {
    exists e: nat :: WokenAt(bs, reached, e, d, id)
  }

  /** All coroutines of driver `d` that are reached are on `x` itself, or there is at most one. */
  ghost predicate Served(bs: seq<Body>, reached: set<nat>, x: nat, d: nat) {
    || (forall e: nat, id: nat | WokenAt(bs, reached, e, d, id) :: e == x)
    || (forall e: nat, f: nat, i: nat, j: nat | WokenAt(bs, reached, e, d, i) && WokenAt(bs, reached, f, d, j) ::
          i == j)
  }

  lemma NewlyIsReached(bs: seq<Body>, bs': seq<Body>, explicit: set<nat>, x: nat, e: nat)
    requires Inv(bs, multiset{}, explicit, -1) && Inv(bs', multiset{}, explicit + {x}, -1) && Evolves(bs, bs')
    ensures Newly(bs, bs', e) <==> e in Reached(bs, explicit, x)
  {
    if e < |bs| {
      forall i | 0 <= i <= e ensures SameFormula(bs[i], bs'[i]) {
        assert EvolvesAt(bs, bs', i);
      }
      MeaningSame(bs, bs', explicit + {x}, e);
      TriggeredMeans(bs', explicit + {x}, e);
    }
  }

  // A driver triggers `x`, from `s` to `t`, and then runs its coroutines on `x`, up to `u`

  /** What the driver resumed: the claimed coroutine, then those left on `x`. */
  ghost predicate Ran(s: Snap, t: Snap, u: seq<Body>, x: nat, d: nat, resumed: seq<nat>) {
    && Cascades(Some(d), s, t) && s.coh.None? && x < |s.bodies| && Newly(s.bodies, t.bodies, x)
    && ClaimsFirst(Some(d), s, t, x)
    && |u| == |t.bodies| && u == t.bodies[x := t.bodies[x].(listeners := u[x].listeners)]
    && WithoutHome(t.bodies[x].listeners, u[x].listeners, d)
    && forall id: nat :: multiset(resumed)[id] == RunCount(t, x, d, id)
  }

  ghost function RunCount(t: Snap, x: nat, d: nat, id: nat): nat
    requires x < |t.bodies|
  {
    (if t.coh.Some? && t.coh.value.id == id then 1 else 0) + multiset(t.bodies[x].listeners)[Coroutine(id, d)]
  }

  ghost predicate WithoutHome(a: seq<Listener>, b: seq<Listener>, d: nat) {
    forall l :: WithoutHomeAt(a, b, d, l)
  }

  ghost predicate WithoutHomeAt(a: seq<Listener>, b: seq<Listener>, d: nat, l: Listener) {
    multiset(b)[l] == if l.Coroutine? && l.home == d then 0 else multiset(a)[l]
  }

  lemma CountListed(bs: seq<Body>, e: nat, id: nat, d: nat)
    requires Once(bs) && e < |bs|
    ensures multiset(bs[e].listeners)[Coroutine(id, d)] == if ListedAt(bs, e, Coroutine(id, d)) then 1 else 0
  {
    assert Coroutine(id, d) in bs[e].listeners <==> Coroutine(id, d) in multiset(bs[e].listeners);
  }

  /** The claimed coroutine was on a list of a reached event; if not on that of `x`, then `x` had none. */
  lemma ClaimWasListed(s: Snap, t: Snap, u: seq<Body>, x: nat, d: nat, resumed: seq<nat>)
    requires Ran(s, t, u, x, d, resumed) && Once(s.bodies) && t.coh.Some?
    ensures var c := t.coh.value; c.home == d && Newly(s.bodies, t.bodies, c.event)
    ensures var c := t.coh.value; ListedAt(s.bodies, c.event, Coroutine(c.id, d))
    ensures t.coh.value.event != x ==> d !in Homes(s.bodies[x].listeners)
  {
    var c := t.coh.value;
    assert HeldSame(s, t, c.event);
    assert Held(s, c.event, c.id, d) == Held(t, c.event, c.id, d);
    CountListed(s.bodies, c.event, c.id, d);
  }

  /** A coroutine is resumed once, exactly if it was on `x` or was claimed. */
  lemma ResumedExactly(s: Snap, t: Snap, u: seq<Body>, x: nat, d: nat, resumed: seq<nat>, id: nat)
    requires Ran(s, t, u, x, d, resumed) && Once(s.bodies)
    ensures multiset(resumed)[id] <= 1
    ensures id in resumed <==> ListedAt(s.bodies, x, Coroutine(id, d)) || (t.coh.Some? && t.coh.value.id == id)
  {
    assert HeldSame(s, t, x);
    assert Held(s, x, id, d) == Held(t, x, id, d);
    CountListed(s.bodies, x, id, d);
    assert multiset(resumed)[id] == RunCount(t, x, d, id);
    assert id in resumed <==> id in multiset(resumed);
    if t.coh.Some? {
      ClaimWasListed(s, t, u, x, d, resumed);
      if t.coh.value.id == id && t.coh.value.event != x {
        assert !ListedAt(s.bodies, x, Coroutine(id, d));
      }
    }
  }

  /** Whatever was resumed was woken. */
  lemma ResumedWoken(s: Snap, t: Snap, u: seq<Body>, x: nat, d: nat, resumed: seq<nat>, id: nat) returns (e: nat)
    requires Ran(s, t, u, x, d, resumed) && Once(s.bodies) && id in resumed
    ensures Newly(s.bodies, t.bodies, e) && ListedAt(s.bodies, e, Coroutine(id, d))
  {
    ResumedExactly(s, t, u, x, d, resumed, id);
    e := x;
    if t.coh.Some? && t.coh.value.id == id {
      ClaimWasListed(s, t, u, x, d, resumed);
      e := t.coh.value.event;
    }
  }

  /** Exactly the resumed coroutines have left the lists. */
  lemma ListedAfter(s: Snap, t: Snap, u: seq<Body>, x: nat, d: nat, resumed: seq<nat>, e: nat, h: nat, id: nat)
    requires Ran(s, t, u, x, d, resumed) && Once(s.bodies) && e < |s.bodies|
    ensures ListedAt(u, e, Coroutine(id, h)) <==>
            ListedAt(s.bodies, e, Coroutine(id, h)) && !(h == d && id in resumed)
    ensures multiset(u[e].listeners)[Coroutine(id, h)] <= multiset(s.bodies[e].listeners)[Coroutine(id, h)]
  {
    var l := Coroutine(id, h);
    assert HeldSame(s, t, e);
    assert Held(s, e, id, h) == Held(t, e, id, h);
    CountListed(s.bodies, e, id, h);
    assert l in u[e].listeners <==> l in multiset(u[e].listeners);
    if e == x {
      assert WithoutHomeAt(t.bodies[x].listeners, u[x].listeners, d, l);
    }
    ResumedExactly(s, t, u, x, d, resumed, id);
    if t.coh.Some? {
      ClaimWasListed(s, t, u, x, d, resumed);
    }
  }

  lemma OnceAfter(s: Snap, t: Snap, u: seq<Body>, x: nat, d: nat, resumed: seq<nat>)
    requires Ran(s, t, u, x, d, resumed) && Once(s.bodies)
    ensures Once(u)
  {
    forall e, l | 0 <= e < |u| && ListedAt(u, e, l)
      ensures ListedAt(s.bodies, e, l) && multiset(u[e].listeners)[l] == 1
    {
      ListedAfter(s, t, u, x, d, resumed, e, l.home, l.id);
      assert l == Coroutine(l.id, l.home) && l in multiset(u[e].listeners);
      CountListed(s.bodies, e, l.id, l.home);
    }
  }

  /** What the run of `x` by driver `d` means, for a coroutine `id` of any driver `h`: of those woken, the
      ones of other drivers are due, and those of `d` are resumed or stranded. */
  ghost predicate Outcome(
    bs: seq<Body>, silent: set<Post>, reached: set<nat>, bs': seq<Body>, silent': set<Post>, d: nat,
    resumed: seq<nat>, h: nat, id: nat) {
    && (Due(bs', silent', h, id) <==> Due(bs, silent, h, id) || (h != d && Woken(bs, reached, h, id)))
    && (Stranded(bs', silent', h, id) <==>
        Stranded(bs, silent, h, id) || (h == d && Woken(bs, reached, d, id) && id !in resumed))
  }

  /** Driver `d` has triggered `x` and run: exactly the events reached have triggered, coroutines were
      resumed at most once, and all of those on `x`; every woken coroutine of `d` was resumed exactly if
      they were served. */
  ghost predicate RunMeans(
    bs: seq<Body>, silent: set<Post>, reached: set<nat>, bs': seq<Body>, silent': set<Post>, x: nat, d: nat,
    resumed: seq<nat>) {
    && |bs'| == |bs| && x < |bs|
    && (forall e :: 0 <= e < |bs| ==> (bs'[e].triggered <==> bs[e].triggered || e in reached))
    && (forall id: nat :: multiset(resumed)[id] <= 1)
    && (forall id: nat :: id in resumed ==> Woken(bs, reached, d, id))
    && (forall id: nat :: ListedAt(bs, x, Coroutine(id, d)) ==> id in resumed)
    && (forall h: nat, id: nat :: Outcome(bs, silent, reached, bs', silent', d, resumed, h, id))
    && ((forall id: nat | Woken(bs, reached, d, id) :: id in resumed) <==> Served(bs, reached, x, d))
  }

  lemma WaitsAfter(
    s: Snap, t: Snap, u: seq<Body>, x: nat, d: nat, resumed: seq<nat>, reached: set<nat>, e: nat, h: nat, id: nat)
    requires Ran(s, t, u, x, d, resumed) && Once(s.bodies)
    requires forall f: nat :: f in reached <==> Newly(s.bodies, t.bodies, f)
    ensures Waits(u, e, h, id) <==>
            Waits(s.bodies, e, h, id) || (WokenAt(s.bodies, reached, e, h, id) && !(h == d && id in resumed))
  {
    if e < |u| {
      assert EvolvesAt(s.bodies, t.bodies, e);
      ListedAfter(s, t, u, x, d, resumed, e, h, id);
      if h == d && id in resumed {
        var f := ResumedWoken(s, t, u, x, d, resumed, id);
        assert ListedAt(s.bodies, e, Coroutine(id, h)) ==> e == f;
      }
    }
  }

  lemma OutcomeHolds(
    s: Snap, t: Snap, u: seq<Body>, x: nat, d: nat, resumed: seq<nat>, reached: set<nat>, silent': set<Post>,
    h: nat, id: nat)
    requires Ran(s, t, u, x, d, resumed) && Once(s.bodies)
    requires forall f: nat :: f in reached <==> Newly(s.bodies, t.bodies, f)
    requires silent' == t.silent - {Post(d, x)}
    requires forall p :: p in s.silent ==> p.event < |s.bodies| && s.bodies[p.event].triggered
    ensures Outcome(s.bodies, s.silent, reached, u, silent', d, resumed, h, id)
  {
    forall e: nat
      ensures Waits(u, e, h, id) <==>
              Waits(s.bodies, e, h, id) || (WokenAt(s.bodies, reached, e, h, id) && !(h == d && id in resumed))
      ensures Waits(u, e, h, id) ==>
                (Post(h, e) in silent' <==> Post(h, e) in s.silent || (h == d && e in reached))
    {
      WaitsAfter(s, t, u, x, d, resumed, reached, e, h, id);
      assert SilentAt(Some(d), s, t, Post(h, e));
      if e == x && h == d && Waits(u, x, d, id) {
        ListedAfter(s, t, u, x, d, resumed, x, d, id);
        ResumedExactly(s, t, u, x, d, resumed, id);
      }
    }
  }

  /** The driver resumes all its own woken coroutines exactly if they are served. */
  lemma AllResumedExactly(
    s: Snap, t: Snap, u: seq<Body>, x: nat, d: nat, resumed: seq<nat>, reached: set<nat>)
    requires Ran(s, t, u, x, d, resumed) && Once(s.bodies)
    requires forall f: nat :: f in reached <==> Newly(s.bodies, t.bodies, f)
    ensures (forall id: nat | Woken(s.bodies, reached, d, id) :: id in resumed) <==> Served(s.bodies, reached, x, d)
  {
    if forall id: nat | Woken(s.bodies, reached, d, id) :: id in resumed {
      ServedIfResumed(s, t, u, x, d, resumed, reached);
    }
    if Served(s.bodies, reached, x, d) {
      forall id: nat | Woken(s.bodies, reached, d, id) ensures id in resumed {
        ResumedIfServed(s, t, u, x, d, resumed, reached, id);
      }
    }
  }

  lemma ServedIfResumed(s: Snap, t: Snap, u: seq<Body>, x: nat, d: nat, resumed: seq<nat>, reached: set<nat>)
    requires Ran(s, t, u, x, d, resumed) && Once(s.bodies)
    requires forall id: nat | Woken(s.bodies, reached, d, id) :: id in resumed
    ensures Served(s.bodies, reached, x, d)
  {
    if e: nat, id: nat :| WokenAt(s.bodies, reached, e, d, id) && e != x {
      assert Woken(s.bodies, reached, d, id);
      ResumedExactly(s, t, u, x, d, resumed, id);
      assert !ListedAt(s.bodies, x, Coroutine(id, d));
      ClaimWasListed(s, t, u, x, d, resumed);
      forall f: nat, j: nat | WokenAt(s.bodies, reached, f, d, j) ensures j == id {
        assert Woken(s.bodies, reached, d, j);
        ResumedExactly(s, t, u, x, d, resumed, j);
        assert Coroutine(j, d) !in s.bodies[x].listeners;
      }
    }
  }

  lemma ResumedIfServed(
    s: Snap, t: Snap, u: seq<Body>, x: nat, d: nat, resumed: seq<nat>, reached: set<nat>, id: nat)
    requires Ran(s, t, u, x, d, resumed) && Once(s.bodies)
    requires forall f: nat :: f in reached <==> Newly(s.bodies, t.bodies, f)
    requires Served(s.bodies, reached, x, d) && Woken(s.bodies, reached, d, id)
    ensures id in resumed
  {
    var e: nat :| WokenAt(s.bodies, reached, e, d, id);
    ResumedExactly(s, t, u, x, d, resumed, id);
    assert Coroutine(id, d) in s.bodies[e].listeners;
    assert d in Homes(s.bodies[e].listeners);
    assert Newly(s.bodies, t.bodies, e);
    assert t.coh.None? ==> Unclaimed(d, s.bodies, t.bodies, e);
    if e != x {
      ClaimWasListed(s, t, u, x, d, resumed);
      assert WokenAt(s.bodies, reached, t.coh.value.event, d, t.coh.value.id);
    }
  }
}
