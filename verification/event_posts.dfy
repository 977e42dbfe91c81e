/** What a trigger owes to coroutines: posts to their drivers, and the one a driver claims for itself. */
module EventPosts {
  import opened Basics
  import opened EventGraph

  // Posts

  /** Each driver with a coroutine on a triggered event has exactly one post of it, and nothing else is
      posted. Events in `unposted` are about to be; pairs in `silent` were left to their driver. */
  ghost predicate PostsOk(bs: seq<Body>, posts: seq<Post>, unposted: set<nat>, silent: set<Post>) {
    && (forall x :: x in unposted ==> x < |bs| && bs[x].triggered)
    && (forall p :: p in silent ==> p.event < |bs| && bs[p.event].triggered)
    && (forall d: nat, x: nat :: PostOk(bs, posts, unposted, silent, d, x))
  }

  ghost predicate PostOk(bs: seq<Body>, posts: seq<Post>, unposted: set<nat>, silent: set<Post>, d: nat, x: nat) {
    var n := multiset(posts)[Post(d, x)];
    && n <= 1
    && (n == 1 <==> && x < |bs| && bs[x].triggered && x !in unposted && Post(d, x) !in silent
                    && d in Homes(bs[x].listeners))
  }

  lemma SameHomes(a: seq<Listener>, b: seq<Listener>)
    requires SameCoroutines(a, b)
    ensures Homes(a) == Homes(b)
  {
    forall l: Listener | l.Coroutine? ensures l in a <==> l in b {
      assert l in a <==> l in multiset(a);
      assert l in b <==> l in multiset(b);
      assert multiset(a)[Coroutine(l.id, l.home)] == multiset(b)[Coroutine(l.id, l.home)];
    }
  }

  lemma PostsKept(bs: seq<Body>, bs': seq<Body>, posts: seq<Post>, unposted: set<nat>, silent: set<Post>)
    requires PostsOk(bs, posts, unposted, silent) && Evolves(bs, bs')
    requires forall e :: 0 <= e < |bs| ==> bs'[e].triggered == bs[e].triggered
    ensures PostsOk(bs', posts, unposted, silent)
  {
    forall d: nat, x: nat ensures PostOk(bs', posts, unposted, silent, d, x) {
      assert PostOk(bs, posts, unposted, silent, d, x);
      if x < |bs| {
        assert EvolvesAt(bs, bs', x);
        SameHomes(bs[x].listeners, bs'[x].listeners);
      }
    }
  }

  lemma PostsMark(
    bs: seq<Body>, bs': seq<Body>, posts: seq<Post>, unposted: set<nat>, silent: set<Post>, x: nat, drv: Option<nat>)
    requires PostsOk(bs, posts, unposted, silent) && x < |bs| && !bs[x].triggered
    requires |bs'| == |bs| && bs' == bs[x := bs'[x]] && bs'[x].triggered
    ensures PostsOk(bs', posts, unposted + {x}, silent + Silence(drv, x))
  {
    forall d: nat, y: nat ensures PostOk(bs', posts, unposted + {x}, silent + Silence(drv, x), d, y) {
      assert PostOk(bs, posts, unposted, silent, d, y);
    }
  }

  /** A driver that triggers `x` itself gets no post of it. */
  ghost function Silence(drv: Option<nat>, x: nat): set<Post> {
    if drv.Some? then {Post(drv.value, x)} else {}
  }

  /** Posting `x` to each of the distinct drivers in `ds`. */
  function PostAll(ds: seq<nat>, x: nat): seq<Post> {
    if ds == [] then [] else PostAll(ds[..|ds| - 1], x) + [Post(ds[|ds| - 1], x)]
  }

  lemma {:induction false} PostAllCount(ds: seq<nat>, x: nat, d: nat, y: nat)
    requires forall i, j :: 0 <= i < j < |ds| ==> ds[i] != ds[j]
    ensures multiset(PostAll(ds, x))[Post(d, y)] == if y == x && d in ds then 1 else 0
  {
    if ds != [] {
      var init := ds[..|ds| - 1];
      PostAllCount(init, x, d, y);
      assert d in ds <==> d in init || d == ds[|ds| - 1];
    }
  }

  lemma PostsAdd(bs: seq<Body>, posts: seq<Post>, unposted: set<nat>, silent: set<Post>, x: nat, ds: seq<nat>)
    requires PostsOk(bs, posts, unposted, silent) && x in unposted
    requires forall i, j :: 0 <= i < j < |ds| ==> ds[i] != ds[j]
    requires forall d :: d in ds <==> d in Homes(bs[x].listeners) && Post(d, x) !in silent
    ensures PostsOk(bs, posts + PostAll(ds, x), unposted - {x}, silent)
  {
    forall d: nat, y: nat ensures PostOk(bs, posts + PostAll(ds, x), unposted - {x}, silent, d, y) {
      assert PostOk(bs, posts, unposted, silent, d, y);
      PostAllCount(ds, x, d, y);
      assert multiset(posts + PostAll(ds, x)) == multiset(posts) + multiset(PostAll(ds, x));
    }
  }

  // Claims

  /** The coroutine in the slot of a triggering driver, and the event on whose list it was. */
  datatype Claim = Claim(id: nat, home: nat, event: nat)

  /** What a cascade moves: listed coroutines, the claim slot, and pairs left to the driver. */
  datatype Snap = Snap(bodies: seq<Body>, coh: Option<Claim>, silent: set<Post>)

  ghost predicate Newly(bs: seq<Body>, bs': seq<Body>, e: nat) {
    e < |bs| == |bs'| && !bs[e].triggered && bs'[e].triggered
  }

  /** How often a coroutine is on the list of `e`, or claimed from it. */
  ghost function Held(s: Snap, e: nat, id: nat, home: nat): nat
    requires e < |s.bodies|
  {
    multiset(s.bodies[e].listeners)[Coroutine(id, home)] + if s.coh == Some(Claim(id, home, e)) then 1 else 0
  }

  ghost predicate HeldSame(s: Snap, t: Snap, e: nat)
    requires e < |s.bodies| == |t.bodies|
  {
    forall id: nat, home: nat :: Held(s, e, id, home) == Held(t, e, id, home)
  }

  /** A cascade started by driver `drv`, or by none: no coroutine is lost but for the one claimed; pairs
      become silent exactly for `drv` and what triggered; a claim is made once, and if it can be. */
  ghost predicate Cascades(drv: Option<nat>, s: Snap, t: Snap) {
    && Evolves(s.bodies, t.bodies)
    && (forall e: nat | e < |s.bodies| :: HeldSame(s, t, e))
    && (forall p: Post :: SilentAt(drv, s, t, p))
    && (s.coh.Some? || drv.None? ==> t.coh == s.coh)
    && (s.coh.None? && t.coh.Some? ==>
          drv == Some(t.coh.value.home) && Newly(s.bodies, t.bodies, t.coh.value.event))
    && (t.coh.None? && drv.Some? ==> forall e: nat :: Unclaimed(drv.value, s.bodies, t.bodies, e))
  }

  ghost predicate SilentAt(drv: Option<nat>, s: Snap, t: Snap, p: Post) {
    p in t.silent <==> p in s.silent || (drv == Some(p.driver) && Newly(s.bodies, t.bodies, p.event))
  }

  ghost predicate Unclaimed(d: nat, bs: seq<Body>, bs': seq<Body>, e: nat) {
    Newly(bs, bs', e) ==> d !in Homes(bs[e].listeners)
  }

  /** A claim is made from `x` if it can be. */
  ghost predicate ClaimsFirst(drv: Option<nat>, s: Snap, t: Snap, x: nat)
    requires x < |s.bodies|
  {
    s.coh.None? && drv.Some? && drv.value in Homes(s.bodies[x].listeners) ==>
      t.coh.Some? && t.coh.value.event == x
  }

  lemma ClaimStays(drv: Option<nat>, s: Snap, t: Snap, u: Snap, x: nat)
    requires x < |s.bodies| && ClaimsFirst(drv, s, t, x) && Cascades(drv, t, u)
    ensures ClaimsFirst(drv, s, u, x)
  {
  }

  lemma CulledClaims(drv: Option<nat>, s: Snap, t: Snap, u: Snap, x: nat)
    requires Evolves(s.bodies, t.bodies) && t.coh == s.coh && x < |s.bodies| && ClaimsFirst(drv, t, u, x)
    requires s.bodies[x].triggered == t.bodies[x].triggered
    ensures ClaimsFirst(drv, s, u, x)
  {
    assert EvolvesAt(s.bodies, t.bodies, x);
    SameHomes(s.bodies[x].listeners, t.bodies[x].listeners);
  }

  lemma NewlyChains(bs: seq<Body>, bs1: seq<Body>, bs2: seq<Body>, e: nat)
    requires Evolves(bs, bs1) && Evolves(bs1, bs2)
    ensures Newly(bs, bs2, e) <==> Newly(bs, bs1, e) || Newly(bs1, bs2, e)
    ensures Newly(bs1, bs2, e) ==> Homes(bs[e].listeners) == Homes(bs1[e].listeners)
  {
    if e < |bs| {
      assert EvolvesAt(bs, bs1, e) && EvolvesAt(bs1, bs2, e);
      if Newly(bs1, bs2, e) {
        SameHomes(bs[e].listeners, bs1[e].listeners);
      }
    }
  }

  lemma CascadesChains(drv: Option<nat>, s: Snap, t: Snap, u: Snap)
    requires Cascades(drv, s, t) && Cascades(drv, t, u)
    ensures Cascades(drv, s, u)
  {
    EvolvesTransitive(s.bodies, t.bodies, u.bodies);
    forall e: nat | e < |s.bodies| ensures HeldSame(s, u, e) {
      assert HeldSame(s, t, e) && HeldSame(t, u, e);
    }
    forall p: Post ensures SilentAt(drv, s, u, p) {
      assert SilentAt(drv, s, t, p) && SilentAt(drv, t, u, p);
      NewlyChains(s.bodies, t.bodies, u.bodies, p.event);
    }
    forall e: nat
      ensures Newly(s.bodies, u.bodies, e) <==> Newly(s.bodies, t.bodies, e) || Newly(t.bodies, u.bodies, e)
    {
      NewlyChains(s.bodies, t.bodies, u.bodies, e);
    }
    if u.coh.None? && drv.Some? {
      forall e: nat ensures Unclaimed(drv.value, s.bodies, u.bodies, e) {
        NewlyChains(s.bodies, t.bodies, u.bodies, e);
        assert Unclaimed(drv.value, s.bodies, t.bodies, e) && Unclaimed(drv.value, t.bodies, u.bodies, e);
      }
    }
  }

  /** Nothing triggers: nothing is claimed or left silent. */
  lemma CascadesQuietly(drv: Option<nat>, s: Snap, t: Snap)
    requires Evolves(s.bodies, t.bodies) && t.coh == s.coh && t.silent == s.silent
    requires forall e :: 0 <= e < |s.bodies| ==> t.bodies[e].triggered == s.bodies[e].triggered
    ensures Cascades(drv, s, t)
  {
    forall e: nat | e < |s.bodies| ensures HeldSame(s, t, e) {
      assert EvolvesAt(s.bodies, t.bodies, e);
    }
    forall p: Post ensures SilentAt(drv, s, t, p) {}
    forall e: nat ensures !Newly(s.bodies, t.bodies, e) {}
  }

  lemma CascadesNowhere(drv: Option<nat>, s: Snap)
    ensures Cascades(drv, s, s)
  {
    forall e | 0 <= e < |s.bodies| ensures EvolvesAt(s.bodies, s.bodies, e) {}
    CascadesQuietly(drv, s, s);
  }

  /** The driver that claims, unless it has claimed already. */
  function Claimant(drv: Option<nat>, coh: Option<Claim>): Option<nat> {
    if coh.None? then drv else None
  }

  /** The slot after the listeners `ls` of event `x` have been looked through. */
  function Claimed(ls: seq<Listener>, drv: Option<nat>, coh: Option<Claim>, x: nat): Option<Claim> {
    var id := ClaimOf(ls, Claimant(drv, coh));
    if id.Some? && drv.Some? then Some(Claim(id.value, drv.value, x)) else coh
  }

  /** Marking one event. */
  lemma CascadesMark(drv: Option<nat>, s: Snap, t: Snap, x: nat)
    requires x < |s.bodies| && !s.bodies[x].triggered
    requires t == Snap(
                    Mark(s.bodies, x, Claimant(drv, s.coh)),
                    Claimed(s.bodies[x].listeners, drv, s.coh, x),
                    s.silent + Silence(drv, x))
    requires Evolves(s.bodies, t.bodies)
    ensures Cascades(drv, s, t)
    ensures ClaimsFirst(drv, s, t, x)
  {
    var ls := s.bodies[x].listeners;
    ClaimExists(ls, Claimant(drv, s.coh));
    forall id: nat, home: nat ensures Held(s, x, id, home) == Held(t, x, id, home) {
      MarkHeld(ls, drv, s.coh, x, id, home);
    }
    CascadesOne(drv, s, t, x);
  }

  lemma CascadesOne(drv: Option<nat>, s: Snap, t: Snap, x: nat)
    requires Evolves(s.bodies, t.bodies) && x < |s.bodies| && !s.bodies[x].triggered && t.bodies[x].triggered
    requires forall e | 0 <= e < |s.bodies| && e != x :: t.bodies[e] == s.bodies[e]
    requires HeldSame(s, t, x) && ClaimsFirst(drv, s, t, x) && t.silent == s.silent + Silence(drv, x)
    requires t.coh == s.coh || (s.coh.None? && t.coh.Some? && drv == Some(t.coh.value.home) && t.coh.value.event == x)
    ensures Cascades(drv, s, t)
  {
    forall e: nat | e < |s.bodies| ensures HeldSame(s, t, e) {}
    forall e: nat ensures Newly(s.bodies, t.bodies, e) <==> e == x {}
    forall p: Post ensures SilentAt(drv, s, t, p) {}
  }

  /** What the slot gains, the list of `x` loses. */
  lemma MarkHeld(ls: seq<Listener>, drv: Option<nat>, coh: Option<Claim>, x: nat, id: nat, home: nat)
    ensures var l, c' := Coroutine(id, home), Claimed(ls, drv, coh, x);
            multiset(ls)[l] + (if coh == Some(Claim(id, home, x)) then 1 else 0) ==
            multiset(KeptOf(ls, Claimant(drv, coh)))[l] + (if c' == Some(Claim(id, home, x)) then 1 else 0)
  {
    ClaimExists(ls, Claimant(drv, coh));
    KeptCount(ls, Claimant(drv, coh), Coroutine(id, home));
  }

  /** A cascade that no driver started loses no coroutine and leaves none silent. */
  lemma CascadesByNobody(s: Snap, t: Snap)
    requires Cascades(None, s, t)
    ensures SameListed(s.bodies, t.bodies) && t.silent == s.silent && t.coh == s.coh
  {
    forall e | 0 <= e < |s.bodies| ensures SameCoroutines(s.bodies[e].listeners, t.bodies[e].listeners) {
      assert HeldSame(s, t, e);
      forall id: nat, home: nat
        ensures multiset(s.bodies[e].listeners)[Coroutine(id, home)] ==
                multiset(t.bodies[e].listeners)[Coroutine(id, home)]
      {
        assert Held(s, e, id, home) == Held(t, e, id, home);
      }
    }
    forall p: Post ensures p in t.silent <==> p in s.silent {
      assert SilentAt(None, s, t, p);
    }
  }

  // Coroutines wait in one place

  ghost predicate Listed(bs: seq<Body>, id: nat) {
    exists e, l :: 0 <= e < |bs| && ListedAt(bs, e, l) && l.id == id
  }

  /** No coroutine is listed twice. */
  ghost predicate Once(bs: seq<Body>) {
    && (forall e, l | 0 <= e < |bs| && ListedAt(bs, e, l) :: multiset(bs[e].listeners)[l] == 1)
    && (forall e, f, l, m | 0 <= e < |bs| && 0 <= f < |bs| && ListedAt(bs, e, l) && ListedAt(bs, f, m)
      && l.id == m.id ::
          e == f && l == m)
  }

  ghost predicate ListedAt(bs: seq<Body>, e: nat, l: Listener)
    requires e < |bs|
  {
    l.Coroutine? && l in bs[e].listeners
  }

  /** Listener lists hold the same coroutines. */
  ghost predicate SameListed(bs: seq<Body>, bs': seq<Body>) {
    |bs| == |bs'| && forall e :: 0 <= e < |bs| ==> SameCoroutines(bs[e].listeners, bs'[e].listeners)
  }

  lemma SameListedChains(bs: seq<Body>, bs1: seq<Body>, bs2: seq<Body>)
    requires SameListed(bs, bs1) && SameListed(bs1, bs2)
    ensures SameListed(bs, bs2)
  {
  }

  lemma SameMembers(a: seq<Listener>, b: seq<Listener>, l: Listener)
    requires SameCoroutines(a, b) && l.Coroutine?
    ensures l in a <==> l in b
    ensures multiset(a)[l] == multiset(b)[l]
  {
    assert l == Coroutine(l.id, l.home);
    assert l in a <==> l in multiset(a);
    assert l in b <==> l in multiset(b);
  }

  lemma OnceSame(bs: seq<Body>, bs': seq<Body>)
    requires Once(bs) && SameListed(bs, bs')
    ensures Once(bs')
  {
    forall e, l | 0 <= e < |bs| && ListedAt(bs', e, l)
      ensures ListedAt(bs, e, l) && multiset(bs'[e].listeners)[l] == multiset(bs[e].listeners)[l]
    {
      SameMembers(bs[e].listeners, bs'[e].listeners, l);
    }
  }

  lemma OnceAppend(bs: seq<Body>, b: Body)
    requires Once(bs) && Blank(b)
    ensures Once(bs + [b])
  {
    forall e, l | 0 <= e < |bs + [b]| && ListedAt(bs + [b], e, l) ensures e < |bs| && ListedAt(bs, e, l) {}
  }
}
