/** Event bodies and quorum bodies as values: one record for each event, in creation order. */
module EventGraph {
  import opened Basics

  /** A listener is a suspended coroutine, which belongs to a driver, or a quorum. */
  datatype Listener = Coroutine(id: nat, home: nat) | Quorum(q: nat)

  /** `members` and `count` (`triggered_`) belong to quorums. `args` records what the quorum was
      built from, null handles included; only specifications read it. */
  datatype Body = Body(
    triggered: bool,
    listeners: seq<Listener>,
    isQuorum: bool,
    quorum: nat,
    members: seq<nat>,
    count: nat,
    args: seq<Option<nat>>)

  const PLAIN := Body(false, [], false, 0, [], 0, [])

  function EmptyQuorum(quorum: nat): Body { Body(false, [], true, quorum, [], 0, []) }

  /** An event posted to a driver, which will run the coroutines of that driver. */
  datatype Post = Post(driver: nat, event: nat)

  // Sequences used as bags: removal swaps the last element into the hole

  function SwapRemove<T>(s: seq<T>, k: nat): (r: seq<T>)
    requires k < |s|
    ensures |r| == |s| - 1
    ensures multiset(r) == multiset(s) - multiset{s[k]}
    ensures forall i :: 0 <= i < k ==> r[i] == s[i]
  {
    var last := |s| - 1;
    assert s == s[..last] + [s[last]];
    if k == last then s[..last]
    else
      assert s[..last] == s[..k] + [s[k]] + s[k + 1..last];
      var r := s[..last][k := s[last]];
      assert r == s[..k] + [s[last]] + s[k + 1..last];
      r
  }

  // The threshold formula

  predicate ArgFired(bs: seq<Body>, a: Option<nat>) {
    a.None? || (a.value < |bs| && bs[a.value].triggered)
  }

  /** How many of the arguments are null or have triggered, with multiplicity. */
  function Fired(bs: seq<Body>, args: seq<Option<nat>>): (n: nat)
    ensures n <= |args|
  {
    if args == [] then 0 else Fired(bs, args[..|args| - 1]) + if ArgFired(bs, args[|args| - 1]) then 1 else 0
  }

  // The invariant

  ghost function Listening(bs: seq<Body>, e: nat, q: nat): nat
    requires e < |bs|
  {
    multiset(bs[e].listeners)[Quorum(q)]
  }

  ghost function Membership(bs: seq<Body>, q: nat, e: nat): nat
    requires q < |bs|
  {
    multiset(bs[q].members)[e]
  }

  ghost function Arguments(bs: seq<Body>, q: nat, e: nat): nat
    requires q < |bs|
  {
    multiset(bs[q].args)[Some(e)]
  }

  /** Arguments are older than the quorum, so the graph has no cycles. */
  ghost predicate Ordered(bs: seq<Body>) {
    forall q :: 0 <= q < |bs| ==> OrderedAt(bs, q)
  }

  ghost predicate OrderedAt(bs: seq<Body>, q: nat)
    requires q < |bs|
  {
    && (forall a :: a in bs[q].args && a.Some? ==> a.value < q)
    && (forall e :: e in bs[q].members ==> e < q)
    && (forall l :: l in bs[q].listeners && l.Quorum? ==> q < l.q < |bs|)
    && (!bs[q].isQuorum ==> bs[q].args == [] && bs[q].members == [])
  }

  /** For untriggered events, the listener list and the member list agree, with multiplicity.
      A triggered event remains a member only while it has yet to tell the quorum. */
  ghost predicate Linked(bs: seq<Body>, pending: multiset<(nat, nat)>) {
    forall e, q :: 0 <= e < |bs| && 0 <= q < |bs| ==> LinkedAt(bs, pending, e, q)
  }

  ghost predicate LinkedAt(bs: seq<Body>, pending: multiset<(nat, nat)>, e: nat, q: nat)
    requires e < |bs| && q < |bs|
  {
    if bs[e].triggered then
      Listening(bs, e, q) == 0 && Membership(bs, q, e) == pending[(e, q)]
    else
      Listening(bs, e, q) == Membership(bs, q, e) && pending[(e, q)] == 0
  }

  /** An untriggered quorum has every untriggered argument as a member, has counted the other
      arguments, and has not reached its threshold. Quorum `x` is in the middle of a change. */
  ghost predicate Counting(bs: seq<Body>, x: int) {
    forall q :: 0 <= q < |bs| && q != x && bs[q].isQuorum && !bs[q].triggered ==>
                  CountsMembers(bs, q) && bs[q].count < bs[q].quorum
  }

  ghost predicate CountsMembers(bs: seq<Body>, q: nat)
    requires q < |bs|
  {
    && |bs[q].members| + bs[q].count == |bs[q].args|
    && forall e :: 0 <= e < |bs| && !bs[e].triggered ==> Membership(bs, q, e) == Arguments(bs, q, e)
  }

  /** A triggered quorum keeps only members that have yet to tell it that they triggered. */
  ghost predicate Culled(bs: seq<Body>, q: nat)
    requires q < |bs|
  {
    forall e :: e in bs[q].members ==> e < |bs| && bs[e].triggered
  }

  /** Nothing triggers without cause. */
  ghost predicate Caused(bs: seq<Body>, explicit: set<nat>) {
    forall q :: 0 <= q < |bs| && bs[q].triggered ==>
                  q in explicit || (bs[q].isQuorum && Fired(bs, bs[q].args) >= bs[q].quorum)
  }

  ghost predicate Inv(bs: seq<Body>, pending: multiset<(nat, nat)>, explicit: set<nat>, x: int) {
    && Ordered(bs) && Linked(bs, pending) && Counting(bs, x) && Caused(bs, explicit)
    && (forall e :: e in explicit ==> e < |bs| && bs[e].triggered)
    && (forall q :: 0 <= q < |bs| && bs[q].triggered ==> Culled(bs, q))
  }

  // What a cascade may change

  ghost predicate SameCoroutines(a: seq<Listener>, b: seq<Listener>) {
    forall id: nat, home: nat :: multiset(a)[Coroutine(id, home)] == multiset(b)[Coroutine(id, home)]
  }

  /** A body keeps its formula, stays triggered, and keeps its coroutines except when it triggers. */
  ghost predicate EvolvesAt(bs: seq<Body>, bs': seq<Body>, e: nat)
    requires e < |bs| == |bs'|
  {
    && bs'[e].isQuorum == bs[e].isQuorum && bs'[e].quorum == bs[e].quorum && bs'[e].args == bs[e].args
    && (bs[e].triggered ==> bs'[e].triggered)
    && (bs[e].triggered == bs'[e].triggered ==> SameCoroutines(bs[e].listeners, bs'[e].listeners))
  }

  ghost predicate Evolves(bs: seq<Body>, bs': seq<Body>) {
    |bs| == |bs'| && forall e :: 0 <= e < |bs| ==> EvolvesAt(bs, bs', e)
  }

  lemma EvolvesTransitive(a: seq<Body>, b: seq<Body>, c: seq<Body>)
    requires Evolves(a, b) && Evolves(b, c)
    ensures Evolves(a, c)
  {
    forall e | 0 <= e < |a| ensures EvolvesAt(a, c, e) {
      assert EvolvesAt(a, b, e) && EvolvesAt(b, c, e);
    }
  }

  lemma {:induction false} FiredGrows(bs: seq<Body>, bs': seq<Body>, args: seq<Option<nat>>)
    requires |bs| <= |bs'| && forall e :: 0 <= e < |bs| && bs[e].triggered ==> bs'[e].triggered
    ensures Fired(bs, args) <= Fired(bs', args)
  {
    if args != [] {
      FiredGrows(bs, bs', args[..|args| - 1]);
    }
  }

  // Meaning

  /** Whether event `e` has triggered, from the formula alone: explicitly, or because enough
      arguments have. */
  ghost predicate Meaning(bs: seq<Body>, explicit: set<nat>, e: nat)
    requires Ordered(bs) && e < |bs|
    decreases e, 1, 0
  {
    e in explicit
      || (bs[e].isQuorum && (assert OrderedAt(bs, e); MeaningCount(bs, explicit, e, bs[e].args)) >= bs[e].quorum)
  }

  ghost function MeaningCount(bs: seq<Body>, explicit: set<nat>, e: nat, args: seq<Option<nat>>): nat
    requires Ordered(bs) && e < |bs| && forall a :: a in args && a.Some? ==> a.value < e
    decreases e, 0, |args|
  {
    if args == [] then 0
    else
      var a := args[|args| - 1];
      MeaningCount(bs, explicit, e, args[..|args| - 1])
      + if a.None? || Meaning(bs, explicit, a.value) then 1 else 0
  }

  /** Argument `a` is null, or means a triggered event. */
  ghost predicate ArgMeans(bs: seq<Body>, explicit: set<nat>, a: Option<nat>)
    requires Ordered(bs) && (a.Some? ==> a.value < |bs|)
  { a.None? || Meaning(bs, explicit, a.value) }

  ghost predicate Bounded(bs: seq<Body>, args: seq<Option<nat>>) { forall a :: a in args && a.Some? ==> a.value < |bs| }

  ghost predicate SomeMeans(bs: seq<Body>, explicit: set<nat>, args: seq<Option<nat>>)
    requires Ordered(bs) && Bounded(bs, args)
  { exists a :: a in args && ArgMeans(bs, explicit, a) }

  ghost predicate AllMean(bs: seq<Body>, explicit: set<nat>, args: seq<Option<nat>>)
    requires Ordered(bs) && Bounded(bs, args)
  { forall a :: a in args ==> ArgMeans(bs, explicit, a) }

  lemma ArgsStep(bs: seq<Body>, explicit: set<nat>, init: seq<Option<nat>>, a: Option<nat>)
    requires Ordered(bs) && Bounded(bs, init + [a]) && Bounded(bs, init) && (a.Some? ==> a.value < |bs|)
    ensures SomeMeans(bs, explicit, init + [a]) <==> SomeMeans(bs, explicit, init) || ArgMeans(bs, explicit, a)
    ensures AllMean(bs, explicit, init + [a]) <==> AllMean(bs, explicit, init) && ArgMeans(bs, explicit, a)
  {
    assert forall b :: b in init + [a] <==> b in init || b == a;
  }

  lemma {:induction false} CountMeans(bs: seq<Body>, explicit: set<nat>, e: nat, args: seq<Option<nat>>)
    requires Ordered(bs) && e < |bs| && (forall a :: a in args && a.Some? ==> a.value < e) && Bounded(bs, args)
    ensures MeaningCount(bs, explicit, e, args) <= |args|
    ensures MeaningCount(bs, explicit, e, args) >= 1 <==> SomeMeans(bs, explicit, args)
    ensures MeaningCount(bs, explicit, e, args) == |args| <==> AllMean(bs, explicit, args)
  {
    if args != [] {
      var init, a := args[..|args| - 1], args[|args| - 1];
      assert args == init + [a] && a in args;
      assert MeaningCount(bs, explicit, e, args) ==
             MeaningCount(bs, explicit, e, init) + if ArgMeans(bs, explicit, a) then 1 else 0;
      CountMeans(bs, explicit, e, init);
      ArgsStep(bs, explicit, init, a);
    }
  }

  /** `any` is a quorum of one and triggers when an argument does; `all` is a quorum of all its arguments and
      triggers when they all do. */
  lemma AnyAndAll(bs: seq<Body>, explicit: set<nat>, e: nat)
    requires Ordered(bs) && e < |bs| && bs[e].isQuorum && Bounded(bs, bs[e].args)
    ensures bs[e].quorum == 1 ==>
              (Meaning(bs, explicit, e) <==> e in explicit || SomeMeans(bs, explicit, bs[e].args))
    ensures bs[e].quorum == |bs[e].args| ==>
              (Meaning(bs, explicit, e) <==> e in explicit || AllMean(bs, explicit, bs[e].args))
  {
    assert OrderedAt(bs, e);
    CountMeans(bs, explicit, e, bs[e].args);
  }

  /** The arguments that have not fired, as a bag of events. */
  ghost function Unfired(bs: seq<Body>, args: seq<Option<nat>>): (m: multiset<nat>)
    ensures |m| + Fired(bs, args) == |args|
  {
    if args == [] then multiset{}
    else
      var a := args[|args| - 1];
      Unfired(bs, args[..|args| - 1]) + if ArgFired(bs, a) then multiset{} else multiset{if a.Some? then a.value else 0}
  }

  lemma {:induction false} UnfiredCount(bs: seq<Body>, args: seq<Option<nat>>, e: nat)
    ensures Unfired(bs, args)[e] == if ArgFired(bs, Some(e)) then 0 else multiset(args)[Some(e)]
  {
    if args != [] {
      var last := |args| - 1;
      UnfiredCount(bs, args[..last], e);
      assert args == args[..last] + [args[last]];
      assert multiset(args) == multiset(args[..last]) + multiset{args[last]};
      if args[last] == Some(e) {
        assert multiset(args)[Some(e)] == multiset(args[..last])[Some(e)] + 1;
      } else {
        assert multiset(args)[Some(e)] == multiset(args[..last])[Some(e)];
        assert args[last].Some? ==> args[last].value != e;
      }
    }
  }

  /** No member of the quorum has triggered. */
  ghost predicate Waiting(bs: seq<Body>, q: nat)
    requires q < |bs|
  {
    forall e :: e in bs[q].members ==> e < |bs| && !bs[e].triggered
  }

  /** A quorum that has counted its arguments has counted at most those that fired, and exactly
      those when nothing is pending. */
  lemma CountIsFired(bs: seq<Body>, q: nat)
    requires Ordered(bs) && q < |bs| && bs[q].isQuorum && CountsMembers(bs, q)
    ensures bs[q].count <= Fired(bs, bs[q].args)
    ensures Waiting(bs, q) ==> bs[q].count == Fired(bs, bs[q].args)
  {
    var unfired, members := Unfired(bs, bs[q].args), multiset(bs[q].members);
    assert OrderedAt(bs, q);
    forall e: nat | e in unfired ensures unfired[e] <= members[e] {
      UnfiredCount(bs, bs[q].args, e);
      assert Some(e) in multiset(bs[q].args);
      assert Some(e) in bs[q].args;
      assert Membership(bs, q, e) == Arguments(bs, q, e);
    }
    assert unfired <= members;
    assert members == unfired + (members - unfired);
    if Waiting(bs, q) {
      forall e: nat | e in members ensures members[e] == unfired[e] {
        assert e in bs[q].members;
        UnfiredCount(bs, bs[q].args, e);
        assert Membership(bs, q, e) == Arguments(bs, q, e);
      }
      assert members == unfired;
    }
  }

  // The steps of a cascade

  /** The drivers of the coroutines among the listeners. */
  ghost function Homes(ls: seq<Listener>): set<nat> {
    set l | l in ls && l.Coroutine? :: l.home
  }

  /** The quorums among the listeners. */
  function QuorumsOf(ls: seq<Listener>): seq<nat> {
    if ls == [] then []
    else QuorumsOf(ls[..|ls| - 1]) + if ls[|ls| - 1].Quorum? then [ls[|ls| - 1].q] else []
  }

  predicate BelongsTo(l: Listener, drv: Option<nat>) { l.Coroutine? && drv == Some(l.home) }

  /** The first coroutine of driver `drv`, which a trigger by that driver claims. */
  function ClaimOf(ls: seq<Listener>, drv: Option<nat>): Option<nat> {
    if ls == [] then None else ClaimNext(ClaimOf(ls[..|ls| - 1], drv), ls[|ls| - 1], drv)
  }

  function ClaimNext(before: Option<nat>, l: Listener, drv: Option<nat>): Option<nat> {
    if before.None? && BelongsTo(l, drv) then Some(l.id) else before
  }

  /** The coroutines that stay listed: all but the one claimed. */
  function KeptOf(ls: seq<Listener>, drv: Option<nat>): seq<Listener> {
    if ls == [] then []
    else KeptOf(ls[..|ls| - 1], drv) + KeptNext(ClaimOf(ls[..|ls| - 1], drv), ls[|ls| - 1], drv)
  }

  function KeptNext(before: Option<nat>, l: Listener, drv: Option<nat>): seq<Listener> {
    if l.Quorum? || (before.None? && BelongsTo(l, drv)) then [] else [l]
  }

  lemma {:induction false} QuorumCount(ls: seq<Listener>, q: nat)
    ensures multiset(QuorumsOf(ls))[q] == multiset(ls)[Quorum(q)]
  {
    if ls != [] {
      var init, l := ls[..|ls| - 1], ls[|ls| - 1];
      QuorumCount(init, q);
      assert ls == init + [l];
    }
  }

  ghost function ClaimCount(claim: Option<nat>, drv: Option<nat>, l: Listener): nat {
    if BelongsTo(l, drv) && claim == Some(l.id) then 1 else 0
  }

  lemma {:induction false} KeptCount(ls: seq<Listener>, drv: Option<nat>, l: Listener)
    ensures multiset(KeptOf(ls, drv))[l] + ClaimCount(ClaimOf(ls, drv), drv, l) ==
            if l.Coroutine? then multiset(ls)[l] else 0
  {
    if ls != [] {
      var init, last := ls[..|ls| - 1], ls[|ls| - 1];
      KeptCount(init, drv, l);
      assert ls == init + [last];
      KeptCountNext(KeptOf(init, drv), ClaimOf(init, drv), drv, last, l);
    }
  }

  lemma KeptCountNext(kept: seq<Listener>, claim: Option<nat>, drv: Option<nat>, last: Listener, l: Listener)
    ensures multiset(kept + KeptNext(claim, last, drv))[l] + ClaimCount(ClaimNext(claim, last, drv), drv, l) ==
            multiset(kept)[l] + ClaimCount(claim, drv, l) + if l.Coroutine? && last == l then 1 else 0
  {
  }

  lemma {:induction false} ClaimExists(ls: seq<Listener>, drv: Option<nat>)
    ensures ClaimOf(ls, drv).Some? <==> drv.Some? && drv.value in Homes(ls)
    ensures ClaimOf(ls, drv).Some? ==> Coroutine(ClaimOf(ls, drv).value, drv.value) in ls
  {
    if ls != [] {
      var init, last := ls[..|ls| - 1], ls[|ls| - 1];
      ClaimExists(init, drv);
      assert ls == init + [last];
    }
  }

  /** The claim is the first coroutine of the driver. */
  lemma {:induction false} ClaimIsFirst(ls: seq<Listener>, drv: Option<nat>) returns (k: nat)
    requires ClaimOf(ls, drv).Some? && drv.Some?
    ensures k < |ls| && ls[k] == Coroutine(ClaimOf(ls, drv).value, drv.value)
    ensures forall j | 0 <= j < k :: !(ls[j].Coroutine? && ls[j].home == drv.value)
  {
    var init, last := ls[..|ls| - 1], |ls| - 1;
    if ClaimOf(init, drv).Some? {
      k := ClaimIsFirst(init, drv);
      assert forall j | 0 <= j <= k :: ls[j] == init[j];
    } else {
      k := last;
      ClaimExists(init, drv);
      forall j | 0 <= j < last ensures !(ls[j].Coroutine? && ls[j].home == drv.value) {
        assert ls[j] in init;
      }
    }
  }

  /** The coroutines that stay are the list's, at rising positions. */
  lemma {:induction false} KeptInOrder(ls: seq<Listener>, drv: Option<nat>) returns (at: seq<nat>)
    ensures |at| == |KeptOf(ls, drv)|
    ensures forall k | 0 <= k < |at| :: at[k] < |ls| && KeptOf(ls, drv)[k] == ls[at[k]]
    ensures forall j, k | 0 <= j < k < |at| :: at[j] < at[k]
  {
    at := [];
    if ls != [] {
      at := KeptInOrder(ls[..|ls| - 1], drv);
      if KeptNext(ClaimOf(ls[..|ls| - 1], drv), ls[|ls| - 1], drv) != [] {
        at := at + [|ls| - 1];
      }
    }
  }

  /** So are the quorums. */
  lemma {:induction false} QuorumsInOrder(ls: seq<Listener>) returns (at: seq<nat>)
    ensures |at| == |QuorumsOf(ls)|
    ensures forall k | 0 <= k < |at| :: at[k] < |ls| && Quorum(QuorumsOf(ls)[k]) == ls[at[k]]
    ensures forall j, k | 0 <= j < k < |at| :: at[j] < at[k]
  {
    at := [];
    if ls != [] {
      at := QuorumsInOrder(ls[..|ls| - 1]);
      if ls[|ls| - 1].Quorum? {
        at := at + [|ls| - 1];
      }
    }
  }

  lemma SplitCounts(ls: seq<Listener>, drv: Option<nat>)
    ensures forall q: nat :: multiset(QuorumsOf(ls))[q] == multiset(ls)[Quorum(q)]
    ensures forall q: nat :: multiset(KeptOf(ls, drv))[Quorum(q)] == 0
  {
    forall q: nat ensures multiset(QuorumsOf(ls))[q] == multiset(ls)[Quorum(q)] {
      QuorumCount(ls, q);
    }
    forall q: nat ensures multiset(KeptOf(ls, drv))[Quorum(q)] == 0 {
      KeptCount(ls, drv, Quorum(q));
    }
  }

  /** `bs'` is `bs` without one membership of the untriggered event `e` in quorum `x`, and
      without the listener that goes with it. */
  ghost predicate Unlinked(bs: seq<Body>, bs': seq<Body>, x: nat, e: nat) {
    && |bs'| == |bs| && e < x < |bs| && !bs[e].triggered
    && bs'[e] == bs[e].(listeners := bs'[e].listeners) && bs'[x] == bs[x].(members := bs'[x].members)
    && Quorum(x) in bs[e].listeners && e in bs[x].members
    && multiset(bs'[e].listeners) == multiset(bs[e].listeners) - multiset{Quorum(x)}
    && multiset(bs'[x].members) == multiset(bs[x].members) - multiset{e}
    && (forall i :: 0 <= i < |bs| && i != e && i != x ==> bs'[i] == bs[i])
  }

  lemma UnlinkOrdered(bs: seq<Body>, bs': seq<Body>, x: nat, e: nat)
    requires Ordered(bs) && Unlinked(bs, bs', x, e)
    ensures Ordered(bs')
  {
    forall q | 0 <= q < |bs| ensures OrderedAt(bs', q) {
      assert OrderedAt(bs, q);
      if q == x {
        BagSubset(bs[x].members, bs'[x].members);
      } else if q == e {
        BagSubset(bs[e].listeners, bs'[e].listeners);
      }
    }
  }

  lemma UnlinkEvolves(bs: seq<Body>, bs': seq<Body>, x: nat, e: nat)
    requires Unlinked(bs, bs', x, e)
    ensures Evolves(bs, bs')
  {
    forall q | 0 <= q < |bs| ensures EvolvesAt(bs, bs', q) {
      if q == e {
        assert SameCoroutines(bs[e].listeners, bs'[e].listeners);
      }
    }
  }

  lemma UnlinkLinkedAt(bs: seq<Body>, bs': seq<Body>, pending: multiset<(nat, nat)>, x: nat, e: nat, a: nat, q: nat)
    requires Unlinked(bs, bs', x, e) && a < |bs| && q < |bs| && LinkedAt(bs, pending, a, q)
    ensures LinkedAt(bs', pending, a, q)
  {
    assert bs'[a].triggered == bs[a].triggered;
    assert a != e ==> bs'[a].listeners == bs[a].listeners;
    assert q != x ==> bs'[q].members == bs[q].members;
  }

  lemma UnlinkLinked(bs: seq<Body>, bs': seq<Body>, pending: multiset<(nat, nat)>, x: nat, e: nat)
    requires Linked(bs, pending) && Unlinked(bs, bs', x, e)
    ensures Linked(bs', pending)
  {
    forall a: nat, q: nat | 0 <= a < |bs| && 0 <= q < |bs| ensures LinkedAt(bs', pending, a, q) {
      UnlinkLinkedAt(bs, bs', pending, x, e, a, q);
    }
  }

  lemma UnlinkCounting(bs: seq<Body>, bs': seq<Body>, x: nat, e: nat)
    requires Counting(bs, x) && Unlinked(bs, bs', x, e)
    ensures Counting(bs', x)
  {
    forall q | 0 <= q < |bs| && q != x && bs[q].isQuorum && !bs[q].triggered
      ensures CountsMembers(bs', q) && bs'[q].count < bs'[q].quorum
    {
      assert CountsMembers(bs, q);
      forall a: nat | 0 <= a < |bs| && !bs'[a].triggered ensures Membership(bs', q, a) == Arguments(bs', q, a) {
        assert Membership(bs, q, a) == Arguments(bs, q, a);
      }
    }
  }

  lemma UnlinkInv(bs: seq<Body>, bs': seq<Body>, pending: multiset<(nat, nat)>, explicit: set<nat>, x: nat, e: nat)
    requires Inv(bs, pending, explicit, x) && Unlinked(bs, bs', x, e) && !bs[x].triggered
    ensures Inv(bs', pending, explicit, x) && Evolves(bs, bs')
  {
    assert Ordered(bs') && Evolves(bs, bs') by {
      UnlinkOrdered(bs, bs', x, e);
      UnlinkEvolves(bs, bs', x, e);
    }
    assert Linked(bs', pending) by { UnlinkLinked(bs, bs', pending, x, e); }
    assert Counting(bs', x) by { UnlinkCounting(bs, bs', x, e); }
    assert Caused(bs', explicit) by { SameTriggersInv(bs, bs', explicit); }
    forall q | 0 <= q < |bs| && bs'[q].triggered ensures Culled(bs', q) {
      assert Culled(bs, q);
    }
  }

  lemma BagSubset<T>(a: seq<T>, b: seq<T>)
    requires multiset(b) <= multiset(a)
    ensures forall t :: t in b ==> t in a
  {
    forall t | t in b ensures t in a {
      assert t in multiset(b);
    }
  }

  /** Causes depend only on what has triggered and on the arguments. */
  lemma SameTriggersInv(bs: seq<Body>, bs': seq<Body>, explicit: set<nat>)
    requires Caused(bs, explicit) && |bs| <= |bs'|
    requires forall q :: 0 <= q < |bs| ==>
               bs'[q].args == bs[q].args && bs'[q].isQuorum == bs[q].isQuorum && bs'[q].quorum == bs[q].quorum
               && (bs[q].triggered ==> bs'[q].triggered)
    ensures forall q :: 0 <= q < |bs| && bs[q].triggered ==>
              q in explicit || (bs'[q].isQuorum && Fired(bs', bs'[q].args) >= bs'[q].quorum)
  {
    forall q | 0 <= q < |bs| && bs[q].triggered && q !in explicit
      ensures Fired(bs', bs'[q].args) >= bs'[q].quorum
    {
      FiredGrows(bs, bs', bs[q].args);
    }
  }

  // Marking an event as triggered; its quorums have yet to be told

  function Pairs(e: nat, qs: seq<nat>): multiset<(nat, nat)> {
    if qs == [] then multiset{} else multiset{(e, qs[0])} + Pairs(e, qs[1..])
  }

  lemma {:induction false} PairsCount(e: nat, qs: seq<nat>, a: nat, q: nat)
    ensures Pairs(e, qs)[(a, q)] == if a == e then multiset(qs)[q] else 0
  {
    if qs != [] {
      PairsCount(e, qs[1..], a, q);
      assert qs == [qs[0]] + qs[1..];
    }
  }

  function Mark(bs: seq<Body>, x: nat, drv: Option<nat>): seq<Body>
    requires x < |bs|
  {
    bs[x := bs[x].(triggered := true, listeners := KeptOf(bs[x].listeners, drv))]
  }

  lemma MarkOrdered(bs: seq<Body>, x: nat, drv: Option<nat>)
    requires Ordered(bs) && x < |bs| && !bs[x].triggered
    ensures Ordered(Mark(bs, x, drv)) && Evolves(bs, Mark(bs, x, drv))
  {
    var bs' := Mark(bs, x, drv);
    SplitCounts(bs[x].listeners, drv);
    var ls := bs'[x].listeners;
    forall q: nat ensures Quorum(q) !in ls {
      assert multiset(ls)[Quorum(q)] == 0;
    }
    forall q | 0 <= q < |bs| ensures OrderedAt(bs', q) && EvolvesAt(bs, bs', q) {
      assert OrderedAt(bs, q);
    }
  }

  lemma MarkLinked(bs: seq<Body>, pending: multiset<(nat, nat)>, x: nat, drv: Option<nat>)
    requires Linked(bs, pending) && x < |bs| && !bs[x].triggered
    ensures Linked(Mark(bs, x, drv), pending + Pairs(x, QuorumsOf(bs[x].listeners)))
  {
    var bs' := Mark(bs, x, drv);
    var qs: seq<nat> := QuorumsOf(bs[x].listeners);
    SplitCounts(bs[x].listeners, drv);
    forall a: nat, q: nat | 0 <= a < |bs| && 0 <= q < |bs| ensures LinkedAt(bs', pending + Pairs(x, qs), a, q) {
      assert LinkedAt(bs, pending, a, q);
      PairsCount(x, qs, a, q);
      assert bs'[q].members == bs[q].members;
      if a == x {
        QuorumCount(bs[x].listeners, q);
      } else {
        assert bs'[a] == bs[a];
      }
    }
  }

  lemma MarkCounting(bs: seq<Body>, x: nat, drv: Option<nat>)
    requires Counting(bs, x) && x < |bs|
    ensures Counting(Mark(bs, x, drv), -1)
  {
    var bs' := Mark(bs, x, drv);
    forall q | 0 <= q < |bs| && bs'[q].isQuorum && !bs'[q].triggered
      ensures CountsMembers(bs', q) && bs'[q].count < bs'[q].quorum
    {
      assert CountsMembers(bs, q);
      forall a: nat | 0 <= a < |bs| && !bs'[a].triggered ensures Membership(bs', q, a) == Arguments(bs', q, a) {
        assert Membership(bs, q, a) == Arguments(bs, q, a);
      }
    }
  }

  lemma MarkCaused(bs: seq<Body>, explicit: set<nat>, explicit': set<nat>, x: nat, drv: Option<nat>)
    requires Caused(bs, explicit) && x < |bs| && explicit <= explicit'
    requires x in explicit' || (bs[x].isQuorum && Fired(bs, bs[x].args) >= bs[x].quorum)
    ensures Caused(Mark(bs, x, drv), explicit')
  {
    var bs' := Mark(bs, x, drv);
    SameTriggersInv(bs, bs', explicit);
    FiredGrows(bs, bs', bs[x].args);
  }

  /** After culling, event `x` is marked, and a pair for each quorum that listens is pending. */
  lemma MarkInv(
    bs: seq<Body>, pending: multiset<(nat, nat)>, explicit: set<nat>, explicit': set<nat>, x: nat, drv: Option<nat>)
    requires Inv(bs, pending, explicit, x) && x < |bs| && !bs[x].triggered && Culled(bs, x)
    requires explicit <= explicit' <= explicit + {x}
    requires x in explicit' || (bs[x].isQuorum && Fired(bs, bs[x].args) >= bs[x].quorum)
    ensures Inv(Mark(bs, x, drv), pending + Pairs(x, QuorumsOf(bs[x].listeners)), explicit', -1)
    ensures Evolves(bs, Mark(bs, x, drv))
  {
    var bs' := Mark(bs, x, drv);
    assert Ordered(bs') && Evolves(bs, bs') by { MarkOrdered(bs, x, drv); }
    assert Linked(bs', pending + Pairs(x, QuorumsOf(bs[x].listeners))) by { MarkLinked(bs, pending, x, drv); }
    assert Counting(bs', -1) by { MarkCounting(bs, x, drv); }
    assert Caused(bs', explicit') by { MarkCaused(bs, explicit, explicit', x, drv); }
    forall q | 0 <= q < |bs| && bs'[q].triggered ensures Culled(bs', q) {
      assert Culled(bs, q);
    }
  }

  // Telling a quorum that one of its members has triggered

  /** `bs'` is `bs` after quorum `q` has moved one membership of `e` into its count. */
  ghost predicate Told(bs: seq<Body>, bs': seq<Body>, e: nat, q: nat) {
    && |bs'| == |bs| && e < |bs| && q < |bs| && e in bs[q].members && bs[e].triggered
    && bs'[q] == bs[q].(members := bs'[q].members, count := bs[q].count + 1)
    && multiset(bs'[q].members) == multiset(bs[q].members) - multiset{e}
    && |bs'[q].members| == |bs[q].members| - 1
    && (forall i :: 0 <= i < |bs| && i != q ==> bs'[i] == bs[i])
  }

  lemma ToldOrdered(bs: seq<Body>, bs': seq<Body>, e: nat, q: nat)
    requires Ordered(bs) && Told(bs, bs', e, q)
    ensures Ordered(bs') && Evolves(bs, bs')
  {
    forall i | 0 <= i < |bs| ensures OrderedAt(bs', i) && EvolvesAt(bs, bs', i) {
      assert OrderedAt(bs, i);
      if i == q {
        BagSubset(bs[q].members, bs'[q].members);
      }
    }
  }

  lemma ToldLinked(bs: seq<Body>, bs': seq<Body>, pending: multiset<(nat, nat)>, e: nat, q: nat)
    requires Linked(bs, pending) && Told(bs, bs', e, q) && (e, q) in pending
    ensures Linked(bs', pending - multiset{(e, q)})
  {
    forall a: nat, i: nat | 0 <= a < |bs| && 0 <= i < |bs| ensures LinkedAt(bs', pending - multiset{(e, q)}, a, i) {
      assert LinkedAt(bs, pending, a, i);
      ToldLinkedAt(bs, bs', pending, e, q, a, i);
    }
  }

  lemma ToldLinkedAt(bs: seq<Body>, bs': seq<Body>, pending: multiset<(nat, nat)>, e: nat, q: nat, a: nat, i: nat)
    requires Told(bs, bs', e, q) && (e, q) in pending && a < |bs| && i < |bs| && LinkedAt(bs, pending, a, i)
    requires e < |bs| && bs[e].triggered
    ensures a < |bs'| && i < |bs'| && LinkedAt(bs', pending - multiset{(e, q)}, a, i)
  {
    assert bs'[a].listeners == bs[a].listeners && bs'[a].triggered == bs[a].triggered;
    if i == q {
      assert multiset(bs'[q].members)[a] == (multiset(bs[q].members) - multiset{e})[a];
    } else {
      assert bs'[i].members == bs[i].members;
    }
  }

  lemma ToldCounting(bs: seq<Body>, bs': seq<Body>, e: nat, q: nat)
    requires Counting(bs, -1) && Told(bs, bs', e, q)
    ensures Counting(bs', q)
    ensures bs[q].isQuorum && !bs[q].triggered ==> CountsMembers(bs', q)
  {
    forall i | 0 <= i < |bs| && bs[i].isQuorum && !bs[i].triggered
      ensures CountsMembers(bs', i) && (i != q ==> bs'[i].count < bs'[i].quorum)
    {
      assert CountsMembers(bs, i);
      forall a: nat | 0 <= a < |bs| && !bs'[a].triggered ensures Membership(bs', i, a) == Arguments(bs', i, a) {
        assert Membership(bs, i, a) == Arguments(bs, i, a);
        assert a != e;
        if i == q {
          assert multiset(bs'[q].members)[a] == (multiset(bs[q].members) - multiset{e})[a];
        }
      }
    }
  }

  lemma ToldInv(bs: seq<Body>, bs': seq<Body>, pending: multiset<(nat, nat)>, explicit: set<nat>, e: nat, q: nat)
    requires Inv(bs, pending, explicit, -1) && Told(bs, bs', e, q) && (e, q) in pending
    ensures Inv(bs', pending - multiset{(e, q)}, explicit, q) && Evolves(bs, bs')
    ensures bs[q].isQuorum && !bs[q].triggered ==> CountsMembers(bs', q)
  {
    assert Ordered(bs') && Evolves(bs, bs') by { ToldOrdered(bs, bs', e, q); }
    assert Linked(bs', pending - multiset{(e, q)}) by { ToldLinked(bs, bs', pending, e, q); }
    ToldCounting(bs, bs', e, q);
    assert Caused(bs', explicit) by { SameTriggersInv(bs, bs', explicit); }
    forall i | 0 <= i < |bs| && bs'[i].triggered ensures Culled(bs', i) {
      assert Culled(bs, i);
      BagSubset(bs[q].members, bs'[q].members);
    }
  }

  // The quiescent graph

  /** Quorum meaning: when nothing is pending, an event has triggered exactly if the formula says
      so. */
  lemma {:induction false} TriggeredMeans(bs: seq<Body>, explicit: set<nat>, e: nat)
    requires Inv(bs, multiset{}, explicit, -1) && e < |bs|
    ensures bs[e].triggered <==> Meaning(bs, explicit, e)
    decreases e, 1, 0
  {
    assert OrderedAt(bs, e);
    if bs[e].isQuorum {
      FiredMeans(bs, explicit, e, bs[e].args);
      if !bs[e].triggered {
        forall a | a in bs[e].members ensures a < |bs| && !bs[a].triggered {
          assert LinkedAt(bs, multiset{}, a, e);
          assert a in multiset(bs[e].members);
        }
        CountIsFired(bs, e);
      }
    }
  }

  lemma {:induction false} FiredMeans(bs: seq<Body>, explicit: set<nat>, e: nat, args: seq<Option<nat>>)
    requires Inv(bs, multiset{}, explicit, -1) && e < |bs| && forall a :: a in args && a.Some? ==> a.value < e
    ensures Fired(bs, args) == MeaningCount(bs, explicit, e, args)
    decreases e, 0, |args|
  {
    if args != [] {
      var a := args[|args| - 1];
      FiredMeans(bs, explicit, e, args[..|args| - 1]);
      if a.Some? {
        TriggeredMeans(bs, explicit, a.value);
      }
    }
  }

  /** The formula that defines an event has not changed. */
  ghost predicate SameFormula(b: Body, b': Body) {
    b'.isQuorum == b.isQuorum && b'.quorum == b.quorum && b'.args == b.args
  }

  lemma {:induction false} MeaningSame(bs: seq<Body>, bs': seq<Body>, explicit: set<nat>, e: nat)
    requires Ordered(bs) && Ordered(bs') && e < |bs| <= |bs'|
    requires forall i :: 0 <= i <= e ==> SameFormula(bs[i], bs'[i])
    ensures Meaning(bs, explicit, e) == Meaning(bs', explicit, e)
    decreases e, 1, 0
  {
    assert OrderedAt(bs, e) && OrderedAt(bs', e) && SameFormula(bs[e], bs'[e]);
    MeaningCountSame(bs, bs', explicit, e, bs[e].args);
  }

  lemma {:induction false} MeaningCountSame(
    bs: seq<Body>, bs': seq<Body>, explicit: set<nat>, e: nat, args: seq<Option<nat>>)
    requires Ordered(bs) && Ordered(bs') && e < |bs| <= |bs'|
    requires forall i :: 0 <= i <= e ==> SameFormula(bs[i], bs'[i])
    requires forall a :: a in args && a.Some? ==> a.value < e
    ensures MeaningCount(bs, explicit, e, args) == MeaningCount(bs', explicit, e, args)
    decreases e, 0, |args|
  {
    if args != [] {
      var a := args[|args| - 1];
      MeaningCountSame(bs, bs', explicit, e, args[..|args| - 1]);
      if a.Some? {
        MeaningSame(bs, bs', explicit, a.value);
      }
    }
  }

  /** When nothing is pending, no triggered quorum is left in any list. */
  lemma NoDeadLinks(bs: seq<Body>, explicit: set<nat>, e: nat, q: nat)
    requires Inv(bs, multiset{}, explicit, -1) && e < |bs| && q < |bs| && bs[q].triggered
    ensures bs[q].members == [] && Quorum(q) !in bs[e].listeners
  {
    assert OrderedAt(bs, q) && Culled(bs, q);
    var m := bs[q].members;
    assert m != [] ==> m[0] in m && m[0] in multiset(m);
    assert m != [] && m[0] < |bs| ==> LinkedAt(bs, multiset{}, m[0], q);
    assert LinkedAt(bs, multiset{}, e, q);
    assert multiset(bs[e].listeners)[Quorum(q)] == 0;
  }

  // Construction

  /** A new body: untriggered, with nothing in any list. */
  ghost predicate Blank(b: Body) {
    !b.triggered && b.listeners == [] && b.members == [] && b.args == [] && b.count == 0
  }

  lemma AppendInv(bs: seq<Body>, explicit: set<nat>, b: Body)
    requires Inv(bs, multiset{}, explicit, -1) && Blank(b)
    ensures Inv(bs + [b], multiset{}, explicit, |bs|)
    ensures !b.isQuorum ==> Inv(bs + [b], multiset{}, explicit, -1)
    ensures CountsMembers(bs + [b], |bs|)
  {
    var bs' := bs + [b];
    forall q | 0 <= q < |bs'| ensures OrderedAt(bs', q) {
      if q < |bs| {
        assert OrderedAt(bs, q);
      }
    }
    forall e: nat, q: nat | 0 <= e < |bs'| && 0 <= q < |bs'| ensures LinkedAt(bs', multiset{}, e, q) {
      AppendLinkedAt(bs, b, e, q);
    }
    forall q | 0 <= q < |bs| && bs[q].isQuorum && !bs[q].triggered ensures CountsMembers(bs', q) {
      assert CountsMembers(bs, q);
      assert OrderedAt(bs, q);
      forall e: nat | 0 <= e < |bs'| && !bs'[e].triggered ensures Membership(bs', q, e) == Arguments(bs', q, e) {
        if e < |bs| {
          assert Membership(bs, q, e) == Arguments(bs, q, e);
        } else {
          assert e !in bs[q].members && Some(e) !in bs[q].args;
          assert e !in multiset(bs[q].members) && Some(e) !in multiset(bs[q].args);
        }
      }
    }
    SameTriggersInv(bs, bs', explicit);
    forall q | 0 <= q < |bs'| && bs'[q].triggered ensures Culled(bs', q) {
      assert Culled(bs, q);
    }
  }

  lemma AppendLinkedAt(bs: seq<Body>, b: Body, e: nat, q: nat)
    requires Ordered(bs) && Linked(bs, multiset{}) && Blank(b) && e <= |bs| && q <= |bs|
    ensures LinkedAt(bs + [b], multiset{}, e, q)
  {
    var bs' := bs + [b];
    if e < |bs| && q < |bs| {
      assert LinkedAt(bs, multiset{}, e, q);
    } else if e < |bs| {
      assert OrderedAt(bs, e);
      assert Quorum(q) !in bs[e].listeners;
      assert Quorum(q) !in multiset(bs[e].listeners);
    } else if q < |bs| {
      assert OrderedAt(bs, q);
      assert e !in bs[q].members;
      assert e !in multiset(bs[q].members);
    }
  }

  /** `add_member` while quorum `q`, the newest event, is under construction. */
  function AddMember(bs: seq<Body>, q: nat, a: Option<nat>): seq<Body>
    requires q < |bs| && (a.Some? ==> a.value < q)
  {
    var b := bs[q].(args := bs[q].args + [a]);
    if ArgFired(bs, a) then bs[q := b.(count := b.count + 1)]
    else
      var e := a.value;
      bs[q := b.(members := b.members + [e])][e := bs[e].(listeners := bs[e].listeners + [Quorum(q)])]
  }

  lemma AddMemberOrdered(bs: seq<Body>, q: nat, a: Option<nat>)
    requires Ordered(bs) && q < |bs| && (a.Some? ==> a.value < q) && bs[q].isQuorum
    ensures Ordered(AddMember(bs, q, a))
  {
    var bs' := AddMember(bs, q, a);
    forall i | 0 <= i < |bs| ensures OrderedAt(bs', i) {
      assert OrderedAt(bs, i);
    }
  }

  lemma AddMemberLinked(bs: seq<Body>, q: nat, a: Option<nat>)
    requires Linked(bs, multiset{}) && q < |bs| && (a.Some? ==> a.value < q)
    ensures Linked(AddMember(bs, q, a), multiset{})
  {
    var bs' := AddMember(bs, q, a);
    forall e: nat, i: nat | 0 <= e < |bs| && 0 <= i < |bs| ensures LinkedAt(bs', multiset{}, e, i) {
      assert LinkedAt(bs, multiset{}, e, i);
      assert bs'[e].triggered == bs[e].triggered;
      var joins := !ArgFired(bs, a) && e == a.value;
      assert bs'[e].listeners == bs[e].listeners + if joins then [Quorum(q)] else [];
      assert bs'[i].members == bs[i].members + if !ArgFired(bs, a) && i == q then [a.value] else [];
    }
  }

  lemma AddMemberCountsAt(bs: seq<Body>, q: nat, a: Option<nat>, i: nat, e: nat)
    requires q < |bs| && (a.Some? ==> a.value < q) && i < |bs| && e < |bs| && !bs[e].triggered
    requires Membership(bs, i, e) == Arguments(bs, i, e)
    ensures Membership(AddMember(bs, q, a), i, e) == Arguments(AddMember(bs, q, a), i, e)
  {
    var bs' := AddMember(bs, q, a);
    if i == q {
      assert bs'[q].args == bs[q].args + [a];
      assert bs'[q].members == bs[q].members + if ArgFired(bs, a) then [] else [a.value];
    } else {
      assert bs'[i].args == bs[i].args && bs'[i].members == bs[i].members;
    }
  }

  lemma AddMemberCounting(bs: seq<Body>, q: nat, a: Option<nat>)
    requires q < |bs| && (a.Some? ==> a.value < q) && Counting(bs, q) && CountsMembers(bs, q)
    ensures Counting(AddMember(bs, q, a), q) && CountsMembers(AddMember(bs, q, a), q)
  {
    var bs' := AddMember(bs, q, a);
    forall i | 0 <= i < |bs| && (i == q || (bs[i].isQuorum && !bs[i].triggered)) ensures CountsMembers(bs', i) {
      assert CountsMembers(bs, i);
      forall e: nat | 0 <= e < |bs| && !bs'[e].triggered ensures Membership(bs', i, e) == Arguments(bs', i, e) {
        AddMemberCountsAt(bs, q, a, i, e);
      }
    }
  }

  lemma AddMemberInv(bs: seq<Body>, explicit: set<nat>, q: nat, a: Option<nat>)
    requires Inv(bs, multiset{}, explicit, q) && q < |bs| && bs[q].isQuorum && !bs[q].triggered
    requires (a.Some? ==> a.value < q) && CountsMembers(bs, q)
    ensures Inv(AddMember(bs, q, a), multiset{}, explicit, q) && CountsMembers(AddMember(bs, q, a), q)
  {
    var bs' := AddMember(bs, q, a);
    assert Ordered(bs') by { AddMemberOrdered(bs, q, a); }
    assert Linked(bs', multiset{}) by { AddMemberLinked(bs, q, a); }
    AddMemberCounting(bs, q, a);
    assert Caused(bs', explicit) by { AddMemberCaused(bs, explicit, q, a); }
    AddMemberCulled(bs, q, a);
  }

  lemma AddMemberCulled(bs: seq<Body>, q: nat, a: Option<nat>)
    requires q < |bs| && !bs[q].triggered && (a.Some? ==> a.value < q)
    requires forall i | 0 <= i < |bs| && bs[i].triggered :: Culled(bs, i)
    ensures var bs' := AddMember(bs, q, a); forall i | 0 <= i < |bs'| && bs'[i].triggered :: Culled(bs', i)
  {
    var bs' := AddMember(bs, q, a);
    forall i | 0 <= i < |bs'| && bs'[i].triggered ensures Culled(bs', i) {
      assert Culled(bs, i);
      assert bs'[i].members == bs[i].members;
    }
  }

  lemma {:induction false} FiredSame(bs: seq<Body>, bs': seq<Body>, args: seq<Option<nat>>)
    requires |bs| == |bs'| && forall e :: 0 <= e < |bs| ==> bs'[e].triggered == bs[e].triggered
    ensures Fired(bs, args) == Fired(bs', args)
  {
    if args != [] {
      FiredSame(bs, bs', args[..|args| - 1]);
    }
  }

  lemma AddMemberCaused(bs: seq<Body>, explicit: set<nat>, q: nat, a: Option<nat>)
    requires Caused(bs, explicit) && q < |bs| && !bs[q].triggered && (a.Some? ==> a.value < q)
    ensures Caused(AddMember(bs, q, a), explicit)
  {
    var bs' := AddMember(bs, q, a);
    forall i | 0 <= i < |bs'| && bs'[i].triggered && i !in explicit
      ensures bs'[i].isQuorum && Fired(bs', bs'[i].args) >= bs'[i].quorum
    {
      FiredSame(bs, bs', bs[i].args);
    }
  }
}
