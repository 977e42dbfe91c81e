/** The trigger machinery, as methods that change listener and member lists in place. */
module EventRuntime {
  import opened Basics
  import opened EventGraph
  import opened EventPosts
  import opened EventClaims

  // Termination: a cascade triggers each event once

  ghost function Untriggered(bs: seq<Body>): nat {
    if bs == [] then 0 else Untriggered(bs[..|bs| - 1]) + if bs[|bs| - 1].triggered then 0 else 1
  }

  lemma {:induction false} UntriggeredShrinks(bs: seq<Body>, bs': seq<Body>)
    requires |bs| == |bs'| && forall e :: 0 <= e < |bs| && bs[e].triggered ==> bs'[e].triggered
    ensures Untriggered(bs') <= Untriggered(bs)
    ensures (exists e :: 0 <= e < |bs| && !bs[e].triggered && bs'[e].triggered) ==> Untriggered(bs') < Untriggered(bs)
  {
    if bs != [] {
      UntriggeredShrinks(bs[..|bs| - 1], bs'[..|bs| - 1]);
      if e :| 0 <= e < |bs| && !bs[e].triggered && bs'[e].triggered {
        if e < |bs| - 1 {
          assert !bs[..|bs| - 1][e].triggered && bs'[..|bs| - 1][e].triggered;
        }
      }
    }
  }

  lemma EvolvesShrinks(bs: seq<Body>, bs': seq<Body>)
    requires Evolves(bs, bs')
    ensures Untriggered(bs') <= Untriggered(bs)
    ensures forall e :: 0 <= e < |bs| && bs[e].triggered ==> bs'[e].triggered
  {
    forall e | 0 <= e < |bs| && bs[e].triggered ensures bs'[e].triggered {
      assert EvolvesAt(bs, bs', e);
    }
    UntriggeredShrinks(bs, bs');
  }

  function WithListener(bs: seq<Body>, e: nat, l: Listener): seq<Body>
    requires e < |bs|
  { bs[e := bs[e].(listeners := bs[e].listeners + [l])] }

  /** `ds` lists the members of `homes`, each once. */
  ghost predicate Enumerates(ds: seq<nat>, homes: set<nat>) {
    (forall i, j :: 0 <= i < j < |ds| ==> ds[i] != ds[j]) && (forall d :: d in ds <==> d in homes)
  }

  ghost function HomesBut(ls: seq<Listener>, drv: Option<nat>): set<nat> {
    set d | d in Homes(ls) && drv != Some(d)
  }

  /** Event `x` has been marked: its drivers but `drv` are to be posted to. */
  ghost predicate ToPost(drivers: seq<nat>, x: nat, drv: Option<nat>, marked: Snap) {
    && x < |marked.bodies| && Enumerates(drivers, HomesBut(marked.bodies[x].listeners, drv))
    && forall d: nat :: Post(d, x) in marked.silent <==> drv == Some(d)
  }

  lemma KeptHomes(ls: seq<Listener>, drv: Option<nat>, coh: Option<Claim>)
    ensures HomesBut(KeptOf(ls, Claimant(drv, coh)), drv) == HomesBut(ls, drv)
  {
    var kept := KeptOf(ls, Claimant(drv, coh));
    forall l: Listener | l.Coroutine? && drv != Some(l.home) ensures l in kept <==> l in ls {
      KeptCount(ls, Claimant(drv, coh), l);
      assert l in ls <==> l in multiset(ls);
      assert l in kept <==> l in multiset(kept);
    }
  }

  lemma HomesStep(ls: seq<Listener>, i: nat)
    requires i < |ls|
    ensures Homes(ls[..i + 1]) == Homes(ls[..i]) + if ls[i].Coroutine? then {ls[i].home} else {}
  {
    assert ls[..i + 1] == ls[..i] + [ls[i]];
  }

  lemma SplitStep(ls: seq<Listener>, i: nat, drv: Option<nat>, c: Option<Claim>, x: nat)
    requires i < |ls|
    ensures QuorumsOf(ls[..i + 1]) == QuorumsOf(ls[..i]) + if ls[i].Quorum? then [ls[i].q] else []
    ensures var claims := drv.Some? && BelongsTo(ls[i], drv) && Claimed(ls[..i], drv, c, x).None?;
            && KeptOf(ls[..i + 1], Claimant(drv, c)) ==
               KeptOf(ls[..i], Claimant(drv, c)) + (if ls[i].Quorum? || claims then [] else [ls[i]])
            && Claimed(ls[..i + 1], drv, c, x) ==
               if claims then Some(Claim(ls[i].id, ls[i].home, x)) else Claimed(ls[..i], drv, c, x)
    ensures HomesBut(ls[..i + 1], drv) ==
            HomesBut(ls[..i], drv) + if ls[i].Coroutine? && drv != Some(ls[i].home) then {ls[i].home} else {}
  {
    assert ls[..i + 1][..i] == ls[..i];
    HomesStep(ls, i);
    ClaimExists(ls[..i], Claimant(drv, c));
  }

  lemma PairsStep(x: nat, qs: seq<nat>, i: nat)
    requires i < |qs|
    ensures Pairs(x, qs[i..]) == multiset{(x, qs[i])} + Pairs(x, qs[i + 1..])
  {
    assert qs[i..][0] == qs[i] && qs[i..][1..] == qs[i + 1..];
  }

  lemma PendingStep(pending: multiset<(nat, nat)>, rest: multiset<(nat, nat)>, x: nat, qs: seq<nat>, i: nat)
    requires i < |qs| && pending == rest + Pairs(x, qs[i..])
    ensures (x, qs[i]) in pending && pending - multiset{(x, qs[i])} == rest + Pairs(x, qs[i + 1..])
  {
    PairsStep(x, qs, i);
  }

  /** At most the listeners of event `x` changed. */
  ghost predicate OnlyListeners(bs: seq<Body>, bs': seq<Body>, x: nat) {
    |bs'| == |bs| && x < |bs| && bs' == bs[x := bs[x].(listeners := bs'[x].listeners)]
  }

  lemma OnlyListenersChains(bs: seq<Body>, bs1: seq<Body>, bs2: seq<Body>, x: nat)
    requires OnlyListeners(bs, bs1, x) && OnlyListeners(bs1, bs2, x)
    ensures OnlyListeners(bs, bs2, x)
  {
  }

  /** The bodies before `q` are as they were but for their lists. */
  ghost predicate OlderSame(before: seq<Body>, bs: seq<Body>, q: nat)
    requires q <= |before| && q <= |bs|
  {
    forall e :: 0 <= e < q ==> SameFormula(before[e], bs[e]) && bs[e].triggered == before[e].triggered
  }

  /** Quorum `q` has been given the arguments `args` so far. */
  ghost predicate Building(b: Body, quorum: nat, args: seq<Option<nat>>) {
    b == b.(triggered := false, isQuorum := true, quorum := quorum, args := args, listeners := [])
  }

  ghost predicate Built(before: seq<Body>, bs: seq<Body>, q: nat, quorum: nat, args: seq<Option<nat>>) {
    && |before| == q && |bs| == q + 1 && Building(bs[q], quorum, args) && OlderSame(before, bs, q)
    && SameListed(before + [PLAIN], bs)
  }

  lemma BuildStep(before: seq<Body>, bs: seq<Body>, q: nat, quorum: nat, args: seq<Option<nat>>, a: Option<nat>)
    requires |before| == q && |bs| == q + 1 && (a.Some? ==> a.value < q)
    requires OlderSame(before, bs, q) && Building(bs[q], quorum, args)
    ensures |AddMember(bs, q, a)| == q + 1
    ensures OlderSame(before, AddMember(bs, q, a), q) && Building(AddMember(bs, q, a)[q], quorum, args + [a])
  {
  }

  class Events {
    var bodies: seq<Body>
    var posts: seq<Post>
    ghost var pending: multiset<(nat, nat)>
    ghost var explicit: set<nat>
    ghost var unposted: set<nat>
    /** The slot of the driver that is triggering, where it finds the coroutine to run. */
    var coh: Option<Claim>
    /** Pairs of a driver and a triggered event that were never posted. */
    ghost var silent: set<Post>

    ghost function Now(): Snap
      reads this
    { Snap(bodies, coh, silent) }

    /** Mid-cascade validity, with quorum `x` possibly at its threshold. */
    ghost predicate Busy(x: int)
      reads this
    {
      Inv(bodies, pending, explicit, x) && PostsOk(bodies, posts, unposted, silent)
    }

    /** Between operations nothing is pending. */
    ghost predicate Valid()
      reads this
    {
      Busy(-1) && pending == multiset{} && unposted == {} && Once(bodies)
    }

    constructor ()
      ensures Valid() && bodies == [] && posts == [] && explicit == {} && silent == {}
    {
      bodies, posts, pending, explicit, unposted, coh, silent := [], [], multiset{}, {}, {}, None, {};
    }

    /** `remove_listener_unlock`. */
    method RemoveListener(e: nat, l: Listener)
      requires e < |bodies| && l in bodies[e].listeners
      modifies this`bodies
      ensures |bodies| == |old(bodies)|
      ensures bodies == old(bodies)[e := old(bodies)[e].(listeners := bodies[e].listeners)]
      ensures multiset(bodies[e].listeners) == multiset(old(bodies)[e].listeners) - multiset{l}
    {
      var ls := bodies[e].listeners;
      var k := 0;
      while ls[k] != l
        invariant k < |ls| && l in ls[k..]
        decreases |ls| - k
      {
        k := k + 1;
      }
      bodies := bodies[e := bodies[e].(listeners := SwapRemove(ls, k))];
    }

    /** `cull_members`: leave the lists of members that have not triggered. */
    method CullMembers(x: nat)
      requires x < |bodies| && !bodies[x].triggered && Busy(x)
      modifies this`bodies
      ensures Busy(x) && Evolves(old(bodies), bodies) && Culled(bodies, x)
      ensures forall e :: 0 <= e < |bodies| ==> bodies[e].triggered == old(bodies)[e].triggered
    {
      var it := 0;
      while it != |bodies[x].members|
        invariant |bodies| == |old(bodies)| && it <= |bodies[x].members|
        invariant Busy(x) && Evolves(old(bodies), bodies)
        invariant forall e :: 0 <= e < |bodies| ==> bodies[e].triggered == old(bodies)[e].triggered
        invariant forall k :: 0 <= k < it ==>
                    bodies[x].members[k] < |bodies| && bodies[bodies[x].members[k]].triggered
        decreases |bodies[x].members| - it
      {
        var e := bodies[x].members[it];
        MemberListens(bodies, pending, x, e);
        if bodies[e].triggered {
          it := it + 1;
        } else {
          ghost var now := bodies;
          CullMember(x, it);
          EvolvesTransitive(old(bodies), now, bodies);
        }
      }
    }

    method CullMember(x: nat, k: nat)
      requires x < |bodies| && !bodies[x].triggered && Busy(x) && k < |bodies[x].members|
      requires bodies[x].members[k] < x && !bodies[bodies[x].members[k]].triggered
      requires Quorum(x) in bodies[bodies[x].members[k]].listeners
      modifies this`bodies
      ensures |bodies| == |old(bodies)| && Busy(x) && Evolves(old(bodies), bodies)
      ensures forall i :: 0 <= i < |bodies| ==> bodies[i].triggered == old(bodies)[i].triggered
      ensures bodies[x].members == SwapRemove(old(bodies)[x].members, k)
    {
      ghost var before := bodies;
      var e := bodies[x].members[k];
      RemoveListener(e, Quorum(x));
      bodies := bodies[x := bodies[x].(members := SwapRemove(bodies[x].members, k))];
      UnlinkInv(before, bodies, pending, explicit, x, e);
      PostsKept(before, bodies, posts, unposted, silent);
    }

    /** The first half of `trigger_member`: move one membership of `e` into the count. */
    method CountMember(e: nat, q: nat)
      requires e < |bodies| && q < |bodies| && (e, q) in pending && Busy(-1)
      modifies this`bodies, this`pending
      ensures Busy(q) && Evolves(old(bodies), bodies)
      ensures forall i :: 0 <= i < |bodies| ==> bodies[i].triggered == old(bodies)[i].triggered
      ensures pending == old(pending) - multiset{(e, q)}
      ensures !bodies[q].triggered ==> bodies[q].isQuorum && CountsMembers(bodies, q)
    {
      PendingIsMember(bodies, pending, e, q);
      var k := FindMember(q, e);
      bodies := bodies[q := bodies[q].(count := bodies[q].count + 1, members := SwapRemove(bodies[q].members, k))];
      ToldInv(old(bodies), bodies, pending, explicit, e, q);
      PostsKept(old(bodies), bodies, posts, unposted, silent);
      pending := pending - multiset{(e, q)};
    }

    method FindMember(q: nat, e: nat) returns (k: nat)
      requires q < |bodies| && e in bodies[q].members
      ensures k < |bodies[q].members| && bodies[q].members[k] == e
    {
      k := 0;
      while bodies[q].members[k] != e
        invariant k < |bodies[q].members| && e in bodies[q].members[k..]
        decreases |bodies[q].members| - k
      {
        k := k + 1;
      }
    }

    /** `trigger_member`: event `e` tells quorum `q` that it has triggered. */
    method TriggerMember(e: nat, q: nat, drv: Option<nat>)
      requires e < |bodies| && q < |bodies| && (e, q) in pending && Busy(-1)
      modifies this
      ensures Busy(-1) && Cascades(drv, old(Now()), Now())
      ensures pending == old(pending) - multiset{(e, q)}
      ensures explicit == old(explicit) && unposted == old(unposted)
      decreases Untriggered(bodies), 1
    {
      ghost var before := Now();
      CountMember(e, q);
      EvolvesShrinks(before.bodies, bodies);
      CascadesQuietly(drv, before, Now());
      if !bodies[q].triggered && bodies[q].count >= bodies[q].quorum {
        CountIsFired(bodies, q);
        ghost var told := Now();
        TriggerUnlock(q, false, drv);
        CascadesChains(drv, before, told, Now());
      }
    }

    /** Split the listeners of an event: the quorums, the coroutines that stay, and the distinct drivers
        to post to. Driver `drv` gets no post; if the slot `c` is empty it claims its first coroutine. */
    method SplitListeners(ls: seq<Listener>, drv: Option<nat>, c: Option<Claim>, x: nat)
      returns (quorums: seq<nat>, kept: seq<Listener>, drivers: seq<nat>, c': Option<Claim>)
      ensures quorums == QuorumsOf(ls) && kept == KeptOf(ls, Claimant(drv, c)) && c' == Claimed(ls, drv, c, x)
      ensures Enumerates(drivers, HomesBut(ls, drv))
    {
      quorums, kept, drivers, c' := [], [], [], c;
      for i := 0 to |ls|
        invariant quorums == QuorumsOf(ls[..i]) && kept == KeptOf(ls[..i], Claimant(drv, c))
        invariant c' == Claimed(ls[..i], drv, c, x)
        invariant Enumerates(drivers, HomesBut(ls[..i], drv))
      {
        SplitStep(ls, i, drv, c, x);
        if ls[i].Quorum? {
          quorums := quorums + [ls[i].q];
        } else if drv == Some(ls[i].home) && c'.None? {
          c' := Some(Claim(ls[i].id, ls[i].home, x));
        } else {
          if drv != Some(ls[i].home) && ls[i].home !in drivers {
            drivers := drivers + [ls[i].home];
          }
          kept := kept + [ls[i]];
        }
      }
      assert ls[..|ls|] == ls;
    }

    /** Inform the quorums that listened to `x`, one by one. */
    method TellQuorums(x: nat, quorums: seq<nat>, drv: Option<nat>, ghost rest: multiset<(nat, nat)>)
      requires x < |bodies| && bodies[x].triggered && Busy(-1) && pending == rest + Pairs(x, quorums)
      requires forall q :: q in quorums ==> q < |bodies|
      modifies this
      ensures Busy(-1) && Cascades(drv, old(Now()), Now())
      ensures pending == rest
      ensures explicit == old(explicit) && unposted == old(unposted)
      decreases Untriggered(bodies), 3
    {
      ghost var before := Now();
      CascadesNowhere(drv, before);
      var i := 0;
      while i != |quorums|
        invariant i <= |quorums| && |bodies| == |old(bodies)| && Busy(-1) && Cascades(drv, before, Now())
        invariant pending == rest + Pairs(x, quorums[i..])
        invariant explicit == old(explicit) && unposted == old(unposted)
        invariant Untriggered(bodies) <= Untriggered(old(bodies))
      {
        PendingStep(pending, rest, x, quorums, i);
        assert quorums[i] in quorums;
        TellNext(x, quorums[i], drv, before);
        i := i + 1;
      }
    }

    method TellNext(x: nat, q: nat, drv: Option<nat>, ghost before: Snap)
      requires x < |bodies| && q < |bodies| && (x, q) in pending && Busy(-1) && Cascades(drv, before, Now())
      modifies this
      ensures Busy(-1) && Cascades(drv, before, Now()) && |bodies| == |old(bodies)|
      ensures pending == old(pending) - multiset{(x, q)}
      ensures explicit == old(explicit) && unposted == old(unposted)
      ensures Untriggered(bodies) <= Untriggered(old(bodies))
      decreases Untriggered(bodies), 2
    {
      ghost var now := Now();
      TriggerMember(x, q, drv);
      CascadesChains(drv, before, now, Now());
      EvolvesShrinks(now.bodies, bodies);
    }

    /** The first half of `trigger_unlock`: cull a quorum's members, take the quorums off the
        listener list, claim a coroutine, and mark the event. */
    method MarkTriggered(x: nat, drv: Option<nat>, ghost byHand: bool) returns (quorums: seq<nat>, drivers: seq<nat>)
      requires x < |bodies| && !bodies[x].triggered && Busy(x)
      requires byHand || (bodies[x].isQuorum && Fired(bodies, bodies[x].args) >= bodies[x].quorum)
      modifies this
      ensures Busy(-1) && Cascades(drv, old(Now()), Now()) && bodies[x].triggered && posts == old(posts)
      ensures pending == old(pending) + Pairs(x, quorums) && unposted == old(unposted) + {x}
      ensures explicit == old(explicit) + if byHand then {x} else {}
      ensures forall q :: q in quorums ==> q < |bodies|
      ensures ToPost(drivers, x, drv, Now())
      ensures ClaimsFirst(drv, old(Now()), Now(), x) && Untriggered(bodies) < Untriggered(old(bodies))
    {
      ghost var before := Now();
      CullIfQuorum(x);
      CascadesQuietly(drv, before, Now());
      ghost var culled := Now();
      quorums, drivers := MarkCulled(x, drv, byHand);
      CascadesChains(drv, before, culled, Now());
      CulledClaims(drv, before, culled, Now(), x);
      EvolvesShrinks(before.bodies, bodies);
      UntriggeredShrinks(before.bodies, bodies);
    }

    method MarkCulled(x: nat, drv: Option<nat>, ghost byHand: bool) returns (quorums: seq<nat>, drivers: seq<nat>)
      requires x < |bodies| && !bodies[x].triggered && Busy(x) && Culled(bodies, x)
      requires byHand || (bodies[x].isQuorum && Fired(bodies, bodies[x].args) >= bodies[x].quorum)
      modifies this
      ensures Busy(-1) && Cascades(drv, old(Now()), Now()) && bodies[x].triggered && posts == old(posts)
      ensures pending == old(pending) + Pairs(x, quorums) && unposted == old(unposted) + {x}
      ensures explicit == old(explicit) + if byHand then {x} else {}
      ensures forall q :: q in quorums ==> q < |bodies|
      ensures ToPost(drivers, x, drv, Now())
      ensures ClaimsFirst(drv, old(Now()), Now(), x)
    {
      ghost var before := Now();
      ghost var byThen := explicit + if byHand then {x} else {};
      quorums, drivers := MarkOnly(x, drv);
      MarkAll(
        before, Snap(bodies, coh, silent + Silence(drv, x)),
        pending, explicit, byThen, posts, unposted, x, drv, drivers);
      pending, explicit := pending + Pairs(x, quorums), byThen;
      unposted, silent := unposted + {x}, silent + Silence(drv, x);
    }

    method MarkOnly(x: nat, drv: Option<nat>) returns (quorums: seq<nat>, drivers: seq<nat>)
      requires x < |bodies|
      modifies this`bodies, this`coh
      ensures bodies == Mark(old(bodies), x, Claimant(drv, old(coh)))
      ensures coh == Claimed(old(bodies)[x].listeners, drv, old(coh), x)
      ensures quorums == QuorumsOf(old(bodies)[x].listeners)
      ensures Enumerates(drivers, HomesBut(old(bodies)[x].listeners, drv))
    {
      var kept;
      quorums, kept, drivers, coh := SplitListeners(bodies[x].listeners, drv, coh, x);
      bodies := bodies[x := bodies[x].(triggered := true, listeners := kept)];
    }

    method CullIfQuorum(x: nat)
      requires x < |bodies| && !bodies[x].triggered && Busy(x)
      modifies this`bodies
      ensures Busy(x) && Evolves(old(bodies), bodies) && Culled(bodies, x)
      ensures forall e :: 0 <= e < |bodies| ==> bodies[e].triggered == old(bodies)[e].triggered
      ensures SameFormula(old(bodies)[x], bodies[x])
      ensures Fired(bodies, bodies[x].args) >= Fired(old(bodies), old(bodies)[x].args)
    {
      if bodies[x].isQuorum {
        CullMembers(x);
        FiredGrows(old(bodies), bodies, bodies[x].args);
        assert EvolvesAt(old(bodies), bodies, x);
      } else {
        assert OrderedAt(bodies, x);
        EvolvesItself(bodies);
      }
    }

    /** `trigger_unlock`: the cascade. */
    method TriggerUnlock(x: nat, ghost byHand: bool, drv: Option<nat>)
      requires x < |bodies| && !bodies[x].triggered && x !in unposted && Busy(x)
      requires byHand || (bodies[x].isQuorum && Fired(bodies, bodies[x].args) >= bodies[x].quorum)
      modifies this
      ensures Busy(-1) && Cascades(drv, old(Now()), Now()) && bodies[x].triggered
      ensures pending == old(pending) && unposted == old(unposted)
      ensures explicit == old(explicit) + if byHand then {x} else {}
      ensures ClaimsFirst(drv, old(Now()), Now(), x)
      decreases Untriggered(bodies), 0
    {
      ghost var before := Now();
      var quorums, drivers := MarkTriggered(x, drv, byHand);
      ghost var marked := Now();
      TellAndPost(x, quorums, drivers, drv, old(pending));
      CascadesChains(drv, before, marked, Now());
      ClaimStays(drv, before, marked, Now(), x);
    }

    /** The second half of `trigger_unlock`. */
    method TellAndPost(
      x: nat, quorums: seq<nat>, drivers: seq<nat>, drv: Option<nat>, ghost rest: multiset<(nat, nat)>)
      requires x < |bodies| && bodies[x].triggered && Busy(-1) && pending == rest + Pairs(x, quorums)
      requires x in unposted && ToPost(drivers, x, drv, Now()) && forall q :: q in quorums ==> q < |bodies|
      modifies this
      ensures Busy(-1) && Cascades(drv, old(Now()), Now()) && |bodies| == |old(bodies)| && bodies[x].triggered
      ensures pending == rest && explicit == old(explicit) && unposted == old(unposted) - {x}
      decreases Untriggered(bodies), 4
    {
      ghost var marked := Now();
      TellQuorums(x, quorums, drv, rest);
      PostTo(drivers, x, drv, marked);
    }

    /** Post `x` to each interested driver: those of the coroutines that listened to `x` when it
        was marked. */
    method PostTo(drivers: seq<nat>, x: nat, ghost drv: Option<nat>, ghost marked: Snap)
      requires Busy(-1) && x in unposted && x < |marked.bodies| && marked.bodies[x].triggered
      requires Cascades(drv, marked, Now())
      requires ToPost(drivers, x, drv, marked)
      modifies this`posts, this`unposted
      ensures Busy(-1) && unposted == old(unposted) - {x} && posts == old(posts) + PostAll(drivers, x)
      ensures bodies[x].triggered
    {
      assert EvolvesAt(marked.bodies, bodies, x);
      SameHomes(marked.bodies[x].listeners, bodies[x].listeners);
      assert forall d: nat :: SilentAt(drv, marked, Now(), Post(d, x));
      PostsAdd(bodies, posts, unposted, silent, x, drivers);
      for i := 0 to |drivers|
        invariant posts == old(posts) + PostAll(drivers[..i], x) && unposted == old(unposted)
      {
        assert drivers[..i + 1][..i] == drivers[..i];
        posts := posts + [Post(drivers[i], x)];
      }
      assert drivers[..|drivers|] == drivers;
      unposted := unposted - {x};
    }

    // Operations

    /** `event()`. */
    method NewEvent() returns (e: nat)
      requires Valid()
      modifies this
      ensures Valid() && e == |old(bodies)| && bodies == old(bodies) + [PLAIN]
      ensures posts == old(posts) && explicit == old(explicit) && silent == old(silent)
      ensures StillStranded(old(bodies), old(silent), bodies, silent)
    {
      AppendInv(bodies, explicit, PLAIN);
      PostsAppend(bodies, posts, silent, PLAIN);
      OnceAppend(bodies, PLAIN);
      e := |bodies|;
      bodies := bodies + [PLAIN];
      StrandedStays(old(bodies), bodies, silent);
    }

    /** `quorum_event_body::make`: `any` is a quorum of one, `all` a quorum of all arguments. */
    method MakeQuorum(quorum: nat, args: seq<Option<nat>>) returns (q: nat)
      requires Valid() && forall a :: a in args && a.Some? ==> a.value < |bodies|
      modifies this
      ensures Valid() && q == |old(bodies)| && |bodies| == q + 1 && explicit == old(explicit)
      ensures bodies[q].isQuorum && bodies[q].quorum == quorum && bodies[q].args == args
      ensures bodies[q].triggered <==> Fired(old(bodies), args) >= quorum
      ensures forall e :: 0 <= e < q ==> bodies[e].triggered == old(bodies)[e].triggered
      ensures SameListed(old(bodies) + [PLAIN], bodies) && silent == old(silent)
      ensures StillStranded(old(bodies), old(silent), bodies, silent)
    {
      AppendInv(bodies, explicit, EmptyQuorum(quorum));
      PostsAppend(bodies, posts, silent, EmptyQuorum(quorum));
      OnceAppend(bodies, EmptyQuorum(quorum));
      q := |bodies|;
      bodies := bodies + [EmptyQuorum(quorum)];
      for i := 0 to |args|
        invariant |bodies| == q + 1 && Busy(q) && Once(bodies) && CountsMembers(bodies, q)
        invariant Built(old(bodies), bodies, q, quorum, args[..i])
        invariant pending == multiset{} && unposted == {} && explicit == old(explicit) && silent == old(silent)
      {
        assert args[i] in args;
        assert args[..i + 1] == args[..i] + [args[i]];
        AddArgument(q, args[i], old(bodies), quorum, args[..i]);
      }
      assert args[..|args|] == args;
      ghost var built := bodies;
      Seal(q, old(bodies));
      SameListedChains(old(bodies) + [PLAIN], built, bodies);
      StrandedStays(old(bodies), bodies, silent);
    }

    method AddArgument(
      q: nat, a: Option<nat>, ghost before: seq<Body>, ghost quorum: nat, ghost args: seq<Option<nat>>)
      requires |before| == q && |bodies| == q + 1 && Busy(q) && Once(bodies) && pending == multiset{}
      requires (a.Some? ==> a.value < q) && CountsMembers(bodies, q) && Built(before, bodies, q, quorum, args)
      modifies this`bodies
      ensures |bodies| == q + 1 && Busy(q) && Once(bodies) && CountsMembers(bodies, q)
      ensures Built(before, bodies, q, quorum, args + [a])
    {
      ghost var now := bodies;
      BuildStep(before, bodies, q, quorum, args, a);
      AddMemberTo(q, a);
      SameListedChains(before + [PLAIN], now, bodies);
    }

    /** `seal`: trigger at once if enough arguments had already fired. */
    method Seal(q: nat, ghost before: seq<Body>)
      requires Inv(before, multiset{}, explicit, -1) && q == |before| && |bodies| == q + 1
      requires Busy(q) && Once(bodies) && pending == multiset{} && unposted == {}
      requires bodies[q].isQuorum && !bodies[q].triggered && CountsMembers(bodies, q)
      requires OlderSame(before, bodies, q)
      modifies this
      ensures Valid() && |bodies| == q + 1 && explicit == old(explicit) && SameFormula(old(bodies)[q], bodies[q])
      ensures bodies[q].triggered <==> Fired(before, bodies[q].args) >= bodies[q].quorum
      ensures forall e :: 0 <= e < q ==> bodies[e].triggered == before[e].triggered
      ensures SameListed(old(bodies), bodies) && silent == old(silent)
    {
      SealThreshold(bodies, before, explicit, q);
      ghost var built := bodies;
      if bodies[q].count >= bodies[q].quorum {
        ghost var s := Now();
        TriggerUnlock(q, false, None);
        CascadesByNobody(s, Now());
        OnceSame(built, bodies);
        forall e | 0 <= e <= q ensures SameFormula(built[e], bodies[e]) {
          assert EvolvesAt(built, bodies, e);
        }
        OlderUnaffected(before, bodies, explicit);
      }
    }

    method AddMemberTo(q: nat, a: Option<nat>)
      requires q < |bodies| && Busy(q) && Once(bodies) && bodies[q].isQuorum && !bodies[q].triggered
      requires (a.Some? ==> a.value < q) && CountsMembers(bodies, q) && pending == multiset{}
      modifies this`bodies
      ensures bodies == AddMember(old(bodies), q, a)
      ensures Busy(q) && Once(bodies) && CountsMembers(bodies, q) && SameListed(old(bodies), bodies)
    {
      ghost var before := bodies;
      AddMemberInv(bodies, explicit, q, a);
      AddMemberCoroutines(bodies, q, a);
      LinkMember(q, a);
      assert PostsOk(bodies, posts, unposted, silent) by { PostsSame(before, bodies, posts, unposted, silent); }
      assert Once(bodies) by { OnceSame(before, bodies); }
    }

    /** `add_member`: count an argument that has fired, or link the two lists. */
    method LinkMember(q: nat, a: Option<nat>)
      requires q < |bodies| && (a.Some? ==> a.value < q)
      modifies this`bodies
      ensures bodies == AddMember(old(bodies), q, a)
    {
      var fired := a.None? || bodies[a.value].triggered;
      bodies := bodies[q := bodies[q].(args := bodies[q].args + [a])];
      if fired {
        bodies := bodies[q := bodies[q].(count := bodies[q].count + 1)];
      } else {
        bodies := bodies[q := bodies[q].(members := bodies[q].members + [a.value])];
        bodies := bodies[a.value := bodies[a.value].(listeners := bodies[a.value].listeners + [Quorum(q)])];
      }
    }

    /** `trigger()`. The result says whether the event was untriggered. */
    method Trigger(e: nat) returns (first: bool)
      requires Valid() && e < |bodies|
      modifies this
      ensures Valid() && Evolves(old(bodies), bodies) && bodies[e].triggered
      ensures SameListed(old(bodies), bodies) && silent == old(silent)
      ensures StillStranded(old(bodies), old(silent), bodies, silent)
      ensures first <==> !old(bodies)[e].triggered
      ensures explicit == old(explicit) + if first then {e} else {}
      ensures !first ==> bodies == old(bodies) && posts == old(posts)
    {
      first := !bodies[e].triggered;
      ghost var before := Now();
      if first {
        CountingExempt(bodies, e);
        TriggerUnlock(e, true, None);
        CascadesByNobody(before, Now());
        OnceSame(before.bodies, bodies);
      } else {
        EvolvesItself(bodies);
      }
      EvolvesShrinks(before.bodies, bodies);
      StrandedStays(before.bodies, bodies, silent);
    }

    /** `triggered()`: the incremental state answers the threshold formula. */
    method IsTriggered(e: nat) returns (r: bool)
      requires Valid() && e < |bodies|
      ensures r <==> Meaning(bodies, explicit, e)
    {
      TriggeredMeans(bodies, explicit, e);
      r := bodies[e].triggered;
    }

    /** `co_await e`: an untriggered event gains a coroutine that waits nowhere else. */
    method Await(e: nat, id: nat, home: nat) returns (suspended: bool)
      requires Valid() && e < |bodies| && !Listed(bodies, id)
      modifies this`bodies
      ensures Valid() && (suspended <==> !old(bodies)[e].triggered)
      ensures bodies == if suspended
                        then WithListener(old(bodies), e, Coroutine(id, home))
                        else old(bodies)
      ensures StillStranded(old(bodies), silent, bodies, silent)
    {
      suspended := !bodies[e].triggered;
      if suspended {
        AwaitInv(bodies, explicit, posts, silent, e, Coroutine(id, home));
        bodies := bodies[e := bodies[e].(listeners := bodies[e].listeners + [Coroutine(id, home)])];
      }
      forall d: nat, i: nat, x: nat | Waits(old(bodies), x, d, i) ensures Waits(bodies, x, d, i) {}
    }

    /** `driver_trigger` on an event that has not triggered: trigger it, and take the coroutine claimed. */
    method DriverTrigger(x: nat, d: nat) returns (id: Option<nat>)
      requires Valid() && x < |bodies| && !bodies[x].triggered
      modifies this
      ensures Busy(-1) && pending == multiset{} && unposted == {} && explicit == old(explicit) + {x}
      ensures Cascades(Some(d), Snap(old(bodies), None, old(silent)), Now()) && bodies[x].triggered
      ensures ClaimsFirst(Some(d), Snap(old(bodies), None, old(silent)), Now(), x)
      ensures id == if coh.Some? then Some(coh.value.id) else None
    {
      coh := None;
      CountingExempt(bodies, x);
      TriggerUnlock(x, true, Some(d));
      id := if coh.Some? then Some(coh.value.id) else None;
    }

    /** A driver's timer or descriptor fires event `x`: the driver triggers it and runs coroutines until
        `driver_trigger` gives none. It resumes all its own that were reached exactly if they are served. */
    method RunEvent(x: nat, d: nat) returns (resumed: seq<nat>)
      requires Valid() && x < |bodies| && !bodies[x].triggered
      modifies this
      ensures Valid() && |bodies| == |old(bodies)| && explicit == old(explicit) + {x}
      ensures RunMeans(old(bodies), old(silent), Reached(old(bodies), old(explicit), x), bodies, silent, x, d, resumed)
    {
      ghost var s := Snap(bodies, None, silent);
      ghost var t;
      resumed, t := RunClaimed(x, d);
      silent := silent - {Post(d, x)};
      RunValid(s, t, bodies, explicit, posts, x, d, resumed);
      RunOutcome(s, t, bodies, old(explicit), x, d, resumed);
    }

    method RunClaimed(x: nat, d: nat) returns (resumed: seq<nat>, ghost t: Snap)
      requires Valid() && x < |bodies| && !bodies[x].triggered
      modifies this
      ensures Inv(t.bodies, multiset{}, explicit, -1) && PostsOk(t.bodies, posts, {}, silent)
      ensures pending == multiset{} && unposted == {} && explicit == old(explicit) + {x} && silent == t.silent
      ensures Ran(Snap(old(bodies), None, old(silent)), t, bodies, x, d, resumed)
    {
      ghost var s := Snap(bodies, None, silent);
      var first := DriverTrigger(x, d);
      t := Now();
      if first.Some? {
        var rest := RunCoroutines(x, d);
        resumed := [first.value] + rest;
        RanSome(s, t, bodies, x, d, rest);
      } else {
        resumed := [];
        RanNone(s, t, x, d);
      }
    }

    /** `driver_trigger` on an event that has triggered: take one coroutine of driver `d`. */
    method TakeListed(x: nat, d: nat) returns (id: Option<nat>)
      requires x < |bodies|
      modifies this`bodies
      ensures |bodies| == |old(bodies)|
      ensures id.None? ==> d !in Homes(bodies[x].listeners) && bodies == old(bodies)
      ensures id.Some? ==>
                && Coroutine(id.value, d) in old(bodies)[x].listeners
                && bodies == old(bodies)[x := old(bodies)[x].(listeners := bodies[x].listeners)]
                && |bodies[x].listeners| < |old(bodies)[x].listeners|
                && multiset(bodies[x].listeners) ==
                  multiset(old(bodies)[x].listeners) - multiset{Coroutine(id.value, d)}
    {
      var ls := bodies[x].listeners;
      for k := 0 to |ls|
        invariant bodies == old(bodies)
        invariant forall i :: 0 <= i < k ==> !(ls[i].Coroutine? && ls[i].home == d)
      {
        if ls[k].Coroutine? && ls[k].home == d {
          bodies := bodies[x := bodies[x].(listeners := SwapRemove(ls, k))];
          return Some(ls[k].id);
        }
      }
      return None;
    }

    /** The loop around `driver_trigger`: driver `d` resumes its coroutines on `x`, one by one. */
    method RunCoroutines(x: nat, d: nat) returns (resumed: seq<nat>)
      requires x < |bodies|
      modifies this`bodies
      ensures OnlyListeners(old(bodies), bodies, x)
      ensures WithoutHome(old(bodies)[x].listeners, bodies[x].listeners, d)
      ensures forall id: nat :: multiset(resumed)[id] == multiset(old(bodies)[x].listeners)[Coroutine(id, d)]
    {
      ghost var all, before := bodies[x].listeners, bodies;
      resumed := [];
      var more := TakeListed(x, d);
      ResumeFirst(all, bodies[x].listeners, d, more);
      while more.Some?
        invariant OnlyListeners(before, bodies, x)
        invariant Resuming(all, bodies[x].listeners, d, resumed, more)
        invariant more.None? ==> d !in Homes(bodies[x].listeners)
        decreases |bodies[x].listeners| + if more.Some? then 1 else 0
      {
        ghost var now := bodies;
        resumed, more := ResumeNext(x, d, resumed, more.value, all);
        OnlyListenersChains(before, now, bodies, x);
      }
      NoneLeft(all, bodies[x].listeners, d, resumed);
    }

    /** Coroutine `id` has run: look for the next. */
    method ResumeNext(x: nat, d: nat, resumed: seq<nat>, id: nat, ghost all: seq<Listener>)
      returns (resumed': seq<nat>, more: Option<nat>)
      requires x < |bodies| && Resuming(all, bodies[x].listeners, d, resumed, Some(id))
      modifies this`bodies
      ensures OnlyListeners(old(bodies), bodies, x)
      ensures Resuming(all, bodies[x].listeners, d, resumed', more)
      ensures more.None? ==> d !in Homes(bodies[x].listeners) && bodies == old(bodies)
      ensures more.Some? ==> |bodies[x].listeners| < |old(bodies)[x].listeners|
    {
      resumed' := resumed + [id];
      more := TakeListed(x, d);
      ResumeStep(all, old(bodies)[x].listeners, bodies[x].listeners, d, resumed, id, more);
    }

    /** A driver takes its next post and runs that event's coroutines until none is left. */
    method Drain() returns (p: Post, resumed: seq<nat>)
      requires Valid() && posts != []
      modifies this
      ensures Valid() && p == old(posts)[0] && posts == old(posts)[1..] && explicit == old(explicit)
      ensures silent == old(silent) && p !in silent && StillStranded(old(bodies), silent, bodies, silent)
      ensures p.event < |old(bodies)| == |bodies| && old(bodies)[p.event].triggered
      ensures bodies == old(bodies)[p.event := old(bodies)[p.event].(listeners := bodies[p.event].listeners)]
      ensures WithoutHome(old(bodies)[p.event].listeners, bodies[p.event].listeners, p.driver)
      ensures forall id: nat ::
                multiset(resumed)[id] == multiset(old(bodies)[p.event].listeners)[Coroutine(id, p.driver)]
    {
      p := posts[0];
      FirstPost(bodies, posts, silent);
      resumed := RunCoroutines(p.event, p.driver);
      DrainInv(old(bodies), bodies, explicit, posts, silent, p.event, p.driver);
      forall d: nat, id: nat ensures Stranded(bodies, silent, d, id) <==> Stranded(old(bodies), silent, d, id) {
        DueAfter(old(bodies), bodies, silent, p, d, id);
      }
      posts := posts[1..];
    }

    /** Drain everything: each coroutine on a triggered event whose driver was left a post is resumed
        exactly once, by its home driver. The others are not. */
    method DrainAll() returns (log: seq<Resume>)
      requires Valid()
      modifies this
      ensures Valid() && posts == [] && explicit == old(explicit) && |bodies| == |old(bodies)|
      ensures silent == old(silent)
      ensures forall d: nat, id: nat ::
                multiset(log)[Resume(d, id)] == if Due(old(bodies), silent, d, id) then 1 else 0
      ensures forall d: nat, id: nat :: !Due(bodies, silent, d, id)
      ensures forall d: nat, id: nat :: Stranded(bodies, silent, d, id) <==> Stranded(old(bodies), silent, d, id)
      ensures forall e :: 0 <= e < |bodies| ==> bodies[e].triggered == old(bodies)[e].triggered
    {
      log := [];
      while posts != []
        invariant Valid() && explicit == old(explicit) && silent == old(silent) && |bodies| == |old(bodies)|
        invariant forall e :: 0 <= e < |bodies| ==> bodies[e].triggered == old(bodies)[e].triggered
        invariant Logged(old(bodies), bodies, silent, log)
        invariant forall d: nat, id: nat :: Stranded(bodies, silent, d, id) <==> Stranded(old(bodies), silent, d, id)
        decreases |posts|
      {
        ghost var before, so_far := bodies, log;
        var p, resumed := Drain();
        log := log + Entries(p.driver, resumed);
        LogStep(old(bodies), before, bodies, silent, so_far, p, resumed);
      }
      NothingDue(bodies, explicit, silent);
      LogEnd(old(bodies), bodies, silent, log);
    }
  }

  datatype Resume = Resume(driver: nat, id: nat)

  /** What has been resumed is what was due and no longer is. */
  ghost predicate Logged(all: seq<Body>, bs: seq<Body>, silent: set<Post>, log: seq<Resume>) {
    forall d: nat, id: nat :: LoggedAt(all, bs, silent, log, d, id)
  }

  ghost predicate LoggedAt(all: seq<Body>, bs: seq<Body>, silent: set<Post>, log: seq<Resume>, d: nat, id: nat) {
    && (Due(bs, silent, d, id) ==> Due(all, silent, d, id))
    && multiset(log)[Resume(d, id)] == if Due(all, silent, d, id) && !Due(bs, silent, d, id) then 1 else 0
  }

  function Entries(d: nat, ids: seq<nat>): seq<Resume> {
    if ids == [] then [] else Entries(d, ids[..|ids| - 1]) + [Resume(d, ids[|ids| - 1])]
  }

  lemma {:induction false} EntriesCount(d: nat, ids: seq<nat>, h: nat, id: nat)
    ensures multiset(Entries(d, ids))[Resume(h, id)] == if h == d then multiset(ids)[id] else 0
  {
    if ids != [] {
      EntriesCount(d, ids[..|ids| - 1], h, id);
      assert ids == ids[..|ids| - 1] + [ids[|ids| - 1]];
    }
  }

  /** Draining `p` makes exactly the coroutines of its driver on its event no longer due. */
  lemma DueAfter(bs: seq<Body>, bs': seq<Body>, silent: set<Post>, p: Post, d: nat, id: nat)
    requires Once(bs) && p.event < |bs| == |bs'| && bs[p.event].triggered && p !in silent
    requires bs' == bs[p.event := bs[p.event].(listeners := bs'[p.event].listeners)]
    requires WithoutHome(bs[p.event].listeners, bs'[p.event].listeners, p.driver)
    ensures Due(bs', silent, d, id) <==>
            Due(bs, silent, d, id) && !(d == p.driver && ListedAt(bs, p.event, Coroutine(id, d)))
    ensures multiset(bs[p.event].listeners)[Coroutine(id, d)] ==
            if ListedAt(bs, p.event, Coroutine(id, d)) then 1 else 0
    ensures d == p.driver && ListedAt(bs, p.event, Coroutine(id, d)) ==> Due(bs, silent, d, id)
    ensures Stranded(bs', silent, d, id) <==> Stranded(bs, silent, d, id)
  {
    var x, c := p.event, Coroutine(id, d);
    assert ListedAt(bs, x, c) <==> c in multiset(bs[x].listeners);
    assert ListedAt(bs', x, c) <==> c in multiset(bs'[x].listeners);
    assert WithoutHomeAt(bs[x].listeners, bs'[x].listeners, p.driver, c);
    forall e: nat ensures Waits(bs', e, d, id) <==> Waits(bs, e, d, id) && !(e == x && d == p.driver) {}
    if Waits(bs, x, d, id) {
      forall e: nat | Waits(bs, e, d, id) ensures e == x {}
    }
  }

  lemma LogStep(
    all: seq<Body>, bs: seq<Body>, bs': seq<Body>, silent: set<Post>, log: seq<Resume>, p: Post, resumed: seq<nat>)
    requires Logged(all, bs, silent, log) && Once(bs) && p.event < |bs| == |bs'| && bs[p.event].triggered
    requires bs' == bs[p.event := bs[p.event].(listeners := bs'[p.event].listeners)] && p !in silent
    requires WithoutHome(bs[p.event].listeners, bs'[p.event].listeners, p.driver)
    requires forall id: nat :: multiset(resumed)[id] == multiset(bs[p.event].listeners)[Coroutine(id, p.driver)]
    ensures Logged(all, bs', silent, log + Entries(p.driver, resumed))
    ensures forall d: nat, id: nat :: Stranded(bs', silent, d, id) <==> Stranded(bs, silent, d, id)
  {
    forall d: nat, id: nat ensures LoggedAt(all, bs', silent, log + Entries(p.driver, resumed), d, id) {
      assert LoggedAt(all, bs, silent, log, d, id);
      DueAfter(bs, bs', silent, p, d, id);
      EntriesCount(p.driver, resumed, d, id);
      assert multiset(log + Entries(p.driver, resumed)) == multiset(log) + multiset(Entries(p.driver, resumed));
    }
    forall d: nat, id: nat ensures Stranded(bs', silent, d, id) <==> Stranded(bs, silent, d, id) {
      DueAfter(bs, bs', silent, p, d, id);
    }
  }

  /** With no posts left, a list of a triggered event holds only coroutines never posted. */
  lemma OnlySilentListed(bs: seq<Body>, explicit: set<nat>, silent: set<Post>, e: nat, l: Listener)
    requires Inv(bs, multiset{}, explicit, -1) && PostsOk(bs, [], {}, silent)
    requires e < |bs| && bs[e].triggered && l in bs[e].listeners
    ensures l.Coroutine? && Post(l.home, e) in silent
  {
    assert OrderedAt(bs, e);
    assert l in multiset(bs[e].listeners);
    assert l.Quorum? ==> LinkedAt(bs, multiset{}, e, l.q);
    assert l.Coroutine? ==> PostOk(bs, [], {}, silent, l.home, e);
  }

  lemma NothingDue(bs: seq<Body>, explicit: set<nat>, silent: set<Post>)
    requires Inv(bs, multiset{}, explicit, -1) && PostsOk(bs, [], {}, silent)
    ensures forall d: nat, id: nat :: !Due(bs, silent, d, id)
  {
    forall d: nat, id: nat ensures !Due(bs, silent, d, id) {
      forall e: nat | Waits(bs, e, d, id) ensures Post(d, e) in silent {
        OnlySilentListed(bs, explicit, silent, e, Coroutine(id, d));
      }
    }
  }

  lemma LogEnd(all: seq<Body>, bs: seq<Body>, silent: set<Post>, log: seq<Resume>)
    requires Logged(all, bs, silent, log) && forall d: nat, id: nat :: !Due(bs, silent, d, id)
    ensures forall d: nat, id: nat :: multiset(log)[Resume(d, id)] == if Due(all, silent, d, id) then 1 else 0
  {
    forall d: nat, id: nat ensures multiset(log)[Resume(d, id)] == if Due(all, silent, d, id) then 1 else 0 {
      assert LoggedAt(all, bs, silent, log, d, id);
    }
  }

  lemma ResumeFirst(a: seq<Listener>, b: seq<Listener>, d: nat, more: Option<nat>)
    requires more.None? ==> b == a
    requires more.Some? ==>
               Coroutine(more.value, d) in a && multiset(b) == multiset(a) - multiset{Coroutine(more.value, d)}
    ensures Resuming(a, b, d, [], more)
  {
    forall l: Listener ensures ResumingAt(a, b, d, [], more, l) {
      assert more.Some? ==> Coroutine(more.value, d) in multiset(a);
    }
  }

  /** All that marking an event keeps and brings about. */
  lemma MarkAll(
    s: Snap, t: Snap, pending: multiset<(nat, nat)>, explicit: set<nat>, explicit': set<nat>, posts: seq<Post>,
    unposted: set<nat>, x: nat, drv: Option<nat>, drivers: seq<nat>)
    requires Inv(s.bodies, pending, explicit, x) && PostsOk(s.bodies, posts, unposted, s.silent)
    requires x < |s.bodies| && !s.bodies[x].triggered && Culled(s.bodies, x)
    requires explicit <= explicit' <= explicit + {x} && Enumerates(drivers, HomesBut(s.bodies[x].listeners, drv))
    requires x in explicit' || (s.bodies[x].isQuorum && Fired(s.bodies, s.bodies[x].args) >= s.bodies[x].quorum)
    requires t == Snap(
                    Mark(s.bodies, x, Claimant(drv, s.coh)),
                    Claimed(s.bodies[x].listeners, drv, s.coh, x),
                    s.silent + Silence(drv, x))
    ensures Inv(t.bodies, pending + Pairs(x, QuorumsOf(s.bodies[x].listeners)), explicit', -1)
    ensures PostsOk(t.bodies, posts, unposted + {x}, t.silent)
    ensures Cascades(drv, s, t) && ClaimsFirst(drv, s, t, x)
    ensures forall q :: q in QuorumsOf(s.bodies[x].listeners) ==> q < |s.bodies|
    ensures ToPost(drivers, x, drv, t)
  {
    assert Evolves(s.bodies, t.bodies)
        && Inv(t.bodies, pending + Pairs(x, QuorumsOf(s.bodies[x].listeners)), explicit', -1) by {
      MarkInv(s.bodies, pending, explicit, explicit', x, Claimant(drv, s.coh));
    }
    PostsMark(s.bodies, t.bodies, posts, unposted, s.silent, x, drv);
    CascadesMark(drv, s, t, x);
    ListenersInRange(s.bodies, x);
    KeptHomes(s.bodies[x].listeners, drv, s.coh);
  }

  lemma ListenersInRange(bs: seq<Body>, x: nat)
    requires Ordered(bs) && x < |bs|
    ensures forall q :: q in QuorumsOf(bs[x].listeners) ==> q < |bs|
  {
    forall q | q in QuorumsOf(bs[x].listeners) ensures q < |bs| {
      assert OrderedAt(bs, x);
      QuorumCount(bs[x].listeners, q);
      assert q in multiset(QuorumsOf(bs[x].listeners));
      assert Quorum(q) in multiset(bs[x].listeners);
    }
  }

  lemma MemberListens(bs: seq<Body>, pending: multiset<(nat, nat)>, x: nat, e: nat)
    requires Ordered(bs) && Linked(bs, pending) && x < |bs| && e in bs[x].members
    ensures e < x && (!bs[e].triggered ==> Quorum(x) in bs[e].listeners)
  {
    assert OrderedAt(bs, x);
    assert LinkedAt(bs, pending, e, x);
    assert e in multiset(bs[x].members);
    if !bs[e].triggered {
      assert Quorum(x) in multiset(bs[e].listeners);
    }
  }

  lemma PendingIsMember(bs: seq<Body>, pending: multiset<(nat, nat)>, e: nat, q: nat)
    requires Ordered(bs) && Linked(bs, pending) && e < |bs| && q < |bs| && (e, q) in pending
    ensures bs[e].triggered && e in bs[q].members && bs[q].isQuorum
  {
    assert LinkedAt(bs, pending, e, q);
    assert e in multiset(bs[q].members);
    assert OrderedAt(bs, q);
  }

  lemma PostsAppend(bs: seq<Body>, posts: seq<Post>, silent: set<Post>, b: Body)
    requires PostsOk(bs, posts, {}, silent) && Blank(b)
    ensures PostsOk(bs + [b], posts, {}, silent)
  {
    forall d: nat, x: nat ensures PostOk(bs + [b], posts, {}, silent, d, x) {
      assert PostOk(bs, posts, {}, silent, d, x);
    }
  }

  lemma PostsSame(bs: seq<Body>, bs': seq<Body>, posts: seq<Post>, unposted: set<nat>, silent: set<Post>)
    requires PostsOk(bs, posts, unposted, silent) && SameListed(bs, bs')
    requires forall e :: 0 <= e < |bs| ==> bs'[e].triggered == bs[e].triggered
    ensures PostsOk(bs', posts, unposted, silent)
  {
    forall d: nat, x: nat ensures PostOk(bs', posts, unposted, silent, d, x) {
      assert PostOk(bs, posts, unposted, silent, d, x);
      if x < |bs| {
        SameHomes(bs[x].listeners, bs'[x].listeners);
      }
    }
  }

  lemma AddMemberCoroutines(bs: seq<Body>, q: nat, a: Option<nat>)
    requires q < |bs| && (a.Some? ==> a.value < q)
    ensures SameListed(bs, AddMember(bs, q, a))
    ensures forall e :: 0 <= e < |bs| ==> AddMember(bs, q, a)[e].triggered == bs[e].triggered
  {
  }

  lemma CountingExempt(bs: seq<Body>, x: int)
    requires Counting(bs, -1)
    ensures Counting(bs, x)
  {
  }

  lemma EvolvesItself(bs: seq<Body>)
    ensures Evolves(bs, bs)
  {
    forall e | 0 <= e < |bs| ensures EvolvesAt(bs, bs, e) {}
  }

  /** A finished quorum under construction has counted exactly the arguments that had fired. */
  lemma SealThreshold(bs: seq<Body>, before: seq<Body>, explicit: set<nat>, q: nat)
    requires Inv(bs, multiset{}, explicit, q)
    requires q == |before| && |bs| == q + 1 && bs[q].isQuorum && !bs[q].triggered && CountsMembers(bs, q)
    requires forall e :: 0 <= e < q ==> bs[e].triggered == before[e].triggered
    ensures bs[q].count == Fired(bs, bs[q].args) == Fired(before, bs[q].args)
  {
    forall a | a in bs[q].members ensures a < |bs| && !bs[a].triggered {
      assert OrderedAt(bs, q);
      assert LinkedAt(bs, multiset{}, a, q);
      assert a in multiset(bs[q].members);
    }
    CountIsFired(bs, q);
    assert OrderedAt(bs, q);
    FiredBelow(bs, before, q, bs[q].args);
  }

  lemma {:induction false} FiredBelow(bs: seq<Body>, before: seq<Body>, q: nat, args: seq<Option<nat>>)
    requires q == |before| <= |bs| && forall e :: 0 <= e < q ==> bs[e].triggered == before[e].triggered
    requires forall a :: a in args && a.Some? ==> a.value < q
    ensures Fired(bs, args) == Fired(before, args)
  {
    if args != [] {
      assert args[|args| - 1] in args;
      FiredBelow(bs, before, q, args[..|args| - 1]);
    }
  }

  /** Whatever was built since, older events with the same formulas are triggered as before. */
  lemma OlderUnaffected(bs: seq<Body>, bs': seq<Body>, explicit: set<nat>)
    requires Inv(bs, multiset{}, explicit, -1) && Inv(bs', multiset{}, explicit, -1) && |bs| <= |bs'|
    requires forall e :: 0 <= e < |bs| ==> SameFormula(bs[e], bs'[e])
    ensures forall e :: 0 <= e < |bs| ==> bs'[e].triggered == bs[e].triggered
  {
    forall e | 0 <= e < |bs| ensures bs'[e].triggered == bs[e].triggered {
      TriggeredMeans(bs, explicit, e);
      TriggeredMeans(bs', explicit, e);
      MeaningSame(bs, bs', explicit, e);
    }
  }

  // Changing only the coroutines in one list

  /** `bs'` differs from `bs` in the coroutines listed at event `x`. */
  ghost predicate RelistedAt(bs: seq<Body>, bs': seq<Body>, x: nat) {
    && x < |bs| && |bs'| == |bs| && bs' == bs[x := bs[x].(listeners := bs'[x].listeners)]
    && forall q: nat :: multiset(bs'[x].listeners)[Quorum(q)] == multiset(bs[x].listeners)[Quorum(q)]
  }

  lemma RelistOrdered(bs: seq<Body>, bs': seq<Body>, x: nat)
    requires Ordered(bs) && RelistedAt(bs, bs', x)
    ensures Ordered(bs')
  {
    forall q | 0 <= q < |bs| ensures OrderedAt(bs', q) {
      assert OrderedAt(bs, q);
      if q == x {
        forall l | l in bs'[x].listeners && l.Quorum? ensures l in bs[x].listeners {
          assert l in multiset(bs'[x].listeners) && l == Quorum(l.q);
          assert l in multiset(bs[x].listeners);
        }
      }
    }
  }

  lemma RelistInv(bs: seq<Body>, bs': seq<Body>, explicit: set<nat>, x: nat)
    requires Inv(bs, multiset{}, explicit, -1) && RelistedAt(bs, bs', x)
    ensures Inv(bs', multiset{}, explicit, -1)
  {
    assert Ordered(bs') by { RelistOrdered(bs, bs', x); }
    assert Linked(bs', multiset{}) by {
      forall a: nat, q: nat | 0 <= a < |bs| && 0 <= q < |bs| ensures LinkedAt(bs', multiset{}, a, q) {
        assert LinkedAt(bs, multiset{}, a, q);
      }
    }
    assert Counting(bs', -1) by { RelistCounting(bs, bs', x); }
    assert Caused(bs', explicit) by { SameTriggersInv(bs, bs', explicit); }
    forall q | 0 <= q < |bs| && bs'[q].triggered ensures Culled(bs', q) {
      assert Culled(bs, q);
    }
  }

  lemma RelistCounting(bs: seq<Body>, bs': seq<Body>, x: nat)
    requires Counting(bs, -1) && RelistedAt(bs, bs', x)
    ensures Counting(bs', -1)
  {
    forall q | 0 <= q < |bs| && bs[q].isQuorum && !bs[q].triggered ensures CountsMembers(bs', q) {
      assert CountsMembers(bs, q);
      forall e: nat | 0 <= e < |bs| && !bs'[e].triggered ensures Membership(bs', q, e) == Arguments(bs', q, e) {
        assert Membership(bs, q, e) == Arguments(bs, q, e);
      }
    }
  }

  lemma AwaitInv(bs: seq<Body>, explicit: set<nat>, posts: seq<Post>, silent: set<Post>, e: nat, l: Listener)
    requires Inv(bs, multiset{}, explicit, -1) && PostsOk(bs, posts, {}, silent) && Once(bs)
    requires e < |bs| && !bs[e].triggered && l.Coroutine? && !Listed(bs, l.id)
    ensures var bs' := bs[e := bs[e].(listeners := bs[e].listeners + [l])];
            Inv(bs', multiset{}, explicit, -1) && PostsOk(bs', posts, {}, silent) && Once(bs')
  {
    var bs' := bs[e := bs[e].(listeners := bs[e].listeners + [l])];
    assert RelistedAt(bs, bs', e);
    assert Inv(bs', multiset{}, explicit, -1) by { RelistInv(bs, bs', explicit, e); }
    forall d: nat, x: nat ensures PostOk(bs', posts, {}, silent, d, x) {
      assert PostOk(bs, posts, {}, silent, d, x);
    }
    AwaitOnce(bs, e, l);
  }

  lemma AwaitOnce(bs: seq<Body>, e: nat, l: Listener)
    requires Once(bs) && e < |bs| && l.Coroutine? && !Listed(bs, l.id)
    ensures Once(bs[e := bs[e].(listeners := bs[e].listeners + [l])])
  {
    var bs' := bs[e := bs[e].(listeners := bs[e].listeners + [l])];
    assert !ListedAt(bs, e, l);
    assert l !in multiset(bs[e].listeners);
    forall f, m | 0 <= f < |bs| && ListedAt(bs', f, m) ensures ListedAt(bs, f, m) || (f == e && m == l) {}
  }

  // Draining a post

  /** `a` is what is left in `b` together with what driver `d` has taken. */
  ghost predicate Resuming(a: seq<Listener>, b: seq<Listener>, d: nat, resumed: seq<nat>, more: Option<nat>) {
    forall l: Listener :: ResumingAt(a, b, d, resumed, more, l)
  }

  ghost predicate ResumingAt(
    a: seq<Listener>, b: seq<Listener>, d: nat, resumed: seq<nat>, more: Option<nat>, l: Listener) {
    multiset(a)[l] == multiset(b)[l] + Taken(l, d, resumed, more)
  }

  ghost function Taken(l: Listener, d: nat, resumed: seq<nat>, more: Option<nat>): nat {
    if l.Coroutine? && l.home == d then multiset(resumed)[l.id] + (if more == Some(l.id) then 1 else 0) else 0
  }

  lemma ResumeStep(
    a: seq<Listener>, b: seq<Listener>, b': seq<Listener>, d: nat, taken: seq<nat>, id: nat, more: Option<nat>)
    requires Resuming(a, b, d, taken, Some(id))
    requires more.None? ==> b' == b
    requires more.Some? ==>
               Coroutine(more.value, d) in b && multiset(b') == multiset(b) - multiset{Coroutine(more.value, d)}
    ensures Resuming(a, b', d, taken + [id], more)
  {
    forall l: Listener ensures ResumingAt(a, b', d, taken + [id], more, l) {
      assert ResumingAt(a, b, d, taken, Some(id), l);
      assert more.Some? ==> Coroutine(more.value, d) in multiset(b);
    }
  }

  lemma NoneLeft(a: seq<Listener>, b: seq<Listener>, d: nat, resumed: seq<nat>)
    requires Resuming(a, b, d, resumed, None) && d !in Homes(b)
    ensures WithoutHome(a, b, d)
    ensures forall id: nat :: multiset(resumed)[id] == multiset(a)[Coroutine(id, d)]
  {
    forall l ensures WithoutHomeAt(a, b, d, l) {
      assert ResumingAt(a, b, d, resumed, None, l);
      if l.Coroutine? && l.home == d {
        assert l !in b;
        assert l !in multiset(b);
      }
    }
    forall id: nat ensures multiset(resumed)[id] == multiset(a)[Coroutine(id, d)] {
      assert ResumingAt(a, b, d, resumed, None, Coroutine(id, d));
      assert WithoutHomeAt(a, b, d, Coroutine(id, d));
    }
  }

  // Running an event that a driver triggers

  lemma RanSome(s: Snap, t: Snap, u: seq<Body>, x: nat, d: nat, rest: seq<nat>)
    requires Cascades(Some(d), s, t) && s.coh.None? && t.coh.Some? && x < |s.bodies| && Newly(s.bodies, t.bodies, x)
    requires ClaimsFirst(Some(d), s, t, x) && OnlyListeners(t.bodies, u, x)
    requires WithoutHome(t.bodies[x].listeners, u[x].listeners, d)
    requires forall id: nat :: multiset(rest)[id] == multiset(t.bodies[x].listeners)[Coroutine(id, d)]
    ensures Ran(s, t, u, x, d, [t.coh.value.id] + rest)
  {
    forall id: nat ensures multiset([t.coh.value.id] + rest)[id] == RunCount(t, x, d, id) {
      assert multiset([t.coh.value.id] + rest) == multiset{t.coh.value.id} + multiset(rest);
    }
  }

  lemma RanNone(s: Snap, t: Snap, x: nat, d: nat)
    requires Cascades(Some(d), s, t) && s.coh.None? && t.coh.None? && x < |s.bodies| && Newly(s.bodies, t.bodies, x)
    requires ClaimsFirst(Some(d), s, t, x)
    ensures Ran(s, t, t.bodies, x, d, [])
  {
    var ls, ls' := s.bodies[x].listeners, t.bodies[x].listeners;
    assert HeldSame(s, t, x);
    forall l: Listener ensures WithoutHomeAt(ls', ls', d, l) {
      if l.Coroutine? && l.home == d {
        assert l == Coroutine(l.id, d) && l !in ls && l !in multiset(ls);
        assert Held(s, x, l.id, d) == Held(t, x, l.id, d);
      }
    }
    forall id: nat ensures multiset(ls')[Coroutine(id, d)] == 0 {
      assert WithoutHomeAt(ls', ls', d, Coroutine(id, d));
    }
  }

  lemma RunValid(
    s: Snap, t: Snap, u: seq<Body>, explicit: set<nat>, posts: seq<Post>, x: nat, d: nat, resumed: seq<nat>)
    requires Ran(s, t, u, x, d, resumed) && Once(s.bodies)
    requires Inv(t.bodies, multiset{}, explicit, -1) && PostsOk(t.bodies, posts, {}, t.silent)
    ensures Inv(u, multiset{}, explicit, -1) && PostsOk(u, posts, {}, t.silent - {Post(d, x)}) && Once(u)
  {
    OnceAfter(s, t, u, x, d, resumed);
    forall q: nat ensures multiset(u[x].listeners)[Quorum(q)] == multiset(t.bodies[x].listeners)[Quorum(q)] {
      assert WithoutHomeAt(t.bodies[x].listeners, u[x].listeners, d, Quorum(q));
    }
    assert Inv(u, multiset{}, explicit, -1) by { RelistInv(t.bodies, u, explicit, x); }
    forall h: nat, y: nat ensures PostOk(u, posts, {}, t.silent - {Post(d, x)}, h, y) {
      assert PostOk(t.bodies, posts, {}, t.silent, h, y);
      assert SilentAt(Some(d), s, t, Post(d, x));
      HomesWithout(t.bodies[x].listeners, u[x].listeners, d, h);
    }
  }

  lemma RunOutcome(s: Snap, t: Snap, u: seq<Body>, explicit: set<nat>, x: nat, d: nat, resumed: seq<nat>)
    requires Ran(s, t, u, x, d, resumed) && Once(s.bodies)
    requires Inv(s.bodies, multiset{}, explicit, -1) && Inv(t.bodies, multiset{}, explicit + {x}, -1)
    requires forall p :: p in s.silent ==> p.event < |s.bodies| && s.bodies[p.event].triggered
    ensures RunMeans(
              s.bodies, s.silent, Reached(s.bodies, explicit, x), u, t.silent - {Post(d, x)}, x, d, resumed)
  {
    var reached := Reached(s.bodies, explicit, x);
    forall e: nat ensures e in reached <==> Newly(s.bodies, t.bodies, e) {
      NewlyIsReached(s.bodies, t.bodies, explicit, x, e);
    }
    forall e | 0 <= e < |u| ensures u[e].triggered <==> s.bodies[e].triggered || e in reached {
      assert EvolvesAt(s.bodies, t.bodies, e);
    }
    forall id: nat
      ensures multiset(resumed)[id] <= 1 && (ListedAt(s.bodies, x, Coroutine(id, d)) ==> id in resumed)
    {
      ResumedExactly(s, t, u, x, d, resumed, id);
    }
    forall id: nat | id in resumed ensures Woken(s.bodies, reached, d, id) {
      var e := ResumedWoken(s, t, u, x, d, resumed, id);
      assert WokenAt(s.bodies, reached, e, d, id);
    }
    forall h: nat, id: nat
      ensures Outcome(s.bodies, s.silent, reached, u, t.silent - {Post(d, x)}, d, resumed, h, id)
    {
      OutcomeHolds(s, t, u, x, d, resumed, reached, t.silent - {Post(d, x)}, h, id);
    }
    AllResumedExactly(s, t, u, x, d, resumed, reached);
  }

  lemma FirstPost(bs: seq<Body>, posts: seq<Post>, silent: set<Post>)
    requires PostsOk(bs, posts, {}, silent) && posts != []
    ensures posts[0].event < |bs| && bs[posts[0].event].triggered && posts[0] !in silent
  {
    var p := posts[0];
    assert p in multiset(posts) && p == Post(p.driver, p.event);
    assert PostOk(bs, posts, {}, silent, p.driver, p.event);
  }

  lemma DrainOnce(bs: seq<Body>, bs': seq<Body>, x: nat, d: nat)
    requires Once(bs) && x < |bs| && |bs'| == |bs| && bs' == bs[x := bs[x].(listeners := bs'[x].listeners)]
    requires WithoutHome(bs[x].listeners, bs'[x].listeners, d)
    ensures Once(bs')
  {
    forall e, l | 0 <= e < |bs| && ListedAt(bs', e, l)
      ensures ListedAt(bs, e, l) && multiset(bs'[e].listeners)[l] == multiset(bs[e].listeners)[l]
    {
      if e == x {
        assert WithoutHomeAt(bs[x].listeners, bs'[x].listeners, d, l);
        assert l in multiset(bs'[x].listeners);
        assert l in multiset(bs[x].listeners);
      }
    }
  }

  lemma DrainInv(
    bs: seq<Body>, bs': seq<Body>, explicit: set<nat>, posts: seq<Post>, silent: set<Post>, x: nat, d: nat)
    requires Inv(bs, multiset{}, explicit, -1) && PostsOk(bs, posts, {}, silent) && Once(bs)
    requires posts != [] && posts[0] == Post(d, x) && x < |bs| && |bs'| == |bs|
    requires bs' == bs[x := bs[x].(listeners := bs'[x].listeners)]
    requires WithoutHome(bs[x].listeners, bs'[x].listeners, d)
    ensures Inv(bs', multiset{}, explicit, -1) && PostsOk(bs', posts[1..], {}, silent) && Once(bs')
  {
    forall q: nat ensures multiset(bs'[x].listeners)[Quorum(q)] == multiset(bs[x].listeners)[Quorum(q)] {
      assert WithoutHomeAt(bs[x].listeners, bs'[x].listeners, d, Quorum(q));
    }
    assert RelistedAt(bs, bs', x);
    assert Inv(bs', multiset{}, explicit, -1) by { RelistInv(bs, bs', explicit, x); }
    assert Once(bs') by { DrainOnce(bs, bs', x, d); }
    DrainPosts(bs, bs', posts, silent, x, d);
  }

  lemma DrainPosts(bs: seq<Body>, bs': seq<Body>, posts: seq<Post>, silent: set<Post>, x: nat, d: nat)
    requires PostsOk(bs, posts, {}, silent)
    requires posts != [] && posts[0] == Post(d, x) && x < |bs| && |bs'| == |bs|
    requires bs' == bs[x := bs[x].(listeners := bs'[x].listeners)]
    requires WithoutHome(bs[x].listeners, bs'[x].listeners, d)
    ensures PostsOk(bs', posts[1..], {}, silent)
  {
    assert posts == [posts[0]] + posts[1..];
    forall h: nat, y: nat ensures PostOk(bs', posts[1..], {}, silent, h, y) {
      assert PostOk(bs, posts, {}, silent, h, y);
      HomesWithout(bs[x].listeners, bs'[x].listeners, d, h);
    }
  }

  /** Taking away the coroutines of one driver takes away that driver, and no other. */
  lemma HomesWithout(ls: seq<Listener>, ls': seq<Listener>, d: nat, h: nat)
    requires WithoutHome(ls, ls', d)
    ensures h in Homes(ls') <==> h in Homes(ls) && h != d
  {
    forall l: Listener ensures l in ls' <==> l in ls && !(l.Coroutine? && l.home == d) {
      assert WithoutHomeAt(ls, ls', d, l);
      assert l in ls' <==> l in multiset(ls');
      assert l in ls <==> l in multiset(ls);
    }
  }

  // A coroutine left behind

  /** A timer with one coroutine, and a quorum of one over that timer with another. */
  ghost predicate TwoWait(bs: seq<Body>, d: nat) {
    && |bs| == 2 && !bs[0].triggered && !bs[1].triggered
    && bs[1].isQuorum && bs[1].quorum == 1 && bs[1].args == [Some(0)]
    && (forall l: Listener :: ListedAt(bs, 0, l) <==> l == Coroutine(0, d))
    && (forall l: Listener :: ListedAt(bs, 1, l) <==> l == Coroutine(1, d))
  }

  lemma TwoReached(bs: seq<Body>, d: nat)
    requires Ordered(bs) && TwoWait(bs, d)
    ensures Reached(bs, {}, 0) == {0, 1}
  {
    assert OrderedAt(bs, 1);
    assert MeaningCount(bs, {} + {0}, 1, []) == 0;
    assert bs[1].args[..0] == [];
    assert MeaningCount(bs, {} + {0}, 1, bs[1].args) == 1;
  }

  lemma SecondIsLeft(bs: seq<Body>, bs': seq<Body>, silent': set<Post>, d: nat, resumed: seq<nat>)
    requires TwoWait(bs, d) && RunMeans(bs, {}, {0, 1}, bs', silent', 0, d, resumed)
    ensures resumed == [0] && bs'[1].triggered
    ensures forall h: nat, id: nat :: !Due(bs', silent', h, id)
  {
    assert WokenAt(bs, {0, 1}, 0, d, 0) && WokenAt(bs, {0, 1}, 1, d, 1);
    forall e: nat, h: nat, id: nat | WokenAt(bs, {0, 1}, e, h, id) ensures h == d && id == e < 2 {
      assert ListedAt(bs, e, Coroutine(id, h));
    }
    assert ListedAt(bs, 0, Coroutine(0, d));
    assert 1 !in resumed;
    OnlyZero(resumed);
    forall h: nat, id: nat ensures !Due(bs', silent', h, id) {
      assert Outcome(bs, {}, {0, 1}, bs', silent', d, resumed, h, id);
    }
  }

  lemma OnlyZero(ids: seq<nat>)
    requires 0 in ids && multiset(ids)[0] <= 1 && forall id :: id in ids ==> id == 0
    ensures ids == [0]
  {
    forall id: nat ensures multiset(ids)[id] == multiset{0}[id] {
      assert id in multiset(ids) <==> id in ids;
    }
    assert multiset(ids) == multiset{0};
    assert |ids| == |multiset(ids)|;
  }

  /** One timer, two coroutines of one driver: one waits for the timer, the other for any of a set that
      holds the timer. */
  method TwoCoroutines(d: nat) returns (events: Events)
    ensures fresh(events) && events.Valid() && events.explicit == {} && events.silent == {}
    ensures TwoWait(events.bodies, d)
  {
    events := OneCoroutine(d);
    ghost var bs := events.bodies;
    var q := events.MakeQuorum(1, [Some(0)]);
    QuorumAdded(bs, events.bodies, d);
    assert Fired(bs, [Some(0)][..0]) == 0;
    var second := events.Await(q, 1, d);
  }

  method OneCoroutine(d: nat) returns (events: Events)
    ensures fresh(events) && events.Valid() && events.explicit == {} && events.silent == {}
    ensures events.bodies == [PLAIN.(listeners := [Coroutine(0, d)])]
  {
    events := new Events();
    var e := events.NewEvent();
    assert events.bodies == [PLAIN];
    var first := events.Await(e, 0, d);
    assert WithListener([PLAIN], 0, Coroutine(0, d))[0].listeners == [Coroutine(0, d)];
    assert |events.bodies| == 1 && events.bodies[0] == PLAIN.(listeners := [Coroutine(0, d)]);
  }

  lemma QuorumAdded(bs: seq<Body>, bs': seq<Body>, d: nat)
    requires bs == [PLAIN.(listeners := [Coroutine(0, d)])] && SameListed(bs + [PLAIN], bs')
    ensures |bs'| == 2
    ensures forall l: Listener :: ListedAt(bs', 0, l) <==> l == Coroutine(0, d)
    ensures forall l: Listener :: !ListedAt(bs', 1, l)
    ensures !Listed(bs', 1)
  {
    forall l: Listener | l.Coroutine?
      ensures ListedAt(bs', 0, l) <==> l == Coroutine(0, d)
      ensures !ListedAt(bs', 1, l)
    {
      SameMembers((bs + [PLAIN])[0].listeners, bs'[0].listeners, l);
      SameMembers((bs + [PLAIN])[1].listeners, bs'[1].listeners, l);
    }
  }

  /** The timer's driver resumes the first coroutine; the second waits for good on a quorum that has
      triggered. */
  method LeaveBehind(d: nat) returns (resumed: seq<nat>, triggered: bool, log: seq<Resume>)
    ensures resumed == [0] && triggered && log == []
  {
    var events := TwoCoroutines(d);
    ghost var bs := events.bodies;
    TwoReached(bs, d);
    resumed := events.RunEvent(0, d);
    SecondIsLeft(bs, events.bodies, events.silent, d, resumed);
    triggered := events.bodies[1].triggered;
    log := events.DrainAll();
    forall r: Resume ensures multiset(log)[r] == 0 {
      assert r == Resume(r.driver, r.id);
    }
    assert multiset(log) == multiset{};
    assert |log| == |multiset(log)|;
  }
}
