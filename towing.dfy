/** The tow relation between vehicles: each vehicle tows at most one vehicle
    and is towed by at most one, and the two directions are kept consistent by
    the one operation that changes them, `AttachToTower`. */
module Towing {
  import opened Base
  import opened Elements

  function TowedOf(elements: Elements, id: ElementId): Option<ElementId>
    requires IsVehicleIn(elements, id)
  {
    elements[id].kind.vehicle.towedVehicle
  }

  function TowingOf(elements: Elements, id: ElementId): Option<ElementId>
    requires IsVehicleIn(elements, id)
  {
    elements[id].kind.vehicle.towingVehicle
  }

  /** `id.TowedVehicle := towed`, when `id` is a registered vehicle. */
  function SetTowed(elements: Elements, id: ElementId, towed: Option<ElementId>): (r: Elements)
    ensures SameShape(elements, r)
    ensures forall k :: k in elements && k != id ==> r[k] == elements[k]
    ensures forall k :: IsVehicleIn(r, k) ==>
      TowingOf(r, k) == TowingOf(elements, k) &&
      TowedOf(r, k) == if k == id then towed else TowedOf(elements, k)
  {
    if IsVehicleIn(elements, id) then
      var e := elements[id];
      elements[id := e.(kind := VehicleKind(e.kind.vehicle.(towedVehicle := towed)))]
    else elements
  }

  /** `id.TowingVehicle := tower`, when `id` is a registered vehicle. */
  function SetTowing(elements: Elements, id: ElementId, tower: Option<ElementId>): (r: Elements)
    ensures SameShape(elements, r)
    ensures forall k :: k in elements && k != id ==> r[k] == elements[k]
    ensures forall k :: IsVehicleIn(r, k) ==>
      TowedOf(r, k) == TowedOf(elements, k) &&
      TowingOf(r, k) == if k == id then tower else TowingOf(elements, k)
  {
    if IsVehicleIn(elements, id) then
      var e := elements[id];
      elements[id := e.(kind := VehicleKind(e.kind.vehicle.(towingVehicle := tower)))]
    else elements
  }

  /** Two element maps with the same ids, the same vehicles and the same
      transforms, differing at most in tow links. */
  predicate SameShape(a: Elements, b: Elements)
  {
    && a.Keys == b.Keys
    && (forall k :: k in a ==> b[k].kind.VehicleKind? == a[k].kind.VehicleKind?)
    && (forall k :: k in a ==> b[k].position == a[k].position && b[k].rotation == a[k].rotation)
    && (forall k :: k in a ==> b[k].velocity == a[k].velocity)
    && (forall k :: k in a && !a[k].kind.VehicleKind? ==> b[k] == a[k])
  }

  /** The tow relation read from both ends agrees: A tows B iff B is towed by A. */
  ghost predicate TowConsistent(elements: Elements)
  {
    && (forall a: ElementId :: IsVehicleIn(elements, a) && TowedOf(elements, a).Some? ==>
          IsVehicleIn(elements, TowedOf(elements, a).value) &&
          TowingOf(elements, TowedOf(elements, a).value) == Some(a))
    && (forall b: ElementId :: IsVehicleIn(elements, b) && TowingOf(elements, b).Some? ==>
          IsVehicleIn(elements, TowingOf(elements, b).value) &&
          TowedOf(elements, TowingOf(elements, b).value) == Some(b))
  }

  /** `trailer.AttachToTower(tower, true)`: the trailer's former tower lets go of
      it, the new tower lets go of what it towed before, and the pair
      (tower, trailer) is linked from both ends. */
  function AttachToTower(elements: Elements, trailer: ElementId, tower: Option<ElementId>): (r: Elements)
    requires IsVehicleIn(elements, trailer)
    ensures SameShape(elements, r)
  {
    var former := TowingOf(elements, trailer);
    var e1 := if former.Some? then SetTowed(elements, former.value, None) else elements;
    var released := FormerTowed(elements, trailer, tower);
    var e2 := if released.Some? then SetTowing(e1, released.value, None) else e1;
    var e3 := SetTowing(e2, trailer, tower);
    if tower.Some? then SetTowed(e3, tower.value, Some(trailer)) else e3
  }

  /** The vehicle `tower` let go of when it started towing `trailer`. */
  function FormerTowed(elements: Elements, trailer: ElementId, tower: Option<ElementId>): Option<ElementId>
    requires IsVehicleIn(elements, trailer)
  {
    if tower.Some? && IsVehicleIn(elements, tower.value) && TowingOf(elements, trailer) != tower
    then TowedOf(elements, tower.value) else None
  }

  /** The intermediate states of an attach, named as in its body. */
  function Released(elements: Elements, trailer: ElementId): Elements
    requires IsVehicleIn(elements, trailer)
  {
    var former := TowingOf(elements, trailer);
    if former.Some? then SetTowed(elements, former.value, None) else elements
  }

  function Unhooked(elements: Elements, trailer: ElementId, tower: Option<ElementId>): Elements
    requires IsVehicleIn(elements, trailer)
  {
    var released := FormerTowed(elements, trailer, tower);
    var e1 := Released(elements, trailer);
    if released.Some? then SetTowing(e1, released.value, None) else e1
  }

  lemma AttachSteps(elements: Elements, trailer: ElementId, tower: Option<ElementId>)
    requires IsVehicleIn(elements, trailer)
    ensures var e3 := SetTowing(Unhooked(elements, trailer, tower), trailer, tower);
      AttachToTower(elements, trailer, tower) ==
        if tower.Some? then SetTowed(e3, tower.value, Some(trailer)) else e3
  {
  }

  lemma UnhookedLinks(elements: Elements, trailer: ElementId, tower: Option<ElementId>, a: ElementId)
    requires IsVehicleIn(elements, trailer) && IsVehicleIn(elements, a)
    ensures var e2 := Unhooked(elements, trailer, tower);
      && IsVehicleIn(e2, a)
      && TowedOf(e2, a) == (if TowingOf(elements, trailer) == Some(a) then None else TowedOf(elements, a))
      && TowingOf(e2, a) == (if FormerTowed(elements, trailer, tower) == Some(a) then None else TowingOf(elements, a))
  {
    var e1 := Released(elements, trailer);
    assert IsVehicleIn(e1, a);
    assert TowingOf(e1, a) == TowingOf(elements, a);
  }

  /** What each vehicle tows and is towed by after an attach, in terms of before. */
  lemma AttachLinks(elements: Elements, trailer: ElementId, tower: Option<ElementId>, a: ElementId)
    requires IsVehicleIn(elements, trailer) && IsVehicleIn(elements, a)
    ensures var r := AttachToTower(elements, trailer, tower);
      && IsVehicleIn(r, a)
      && TowedOf(r, a) ==
           (if tower == Some(a) then Some(trailer)
            else if TowingOf(elements, trailer) == Some(a) then None
            else TowedOf(elements, a))
      && TowingOf(r, a) ==
           (if a == trailer then tower
            else if FormerTowed(elements, trailer, tower) == Some(a) then None
            else TowingOf(elements, a))
  {
    UnhookedLinks(elements, trailer, tower, a);
    AttachSteps(elements, trailer, tower);
    var e3 := SetTowing(Unhooked(elements, trailer, tower), trailer, tower);
    assert IsVehicleIn(e3, a);
  }

  /** Attaching keeps the relation consistent and links exactly the new pair. */
  lemma AttachKeepsConsistency(elements: Elements, trailer: ElementId, tower: Option<ElementId>)
    requires TowConsistent(elements)
    requires IsVehicleIn(elements, trailer)
    requires tower.Some? ==> IsVehicleIn(elements, tower.value)
    ensures TowConsistent(AttachToTower(elements, trailer, tower))
    ensures TowingOf(AttachToTower(elements, trailer, tower), trailer) == tower
    ensures tower.Some? ==> TowedOf(AttachToTower(elements, trailer, tower), tower.value) == Some(trailer)
  {
    var r := AttachToTower(elements, trailer, tower);
    var former := TowingOf(elements, trailer);
    var released := FormerTowed(elements, trailer, tower);
    AttachLinks(elements, trailer, tower, trailer);
    if tower.Some? {
      AttachLinks(elements, trailer, tower, tower.value);
    }
    forall a: ElementId | IsVehicleIn(r, a) && TowedOf(r, a).Some?
      ensures IsVehicleIn(r, TowedOf(r, a).value) && TowingOf(r, TowedOf(r, a).value) == Some(a)
    {
      AttachLinks(elements, trailer, tower, a);
      var b := TowedOf(r, a).value;
      if tower == Some(a) {
        assert b == trailer;
      } else {
        assert former != Some(a) && TowedOf(elements, a) == Some(b);
        AttachLinks(elements, trailer, tower, b);
        assert b != trailer;
        assert released != Some(b);
      }
    }
    forall b: ElementId | IsVehicleIn(r, b) && TowingOf(r, b).Some?
      ensures IsVehicleIn(r, TowingOf(r, b).value) && TowedOf(r, TowingOf(r, b).value) == Some(b)
    {
      AttachLinks(elements, trailer, tower, b);
      var a := TowingOf(r, b).value;
      if b == trailer {
        assert tower == Some(a);
      } else {
        assert released != Some(b) && TowingOf(elements, b) == Some(a);
        AttachLinks(elements, trailer, tower, a);
        assert tower != Some(a);
        assert former != Some(a);
      }
    }
  }

  /** A trailer entry of a vehicle sync packet: the towed vehicle's id and the
      transform the driver's client reports for it. */
  datatype Trailer = Trailer(id: ElementId, position: Vector3, rotation: Vector3)

  function TrailerIds(trailers: seq<Trailer>): (ids: seq<ElementId>)
    ensures |ids| == |trailers|
    ensures forall i :: 0 <= i < |trailers| ==> ids[i] == trailers[i].id
  {
    if trailers == [] then [] else [trailers[0].id] + TrailerIds(trailers[1..])
  }

  /** Two element maps with the same ids, the same vehicles and the same tow links. */
  ghost predicate SameLinks(a: Elements, b: Elements)
  {
    && a.Keys == b.Keys
    && (forall k :: k in a ==> b[k].kind.VehicleKind? == a[k].kind.VehicleKind?)
    && (forall k :: IsVehicleIn(a, k) ==> TowedOf(b, k) == TowedOf(a, k) && TowingOf(b, k) == TowingOf(a, k))
  }

  lemma SameLinksConsistent(a: Elements, b: Elements)
    requires SameLinks(a, b) && TowConsistent(a)
    ensures TowConsistent(b)
  {
    assert forall k :: IsVehicleIn(b, k) <==> IsVehicleIn(a, k);
  }

  /** `element.Position := position; element.Rotation := rotation`. */
  function SetTransform(elements: Elements, id: ElementId, position: Vector3, rotation: Vector3): (r: Elements)
    requires id in elements
    ensures SameLinks(elements, r)
    ensures r[id].position == position && r[id].rotation == rotation
    ensures forall k :: k in elements && k != id ==> r[k] == elements[k]
    ensures forall k :: k in elements && !elements[k].kind.VehicleKind? ==> r[k].kind == elements[k].kind
  {
    elements[id := elements[id].(position := position, rotation := rotation)]
  }

  /** One step of the trailer loop: attach `t` to `previous` and force its transform. */
  function AttachTrailer(elements: Elements, previous: ElementId, t: Trailer): (r: Elements)
    requires IsVehicleIn(elements, t.id)
  {
    SetTransform(AttachToTower(elements, t.id, Some(previous)), t.id, t.position, t.rotation)
  }

  /** The trailer loop: walk the trailers, attaching each to the previous one,
      and stop at the first id that is not a registered vehicle. */
  function TrailerChain(elements: Elements, previous: ElementId, trailers: seq<Trailer>): Elements
    decreases |trailers|
  {
    if trailers == [] || !IsVehicleIn(elements, trailers[0].id) then elements
    else TrailerChain(AttachTrailer(elements, previous, trailers[0]), trailers[0].id, trailers[1..])
  }

  /** How many trailers the loop attaches before it stops. */
  function AttachedCount(elements: Elements, trailers: seq<Trailer>): (n: nat)
    ensures n <= |trailers|
    ensures forall i :: 0 <= i < n ==> IsVehicleIn(elements, trailers[i].id)
    ensures n < |trailers| ==> !IsVehicleIn(elements, trailers[n].id)
  {
    if trailers == [] || !IsVehicleIn(elements, trailers[0].id) then 0
    else 1 + AttachedCount(elements, trailers[1..])
  }

  /** The attached count depends only on which ids are vehicles. */
  lemma {:induction false} AttachedCountSameVehicles(a: Elements, b: Elements, trailers: seq<Trailer>)
    requires a.Keys == b.Keys
    requires forall k :: k in a ==> b[k].kind.VehicleKind? == a[k].kind.VehicleKind?
    ensures AttachedCount(a, trailers) == AttachedCount(b, trailers)
  {
    if trailers != [] {
      AttachedCountSameVehicles(a, b, trailers[1..]);
    }
  }

  lemma AttachTrailerFacts(elements: Elements, previous: ElementId, t: Trailer)
    requires IsVehicleIn(elements, t.id)
    ensures var r := AttachTrailer(elements, previous, t);
      && r.Keys == elements.Keys
      && (forall k :: k in elements ==> r[k].kind.VehicleKind? == elements[k].kind.VehicleKind?)
      && (forall k :: k in elements && k != t.id ==>
            r[k].position == elements[k].position && r[k].rotation == elements[k].rotation)
      && (forall k :: k in elements ==> r[k].velocity == elements[k].velocity)
      && (forall k :: k in elements && !elements[k].kind.VehicleKind? ==> r[k] == elements[k])
      && r[t.id].position == t.position && r[t.id].rotation == t.rotation
  {
    var linked := AttachToTower(elements, t.id, Some(previous));
    assert SameShape(elements, linked);
  }

  /** The chain changes vehicles only, never which ids are vehicles, and moves
      only the trailers it names. */
  lemma {:induction false} ChainFrame(elements: Elements, previous: ElementId, trailers: seq<Trailer>)
    ensures var r := TrailerChain(elements, previous, trailers);
      && r.Keys == elements.Keys
      && (forall k :: k in elements ==> r[k].kind.VehicleKind? == elements[k].kind.VehicleKind?)
      && (forall k :: k in elements && !elements[k].kind.VehicleKind? ==> r[k] == elements[k])
      && (forall k :: k in elements && k !in TrailerIds(trailers) ==>
            r[k].position == elements[k].position && r[k].rotation == elements[k].rotation)
      && (forall k :: k in elements ==> r[k].velocity == elements[k].velocity)
    decreases |trailers|
  {
    if trailers == [] || !IsVehicleIn(elements, trailers[0].id) {
    } else {
      var next := AttachTrailer(elements, previous, trailers[0]);
      AttachTrailerFacts(elements, previous, trailers[0]);
      ChainFrame(next, trailers[0].id, trailers[1..]);
      assert TrailerIds(trailers) == [trailers[0].id] + TrailerIds(trailers[1..]);
    }
  }

  /** One attach step keeps the relation consistent and links the trailer to `previous`. */
  lemma AttachTrailerLinks(elements: Elements, previous: ElementId, t: Trailer)
    requires TowConsistent(elements)
    requires IsVehicleIn(elements, t.id) && IsVehicleIn(elements, previous)
    ensures var r := AttachTrailer(elements, previous, t);
      TowConsistent(r) && IsVehicleIn(r, t.id) && TowingOf(r, t.id) == Some(previous)
  {
    var linked := AttachToTower(elements, t.id, Some(previous));
    AttachKeepsConsistency(elements, t.id, Some(previous));
    SameLinksConsistent(linked, AttachTrailer(elements, previous, t));
  }

  /** A vehicle that is not the trailer and that the new tower did not tow keeps its tower. */
  lemma AttachKeepsOtherTower(elements: Elements, previous: ElementId, t: Trailer, x: ElementId)
    requires IsVehicleIn(elements, t.id) && IsVehicleIn(elements, previous) && IsVehicleIn(elements, x)
    requires x != t.id && TowedOf(elements, previous) != Some(x)
    ensures var r := AttachTrailer(elements, previous, t);
      IsVehicleIn(r, x) && TowingOf(r, x) == TowingOf(elements, x)
  {
    AttachLinks(elements, t.id, Some(previous), x);
  }

  /** The tow link of a vehicle outside the chain survives the chain when the
      vehicle that tows it is outside the chain too. */
  lemma {:induction false} ChainKeepsOutsideLink(elements: Elements, previous: ElementId, trailers: seq<Trailer>, x: ElementId)
    requires TowConsistent(elements) && IsVehicleIn(elements, previous)
    requires IsVehicleIn(elements, x) && x !in TrailerIds(trailers)
    requires TowingOf(elements, x).Some?
    requires TowingOf(elements, x).value != previous && TowingOf(elements, x).value !in TrailerIds(trailers)
    ensures var r := TrailerChain(elements, previous, trailers);
      IsVehicleIn(r, x) && TowingOf(r, x) == TowingOf(elements, x)
    decreases |trailers|
  {
    if trailers == [] || !IsVehicleIn(elements, trailers[0].id) {
    } else {
      var t := trailers[0];
      var next := AttachTrailer(elements, previous, t);
      assert TrailerIds(trailers) == [t.id] + TrailerIds(trailers[1..]);
      assert TowedOf(elements, previous) != Some(x);
      AttachKeepsOtherTower(elements, previous, t, x);
      AttachTrailerLinks(elements, previous, t);
      ChainKeepsOutsideLink(next, t.id, trailers[1..], x);
    }
  }

  /** After the chain, every trailer reached stands where the packet put it,
      the first is towed by `previous` and each later one by the trailer before it. */
  ghost predicate ChainLinked(elements: Elements, previous: ElementId, trailers: seq<Trailer>, n: nat)
    requires n <= |trailers|
  {
    && (forall i :: 0 <= i < n ==>
          && IsVehicleIn(elements, trailers[i].id)
          && elements[trailers[i].id].position == trailers[i].position
          && elements[trailers[i].id].rotation == trailers[i].rotation)
    && (0 < n ==> TowingOf(elements, trailers[0].id) == Some(previous))
    && (forall i :: 0 < i < n ==> TowingOf(elements, trailers[i].id) == Some(trailers[i - 1].id))
  }

  lemma DistinctChainTail(previous: ElementId, trailers: seq<Trailer>)
    requires trailers != [] && Distinct([previous] + TrailerIds(trailers))
    ensures Distinct([trailers[0].id] + TrailerIds(trailers[1..]))
    ensures previous != trailers[0].id
    ensures previous !in TrailerIds(trailers[1..]) && trailers[0].id !in TrailerIds(trailers[1..])
  {
    var all := [previous] + TrailerIds(trailers);
    var rest := TrailerIds(trailers[1..]);
    assert all[0] == previous && all[1] == trailers[0].id;
    assert forall i :: 0 <= i < |rest| ==> all[i + 2] == rest[i];
    assert [trailers[0].id] + rest == all[1..];
  }

  /** Prepending the first trailer, linked to `previous`, to a linked rest. */
  lemma ChainLinkedCons(r: Elements, previous: ElementId, trailers: seq<Trailer>, n: nat)
    requires 1 <= n <= |trailers|
    requires ChainLinked(r, trailers[0].id, trailers[1..], n - 1)
    requires IsVehicleIn(r, trailers[0].id) && TowingOf(r, trailers[0].id) == Some(previous)
    requires r[trailers[0].id].position == trailers[0].position
    requires r[trailers[0].id].rotation == trailers[0].rotation
    ensures ChainLinked(r, previous, trailers, n)
  {
    var rest := trailers[1..];
    forall i | 0 < i < n
      ensures && IsVehicleIn(r, trailers[i].id)
              && r[trailers[i].id].position == trailers[i].position
              && r[trailers[i].id].rotation == trailers[i].rotation
              && TowingOf(r, trailers[i].id) == Some(trailers[i - 1].id)
    {
      assert rest[i - 1] == trailers[i];
      if i > 1 { assert rest[i - 2] == trailers[i - 1]; }
    }
  }

  /** The trailer loop rebuilds the tow chain: with distinct ids, every trailer
      it reaches is towed by the one before it and placed as the packet says,
      and the relation stays consistent. */
  lemma {:induction false} ChainLinks(elements: Elements, previous: ElementId, trailers: seq<Trailer>)
    requires TowConsistent(elements) && IsVehicleIn(elements, previous)
    requires Distinct([previous] + TrailerIds(trailers))
    ensures var r := TrailerChain(elements, previous, trailers);
      TowConsistent(r) && ChainLinked(r, previous, trailers, AttachedCount(elements, trailers))
    decreases |trailers|
  {
    if trailers == [] || !IsVehicleIn(elements, trailers[0].id) {
    } else {
      var t := trailers[0];
      var rest := trailers[1..];
      var next := AttachTrailer(elements, previous, t);
      var r := TrailerChain(next, t.id, rest);
      DistinctChainTail(previous, trailers);
      AttachTrailerLinks(elements, previous, t);
      AttachTrailerFacts(elements, previous, t);
      ChainLinks(next, t.id, rest);
      AttachedCountSameVehicles(elements, next, rest);
      // The first trailer keeps its tower and its transform through the rest of the chain.
      ChainKeepsOutsideLink(next, t.id, rest, t.id);
      ChainFrame(next, t.id, rest);
      ChainLinkedCons(r, previous, trailers, AttachedCount(elements, trailers));
    }
  }
}
