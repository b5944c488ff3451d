/** The collision-shape membership engine.

    A shape keeps the set of elements currently inside it. Re-checking an
    element against the shape's geometry moves it between the two states
    outside and inside; each move fires one enter or leave event and adds or
    removes the shape's subscription to the element's `Destroyed` event. The
    geometry test itself differs per shape variant and is a parameter here. */
module ColShapes {
  import opened Base
  import opened Elements

  /** The two events a shape raises, each naming the element concerned. */
  datatype ShapeEvent = Entered(element: ElementId) | Left(element: ElementId)

  /** The part of a shape the membership engine changes: the members, the
      elements whose `Destroyed` the shape listens to, and the events raised. */
  datatype ShapeState = ShapeState(within: set<ElementId>, subscribed: set<ElementId>, events: seq<ShapeEvent>)

  /** Members and subscriptions go together: an element is subscribed while it is a member. */
  predicate Tracked(s: ShapeState)
  {
    s.subscribed == s.within
  }

  /** `CheckElementWithin` for an element whose position is (`inside`) or is not within the shape. */
  function Check(s: ShapeState, id: ElementId, inside: bool): (r: ShapeState)
    // membership follows the geometry test
    ensures id in r.within <==> inside
    // a transition subscribes on entry and unsubscribes on exit; otherwise nothing happens at all
    ensures inside != (id in s.within) ==> (id in r.subscribed <==> inside)
    ensures inside == (id in s.within) ==> r == s
    // nothing else changes membership or subscription
    ensures forall k :: k != id ==> (k in r.within <==> k in s.within)
    ensures forall k :: k != id ==> (k in r.subscribed <==> k in s.subscribed)
    // an event fires exactly when membership changes, and says which way
    ensures |s.events| <= |r.events| <= |s.events| + 1 && r.events[..|s.events|] == s.events
    ensures |r.events| == |s.events| + 1 <==> (inside != (id in s.within))
    ensures |r.events| == |s.events| + 1 ==> r.events[|s.events|] == (if inside then Entered(id) else Left(id))
    ensures Tracked(s) ==> Tracked(r)
  {
    if inside then
      if id !in s.within then ShapeState(s.within + {id}, s.subscribed + {id}, s.events + [Entered(id)])
      else s
    else
      if id in s.within then ShapeState(s.within - {id}, s.subscribed - {id}, s.events + [Left(id)])
      else s
  }

  /** Checking twice against the same geometry answer changes nothing more. */
  lemma CheckIdempotent(s: ShapeState, id: ElementId, inside: bool)
    ensures Check(Check(s, id, inside), id, inside) == Check(s, id, inside)
  {
  }

  /** `OnElementDestroyed` as the source has it: the leave event fires, but the
      element stays a member and stays subscribed. */
  function DestroyedAsWritten(s: ShapeState, id: ElementId): (r: ShapeState)
    requires id in s.subscribed
    ensures r.within == s.within && r.subscribed == s.subscribed
    ensures r.events == s.events + [Left(id)]
  {
    s.(events := s.events + [Left(id)])
  }

  /** The destroy handler as the membership engine needs it: the element
      leaves, its subscription goes, and the leave event fires once. */
  function Destroyed(s: ShapeState, id: ElementId): (r: ShapeState)
    requires id in s.subscribed
    ensures id !in r.within && id !in r.subscribed
    ensures forall k :: k != id ==> (k in r.within <==> k in s.within)
    ensures forall k :: k != id ==> (k in r.subscribed <==> k in s.subscribed)
    ensures r.events == s.events + [Left(id)]
    ensures Tracked(s) ==> Tracked(r)
  {
    ShapeState(s.within - {id}, s.subscribed - {id}, s.events + [Left(id)])
  }

  /** What can happen to one element, from the shape's point of view: a
      re-check with the geometry's answer, or the element's destruction
      (which reaches the shape only while it is subscribed). */
  datatype Step = CheckStep(inside: bool) | DestroyStep

  function Apply(s: ShapeState, id: ElementId, step: Step): ShapeState
  {
    match step
    case CheckStep(inside) => Check(s, id, inside)
    case DestroyStep => if id in s.subscribed then Destroyed(s, id) else s
  }

  function Run(s: ShapeState, id: ElementId, steps: seq<Step>): ShapeState
    decreases |steps|
  {
    if steps == [] then s else Run(Apply(s, id, steps[0]), id, steps[1..])
  }

  /** The events of `evs` alternate, starting with an enter when `enterFirst`. */
  predicate Alternate(evs: seq<ShapeEvent>, id: ElementId, enterFirst: bool)
  {
    forall i :: 0 <= i < |evs| ==> evs[i] == (if (i % 2 == 0) == enterFirst then Entered(id) else Left(id))
  }

  lemma AlternateCons(ev: ShapeEvent, evs: seq<ShapeEvent>, id: ElementId, enterFirst: bool)
    requires ev == (if enterFirst then Entered(id) else Left(id))
    requires Alternate(evs, id, !enterFirst)
    ensures Alternate([ev] + evs, id, enterFirst)
  {
    forall i | 0 <= i < |[ev] + evs|
      ensures ([ev] + evs)[i] == (if (i % 2 == 0) == enterFirst then Entered(id) else Left(id))
    {
      if i > 0 {
        assert ([ev] + evs)[i] == evs[i - 1];
      }
    }
  }

  /** Enter and leave events for one element strictly alternate over any run of
      checks and destructions: the events the run adds all concern that
      element, begin with an enter exactly when it was outside, and leave it a
      member exactly when their number moved it in. */
  lemma {:induction false} RunAlternates(s: ShapeState, id: ElementId, steps: seq<Step>)
    requires Tracked(s)
    ensures var r := Run(s, id, steps);
      && Tracked(r)
      && |s.events| <= |r.events| && r.events[..|s.events|] == s.events
      && Alternate(r.events[|s.events|..], id, id !in s.within)
      && (id in r.within <==> (id in s.within) != ((|r.events| - |s.events|) % 2 == 1))
    decreases |steps|
  {
    if steps != [] {
      var s1 := Apply(s, id, steps[0]);
      var r := Run(s1, id, steps[1..]);
      RunAlternates(s1, id, steps[1..]);
      assert Tracked(s1);
      var added := r.events[|s.events|..];
      var later := r.events[|s1.events|..];
      if |s1.events| == |s.events| {
        assert s1.events == s.events;
        assert (id in s1.within) == (id in s.within);
      } else {
        assert s1.events == s.events + [s1.events[|s.events|]];
        assert s1.events[|s.events|] == (if id !in s.within then Entered(id) else Left(id));
        assert (id in s1.within) == (id !in s.within);
        assert r.events[..|s.events|] == s1.events[..|s.events|];
        assert added == [s1.events[|s.events|]] + later;
        AlternateCons(s1.events[|s.events|], later, id, id !in s.within);
      }
    }
  }

  /** The source's destroy handler breaks the alternation: an element that
      enters and is destroyed stays a member, and a later check that finds it
      outside fires a second leave event. */
  lemma DestroyedAsWrittenLeavesTwice()
    ensures var s0 := ShapeState({}, {}, []);
      var s1 := Check(s0, 7, true);
      var s2 := DestroyedAsWritten(s1, 7);
      var s3 := Check(s2, 7, false);
      && 7 in s2.within
      && s3.events == [Entered(7), Left(7), Left(7)]
      && !Alternate(s3.events, 7, true)
  {
    var s3 := Check(DestroyedAsWritten(Check(ShapeState({}, {}, []), 7, true), 7), 7, false);
    assert s3.events[2] == Left(7);
  }

  /** The geometry of a sphere: strictly closer to the centre than the radius,
      compared on squares so that no root is taken. */
  predicate SphereContains(center: Vector3, radius: real, p: Vector3)
  {
    var dx, dy, dz := p.x - center.x, p.y - center.y, p.z - center.z;
    dx * dx + dy * dy + dz * dz < radius * radius
  }

  /** The sphere cases the shape tests exercise. */
  lemma SphereCases()
    ensures SphereContains(Origin, 3.0, Vector3(1.0, 0.0, 0.0))
    ensures SphereContains(Origin, 3.0, Vector3(1.0, 1.0, 0.0))
    ensures SphereContains(Origin, 3.0, Vector3(1.0, 1.0, 1.0))
    ensures !SphereContains(Origin, 0.5, Vector3(1.0, 0.0, 0.0))
    ensures !SphereContains(Origin, 0.5, Vector3(0.0, 1.0, 0.0))
    ensures !SphereContains(Origin, 0.5, Vector3(0.0, 0.0, 1.0))
    ensures !SphereContains(Origin, 3.0, Vector3(3.0, 3.0, 3.0))
  {
  }

  /** A collision shape: an element of type Colshape whose membership set and
      subscriptions the engine updates in place. */
  class CollisionShape {
    const element: Element
    /** The variant's `IsWithin(Vector3)`. */
    const isWithinPosition: Vector3 -> bool
    var isEnabled: bool
    var autoCallEvent: bool
    var elementsWithin: set<ElementId>
    var subscribed: set<ElementId>
    var events: seq<ShapeEvent>

    constructor (id: ElementId, isWithinPosition: Vector3 -> bool)
      ensures element.ElementType() == Colshape && element.id == id
      ensures this.isWithinPosition == isWithinPosition
      ensures isEnabled && autoCallEvent
      ensures elementsWithin == {} && subscribed == {} && events == []
    {
      element := Element(id, None, Origin, Origin, Origin, ColshapeKind);
      this.isWithinPosition := isWithinPosition;
      isEnabled := true;
      autoCallEvent := true;
      elementsWithin := {};
      subscribed := {};
      events := [];
    }

    function State(): ShapeState
      reads this
    {
      ShapeState(elementsWithin, subscribed, events)
    }

    /** `ElementsWithin`: the members. */
    function ElementsWithin(): (r: set<ElementId>)
      reads this
      ensures forall k :: k in r <==> k in State().within
    {
      elementsWithin
    }

    /** `IsWithin(element)`: the geometry test applied to the element's position. */
    function IsWithin(e: Element): bool
    {
      isWithinPosition(e.position)
    }

    /** `CheckElementWithin(element)`: the flags are not consulted. */
    method CheckElementWithin(e: Element)
      modifies this
      ensures State() == Check(old(State()), e.id, IsWithin(e))
      ensures e.id in ElementsWithin() <==> isWithinPosition(e.position)
      ensures isEnabled == old(isEnabled) && autoCallEvent == old(autoCallEvent)
    {
      if IsWithin(e) {
        if e.id !in elementsWithin {
          elementsWithin := elementsWithin + {e.id};
          events := events + [Entered(e.id)];
          subscribed := subscribed + {e.id};
        }
      } else {
        if e.id in elementsWithin {
          elementsWithin := elementsWithin - {e.id};
          events := events + [Left(e.id)];
          subscribed := subscribed - {e.id};
        }
      }
    }

    /** `OnElementDestroyed`, run when a subscribed element is destroyed:
        the leave event is raised, while the membership and the
        subscription stay as they were (`Destroyed` is the corrected step). */
    method OnElementDestroyed(e: Element)
      requires e.id in subscribed
      modifies this`events
      ensures State() == DestroyedAsWritten(old(State()), e.id)
    {
      events := events + [Left(e.id)];
    }
  }
}
