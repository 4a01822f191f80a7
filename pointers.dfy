/**
 * The pointer registry of OrbitControls: `pointers`, the array of pointer
 * events that are down, and `pointerPositions`, a map from pointer id to the
 * last page position seen for it. The functions here specify what the
 * registry methods of Controls.OrbitControls do to them.
 */
module Pointers {
  import opened Vectors

  datatype PointerType = Mouse | Pen | Touch

  /** The fields of a PointerEvent that the controls read. */
  datatype PointerEvent = PointerEvent(
    pointerId: int,
    pointerType: PointerType,
    button: int,
    ctrlKey: bool, metaKey: bool, shiftKey: bool,
    clientX: real, clientY: real,
    pageX: real, pageY: real)

  function PagePosition(e: PointerEvent): Vec2 {
    Vec2(e.pageX, e.pageY)
  }

  function ClientPosition(e: PointerEvent): Vec2 {
    Vec2(e.clientX, e.clientY)
  }

  /** The index of the first entry with this id, or -1. */
  function FirstIndex(ps: seq<PointerEvent>, id: int): (k: int)
    ensures -1 <= k < |ps|
    ensures k >= 0 ==> ps[k].pointerId == id && forall j :: 0 <= j < k ==> ps[j].pointerId != id
    ensures k < 0 ==> forall j :: 0 <= j < |ps| ==> ps[j].pointerId != id
  {
    if ps == [] then -1
    else if ps[0].pointerId == id then 0
    else
      var k := FirstIndex(ps[1..], id);
      if k < 0 then -1 else k + 1
  }

  /** `pointers` after removePointer: the first entry with the id spliced out, if any. */
  function Without(ps: seq<PointerEvent>, id: int): seq<PointerEvent> {
    var k := FirstIndex(ps, id);
    if k < 0 then ps else ps[..k] + ps[k + 1..]
  }

  /** The entries whose id differs from `id`, in order. */
  function Others(ps: seq<PointerEvent>, id: int): seq<PointerEvent> {
    if ps == [] then []
    else if ps[0].pointerId == id then Others(ps[1..], id)
    else [ps[0]] + Others(ps[1..], id)
  }

  /** How many entries carry the id. */
  function Occurrences(ps: seq<PointerEvent>, id: int): nat {
    if ps == [] then 0
    else (if ps[0].pointerId == id then 1 else 0) + Occurrences(ps[1..], id)
  }

  /**
   * Removal takes out exactly one entry with the id when there is one and
   * nothing otherwise, and leaves every other entry where it was relative to
   * the rest.
   */
  lemma {:induction false} WithoutRemovesOneOccurrence(ps: seq<PointerEvent>, id: int)
    ensures Others(Without(ps, id), id) == Others(ps, id)
    ensures Occurrences(Without(ps, id), id) == if Occurrences(ps, id) == 0 then 0 else Occurrences(ps, id) - 1
    ensures |Without(ps, id)| == if Occurrences(ps, id) == 0 then |ps| else |ps| - 1
  {
    if ps != [] {
      if ps[0].pointerId == id {
        assert Without(ps, id) == ps[1..];
      } else {
        WithoutRemovesOneOccurrence(ps[1..], id);
        var k := FirstIndex(ps[1..], id);
        if k < 0 {
          assert Without(ps, id) == ps;
        } else {
          assert Without(ps, id) == [ps[0]] + Without(ps[1..], id);
        }
      }
    }
  }

  /** When ids are unique, a removed id is gone from the registry. */
  lemma RemovedIdIsGone(ps: seq<PointerEvent>, id: int)
    requires Occurrences(ps, id) <= 1
    ensures Occurrences(Without(ps, id), id) == 0
  {
    WithoutRemovesOneOccurrence(ps, id);
  }

  /** The result of getSecondPointerPosition. */
  datatype Lookup = Found(position: Vec2) | Missing

  /**
   * getSecondPointerPosition: the position stored for pointers[1] when the
   * event is from pointers[0], for pointers[0] otherwise. Missing where the
   * source ends up reading a property of undefined and throws: no pointers,
   * the event from the only pointer, or no position stored for the partner.
   */
  function SecondPointerPosition(ps: seq<PointerEvent>, positions: map<int, Vec2>, e: PointerEvent): (r: Lookup)
    ensures r.Found? ==> exists k :: 0 <= k < |ps| && k <= 1 && ps[k].pointerId in positions && r.position == positions[ps[k].pointerId]
    ensures |ps| == 0 ==> r == Missing
    ensures |ps| == 1 && e.pointerId == ps[0].pointerId ==> r == Missing
    ensures |ps| >= 1 ==>
      var k := if e.pointerId == ps[0].pointerId then 1 else 0;
      && (r.Found? <==> k < |ps| && ps[k].pointerId in positions)
      && (r.Found? ==> r.position == positions[ps[k].pointerId])
    ensures |ps| >= 2 && ps[0].pointerId != ps[1].pointerId && e.pointerId == ps[0].pointerId && ps[1].pointerId in positions
      ==> r == Found(positions[ps[1].pointerId])
    ensures |ps| >= 2 && ps[0].pointerId != ps[1].pointerId && e.pointerId == ps[1].pointerId && ps[0].pointerId in positions
      ==> r == Found(positions[ps[0].pointerId])
  {
    if |ps| == 0 then Missing
    else
      var k := if e.pointerId == ps[0].pointerId then 1 else 0;
      if k >= |ps| || ps[k].pointerId !in positions then Missing
      else Found(positions[ps[k].pointerId])
  }
}
