/** src/components/GeofenceManagement.jsx: authoring a polygon by clicking on the
    map, and closing it into a ring on submission.

    A point is the pair `[lat, lng]`. The coordinates are of an abstract type with
    equality, compared one coordinate at a time as the component does with `!==`.
    (With JavaScript numbers, a NaN coordinate is never `===` itself, so closing
    such a ring twice would append twice; this model has no NaN.) */
module GeofenceManagement {
  import opened Wrappers
  import Text

  datatype Point<C> = Point(lat: C, lng: C)

  /** The map-click updater `(prev) => [...prev, newPoint]` of `MapDrawer`.
      Note: the component hands `MapDrawer` a `setCoordinates` that stores its
      argument as `coordinates` outright, so in the source as wired the updater
      function itself, not the appended sequence, ends up in the form. A
      one-parameter function has `.length` 1, so as wired the caption always
      reads "1 point drawn" and the `< 4` check of `handleSubmit` refuses every
      submission: the accepting branch of HandleSubmit is never reached in the
      program as written (ClickAsWritten and MisWiredDrawingRefusesSubmission
      below). The rest of this model follows the append the updater is written
      to perform. */
  function AddPoint<C>(prev: seq<Point<C>>, p: Point<C>): (next: seq<Point<C>>)
    ensures |next| == |prev| + 1
    ensures next[..|prev|] == prev
    ensures next[|prev|] == p
  {
    prev + [p]
  }

  /** The draft after a run of clicks starting from `start`. */
  function DrawFrom<C>(start: seq<Point<C>>, clicks: seq<Point<C>>): seq<Point<C>>
    decreases |clicks|
  {
    if clicks == [] then start else DrawFrom(AddPoint(start, clicks[0]), clicks[1..])
  }

  /** Clicks are recorded verbatim and in order: no point is dropped, merged
      with its neighbour or reordered. */
  lemma {:induction false} DrawRecordsEveryClick<C>(start: seq<Point<C>>, clicks: seq<Point<C>>)
    ensures DrawFrom(start, clicks) == start + clicks
    decreases |clicks|
  {
    if clicks != [] {
      DrawRecordsEveryClick(AddPoint(start, clicks[0]), clicks[1..]);
      assert AddPoint(start, clicks[0]) + clicks[1..] == start + clicks;
    }
  }

  /** What `formData.coordinates` holds in the component as wired: a drawn
      sequence, or the updater `(prev) => [...prev, newPoint]` itself, which
      `MapDrawer` hands to a setter that stores its argument outright. */
  datatype FormCoordinates<C> = Drawn(points: seq<Point<C>>) | Updater

  /** `formData.coordinates.length`: the length of a drawn sequence, or, for the
      updater, the number of parameters it declares, which is 1. */
  function CoordinatesLength<C>(v: FormCoordinates<C>): nat
  {
    match v
    case Drawn(points) => |points|
    case Updater => 1
  }

  /** A map click as wired: whatever was drawn before, the form ends up holding
      the updater, whose `.length` is 1. */
  function ClickAsWritten<C>(v: FormCoordinates<C>, p: Point<C>): (next: FormCoordinates<C>)
    ensures !next.Drawn? && CoordinatesLength(next) == 1
  {
    Updater
  }

  /** The form's coordinates after a run of clicks, as wired. */
  function DrawFromAsWritten<C>(start: FormCoordinates<C>, clicks: seq<Point<C>>): FormCoordinates<C>
    decreases |clicks|
  {
    if clicks == [] then start else DrawFromAsWritten(ClickAsWritten(start, clicks[0]), clicks[1..])
  }

  /** As wired, once any point has been clicked the form holds no points at all:
      the caption reads "1 point drawn" however many clicks there were, and the
      `< 4` check of `handleSubmit` refuses the submission. */
  lemma {:induction false} MisWiredDrawingRefusesSubmission<C>(start: FormCoordinates<C>, clicks: seq<Point<C>>)
    requires clicks != []
    ensures DrawFromAsWritten(start, clicks) == Updater
    ensures CoordinatesLength(DrawFromAsWritten(start, clicks)) < MinRingPoints
    ensures PointCountLabel(CoordinatesLength(DrawFromAsWritten(start, clicks))) == Some("1 point drawn")
    decreases |clicks|
  {
    if |clicks| > 1 {
      MisWiredDrawingRefusesSubmission(ClickAsWritten(start, clicks[0]), clicks[1..]);
    }
    assert Text.NatToString(1) == "1";
    assert Text.CountPhrase(1, "point", " drawn") == "1" + " " + "point" + "" + " drawn" == "1 point drawn";
  }

  /** First and last point coincide. */
  predicate IsClosed<C(==)>(ring: seq<Point<C>>)
  {
    |ring| > 0 && ring[0] == ring[|ring| - 1]
  }

  /** `coordinates.length < 4` is refused. The count is taken on the draft before
      it is closed, so three clicked vertices are refused: a triangle passes only
      when its first vertex is clicked again as a fourth point. */
  const MinRingPoints: nat := 4

  /** The ring `handleSubmit` posts: the draft, with a copy of its first point
      appended when the last point differs from it. */
  function CloseRing<C(==)>(draft: seq<Point<C>>): (ring: seq<Point<C>>)
    ensures |draft| > 0 ==> IsClosed(ring)
    ensures |ring| == |draft| + (if |draft| == 0 || IsClosed(draft) then 0 else 1)
    ensures ring[..|draft|] == draft
  {
    if |draft| > 0 && (draft[0].lat != draft[|draft| - 1].lat || draft[0].lng != draft[|draft| - 1].lng)
    then draft + [Point(draft[0].lat, draft[0].lng)]
    else draft
  }

  /** Closing an already closed ring returns it unchanged (no double closing point). */
  lemma CloseRingIdempotent<C>(draft: seq<Point<C>>)
    ensures CloseRing(CloseRing(draft)) == CloseRing(draft)
  {
    var ring := CloseRing(draft);
    if |draft| > 0 {
      assert IsClosed(ring);
      assert ring[0].lat == ring[|ring| - 1].lat && ring[0].lng == ring[|ring| - 1].lng;
    }
  }

  /** A draft that is already closed is posted as drawn. */
  lemma CloseRingOfClosedDraft<C>(draft: seq<Point<C>>)
    requires IsClosed(draft)
    ensures CloseRing(draft) == draft
  {
    assert draft[0].lat == draft[|draft| - 1].lat && draft[0].lng == draft[|draft| - 1].lng;
  }

  /** An open draft gets exactly its first point appended. */
  lemma CloseRingOfOpenDraft<C>(draft: seq<Point<C>>)
    requires |draft| > 0 && !IsClosed(draft)
    ensures CloseRing(draft) == draft + [draft[0]]
  {
  }

  datatype Submission<C> =
    | InsufficientVertices           // toast.error and return: nothing is posted
    | Posted(ring: seq<Point<C>>)    // `apiClient.post('/geofences', {...formData, coordinates: ring})`

  /** `handleSubmit` over the drafted coordinates. The outcome of the POST is a
      parameter; on success the form (and so the draft) is reset to its empty
      initial state, on failure or refusal the draft is kept for another try.
      The closure works on a copy, so the drafted sequence is never altered. */
  method HandleSubmit<C(==)>(draft: seq<Point<C>>, postSucceeded: bool)
    returns (outcome: Submission<C>, draftAfter: seq<Point<C>>)
    ensures outcome == InsufficientVertices <==> |draft| < MinRingPoints
    ensures outcome.Posted? ==> outcome.ring == CloseRing(draft)
    ensures draftAfter == if outcome.Posted? && postSucceeded then [] else draft
  {
    if |draft| < MinRingPoints {
      return InsufficientVertices, draft;
    }
    var coords := draft;
    if |coords| > 0 {
      var first := coords[0];
      var last := coords[|coords| - 1];
      if first.lat != last.lat || first.lng != last.lng {
        coords := coords + [Point(first.lat, first.lng)];
      }
    }
    outcome := Posted(coords);
    draftAfter := if postSucceeded then [] else draft;
  }

  /** Every ring that gets posted is closed, keeps the draft as its prefix and has
      at least MinRingPoints points. */
  lemma PostedRingIsWellFormed<C>(draft: seq<Point<C>>)
    requires |draft| >= MinRingPoints
    ensures var ring := CloseRing(draft);
      IsClosed(ring) && |ring| >= MinRingPoints && ring[..|draft|] == draft
  {
  }

  /** The length check runs on the unclosed draft, although its message promises
      that three points suffice and that the polygon closes itself: three clicked
      vertices are refused, and the same triangle is accepted, and posted as
      drawn, only when its first vertex is clicked again as a fourth point. */
  lemma ClickedTriangleNeedsItsFirstVertexAgain<C>(a: Point<C>, b: Point<C>, c: Point<C>)
    ensures |DrawFrom([], [a, b, c])| < MinRingPoints
    ensures |DrawFrom([], [a, b, c, a])| >= MinRingPoints
    ensures CloseRing(DrawFrom([], [a, b, c, a])) == [a, b, c, a]
  {
    DrawRecordsEveryClick([], [a, b, c]);
    DrawRecordsEveryClick([], [a, b, c, a]);
    assert [] + [a, b, c, a] == [a, b, c, a];
  }

  /** `{coordinates.length > 0 && ... {n} point{n !== 1 ? 's' : ''} drawn}` */
  function PointCountLabel(pointCount: nat): Option<string>
  {
    Text.ShownCountPhrase(pointCount, "point", " drawn")
  }

  /** The caption is shown exactly while a point is drawn; when shown it reads
      back as the point count, with "point" plural exactly when the count is not 1. */
  lemma PointCountLabelReadsBack(pointCount: nat)
    ensures PointCountLabel(pointCount).None? <==> pointCount == 0
    ensures pointCount > 0 ==>
      var caption := PointCountLabel(pointCount).value;
      var d := Text.LeadingDigits(caption);
      Text.DigitsValue(d) == pointCount &&
      caption[|d|..] == (if pointCount == 1 then " point drawn" else " points drawn")
  {
    if pointCount > 0 {
      Text.CountPhraseReadsBackAs(pointCount, "point", " drawn", " point drawn", " points drawn");
    }
  }

  datatype Color = Blue | Red | Yellow | Green | Gray

  /** `getCategoryColor` as intended: the four known categories have their own
      colour and every other string falls back to gray. */
  function CategoryColor(category: string): (c: Color)
    ensures c == Blue <==> category == "delivery_zone"
    ensures c == Red <==> category == "restricted_zone"
    ensures c == Yellow <==> category == "toll_zone"
    ensures c == Green <==> category == "customer_area"
    ensures c == Gray <==> category !in {"delivery_zone", "restricted_zone", "toll_zone", "customer_area"}
  {
    if category == "delivery_zone" then Blue
    else if category == "restricted_zone" then Red
    else if category == "toll_zone" then Yellow
    else if category == "customer_area" then Green
    else Gray
  }

  /** What `colors[category]` yields for a plain object literal: one of its own
      four entries, a member every object inherits from `Object.prototype`, or
      `undefined`; and, after `|| 'gray'`, the gray fallback. */
  datatype Lookup = OwnEntry(color: Color) | Inherited(name: string) | Undefined | Fallback

  /** The property names every plain object inherits from `Object.prototype`. */
  const ObjectPrototypeMembers: set<string> := {
    "constructor", "hasOwnProperty", "isPrototypeOf", "propertyIsEnumerable",
    "toLocaleString", "toString", "valueOf", "__proto__",
    "__defineGetter__", "__defineSetter__", "__lookupGetter__", "__lookupSetter__"
  }

  function ColorsLookup(category: string): Lookup
  {
    if category == "delivery_zone" then OwnEntry(Blue)
    else if category == "restricted_zone" then OwnEntry(Red)
    else if category == "toll_zone" then OwnEntry(Yellow)
    else if category == "customer_area" then OwnEntry(Green)
    else if category in ObjectPrototypeMembers then Inherited(category)
    else Undefined
  }

  /** `colors[category] || 'gray'` as written: an inherited member is a function
      or object, hence truthy, so it is returned in place of 'gray'. */
  function CategoryColorAsWritten(category: string): (r: Lookup)
    ensures !r.Undefined?
    ensures r.Inherited? <==> category in ObjectPrototypeMembers
    ensures category !in ObjectPrototypeMembers ==>
      r == (if CategoryColor(category) == Gray then Fallback else OwnEntry(CategoryColor(category)))
  {
    match ColorsLookup(category)
    case Undefined => Fallback
    case other => other
  }

  /** A category named "constructor" gets `Object` itself instead of gray. */
  lemma ConstructorCategoryIsNotAColor()
    ensures CategoryColorAsWritten("constructor") == Inherited("constructor")
    ensures CategoryColor("constructor") == Gray
  {
  }
}
