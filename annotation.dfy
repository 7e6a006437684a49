/** The annotation workspace of one video sample: a list of bounding-box annotations, each tied
    to one frame; a draw gesture (mouse down, move, up) that commits a new box when it is large
    enough; frame navigation guarded by the frame range and by the player being ready; a zoom
    level kept in a fixed range; and the visible list filtered by frame, label and search text. */
module AnnotationWorkspace {
  import opened Lists
  import opened Text

  /** The label palette, in the order the label picker offers it. */
  const Labels: seq<string> :=
    ["vehicle", "pedestrian", "cyclist", "traffic_sign", "traffic_light", "road_marking", "lane",
     "obstacle", "construction"]

  /** The frame rate the workspace uses when converting frames to seconds. */
  const FrameRate: real := 30.0
  /** A drawn box is kept only when both signed extents exceed this many source pixels. */
  const MinBoxSize: real := 10.0
  const MinZoom: real := 0.5
  const MaxZoom: real := 2.0
  const ZoomStep: real := 0.1
  const BoundingBox: string := "bounding_box"
  /** The colour of labels that have no colour of their own. */
  const Gray: string := "#6b7280"

  /** A rectangle in source-frame pixels: its top-left corner and its extents. */
  datatype Rect = Rect(x: real, y: real, width: real, height: real)

  /** One labelled region; `category` holds the source's `label` field (a Dafny keyword). */
  datatype Annotation = Annotation(id: string, frame: int, kind: string, category: string, coordinates: Rect)

  /** The rectangle being drawn: the anchor where the mouse went down, the signed extents to
      the cursor (negative after an up or left drag) and the label in use. */
  datatype Draft = Draft(x: real, y: real, width: real, height: real, category: string)

  /** The annotations of the sample the workspace opens with. */
  const Sample: seq<Annotation> := [
    Annotation("ann-001", 15, BoundingBox, "vehicle", Rect(120.0, 150.0, 80.0, 160.0)),
    Annotation("ann-002", 15, BoundingBox, "pedestrian", Rect(320.0, 150.0, 60.0, 120.0)),
    Annotation("ann-003", 15, BoundingBox, "traffic_sign", Rect(220.0, 100.0, 40.0, 40.0)),
    Annotation("ann-004", 30, BoundingBox, "vehicle", Rect(130.0, 160.0, 80.0, 160.0))
  ]
  const SampleFrames: int := 120

  /** JavaScript truthiness of a `string | null` state: null and "" are both falsy. */
  predicate Present(o: Option<string>) { o.Some? && o.value != "" }

  function Abs(r: real): real { if r < 0.0 then -r else r }

  /** Whether an annotation is listed (and drawn) for the given frame, label filter and search. */
  predicate IsVisible(a: Annotation, frame: int, filterLabel: Option<string>, search: string)
  {
    && a.frame == frame
    && (!Present(filterLabel) || a.category == filterLabel.value)
    && (search == "" || Contains(a.id, search) || Contains(a.category, search))
  }

  /** The annotation list shown for the current frame: the matching annotations in their
      original order. The search is case-sensitive. */
  function FilteredAnnotations(anns: seq<Annotation>, frame: int, filterLabel: Option<string>,
                               search: string): (r: seq<Annotation>)
    ensures forall a :: a in r <==>
      && a in anns
      && a.frame == frame
      && (!Present(filterLabel) || a.category == filterLabel.value)
      && ((exists i :: OccursAt(a.id, search, i)) || (exists i :: OccursAt(a.category, search, i)))
    ensures forall a :: multiset(r)[a] == if IsVisible(a, frame, filterLabel, search) then multiset(anns)[a] else 0
    ensures Subsequence(r, anns)
  {
    var r := Filter(anns, a => IsVisible(a, frame, filterLabel, search));
    assert forall a: Annotation :: IsVisible(a, frame, filterLabel, search) <==>
      && a.frame == frame
      && (!Present(filterLabel) || a.category == filterLabel.value)
      && ((exists i :: OccursAt(a.id, search, i)) || (exists i :: OccursAt(a.category, search, i)))
    by {
      forall a: Annotation | search == "" ensures OccursAt(a.id, search, 0) {}
    }
    r
  }

  /** The list after deleting every annotation whose id is `id`. */
  function RemoveById(anns: seq<Annotation>, id: string): (r: seq<Annotation>)
    ensures forall a :: a in r <==> a in anns && a.id != id
    ensures forall i :: 0 <= i < |r| ==> r[i].id != id
    ensures forall a: Annotation :: a.id != id ==> multiset(r)[a] == multiset(anns)[a]
    ensures Subsequence(r, anns)
  {
    Filter(anns, (a: Annotation) => a.id != id)
  }

  /** Deleting an id and then querying is the same as querying and then deleting that id, so
      no later query, whatever its frame, label filter or search, shows the deleted id. */
  lemma DeleteThenQuery(anns: seq<Annotation>, id: string, frame: int, filterLabel: Option<string>, search: string)
    ensures FilteredAnnotations(RemoveById(anns, id), frame, filterLabel, search) ==
            RemoveById(FilteredAnnotations(anns, frame, filterLabel, search), id)
    ensures forall a :: a in FilteredAnnotations(RemoveById(anns, id), frame, filterLabel, search) ==> a.id != id
  {
    FilterCommute(anns, (a: Annotation) => a.id != id, a => IsVisible(a, frame, filterLabel, search));
  }

  /** The id of an annotation committed at the clock value `now` (milliseconds). */
  function AnnotationId(now: nat): (r: string)
    ensures |r| > 4 && r[..4] == "ann-" && AllDigits(r[4..]) && DecimalValue(r[4..]) == now
  {
    DecimalRoundTrip(now);
    var r := "ann-" + NatToDecimal(now);
    assert r[4..] == NatToDecimal(now);
    r
  }

  /** Mouse down at canvas offset (px, py): a zero-size rectangle anchored at the cursor,
      converted to source pixels by the zoom level. */
  function StartDraft(px: real, py: real, zoom: real, category: string): (d: Draft)
    requires zoom > 0.0
    ensures d.x * zoom == px && d.y * zoom == py
    ensures d.width == 0.0 && d.height == 0.0 && d.category == category
  {
    Draft(px / zoom, py / zoom, 0.0, 0.0, category)
  }

  /** Mouse move to canvas offset (px, py): the anchor stays, the extents become the signed
      distances from the anchor to the cursor. */
  function MoveDraft(d: Draft, px: real, py: real, zoom: real, category: string): (r: Draft)
    requires zoom > 0.0
    ensures r.x == d.x && r.y == d.y && r.category == category
    ensures r.x + r.width == px / zoom && r.y + r.height == py / zoom
  {
    Draft(d.x, d.y, px / zoom - d.x, py / zoom - d.y, category)
  }

  /** What mouse up commits from a draft: a box on the given frame with the given label and id
      when both signed extents exceed the minimum, and nothing otherwise. The stored corner is
      the anchor, so a drag up or to the left never commits. */
  function Committed(d: Draft, frame: int, category: string, id: string): (r: Option<Annotation>)
    ensures r.Some? <==> d.width > MinBoxSize && d.height > MinBoxSize
    ensures r.Some? ==> r.value == Annotation(id, frame, BoundingBox, category, Rect(d.x, d.y, d.width, d.height))
  {
    if d.width > MinBoxSize && d.height > MinBoxSize then
      Some(Annotation(id, frame, BoundingBox, category, Rect(d.x, d.y, Abs(d.width), Abs(d.height))))
    else None
  }

  /** A whole gesture: mouse down at (x0, y0), one move to (x1, y1), mouse up. It commits exactly
      when the cursor ended more than the minimum size right of and below the anchor, measured in
      source pixels; the committed box has the anchor as its corner and positive extents. */
  lemma DragOutcome(x0: real, y0: real, x1: real, y1: real, zoom: real, category: string, frame: int, id: string)
    requires zoom > 0.0
    ensures var c := Committed(MoveDraft(StartDraft(x0, y0, zoom, category), x1, y1, zoom, category), frame, category, id);
      && (c.Some? <==> x1 - x0 > MinBoxSize * zoom && y1 - y0 > MinBoxSize * zoom)
      && (x1 <= x0 || y1 <= y0 ==> c == None)
      && (c.Some? ==> c.value.coordinates.x == x0 / zoom && c.value.coordinates.y == y0 / zoom &&
                      c.value.coordinates.width > 0.0 && c.value.coordinates.height > 0.0 &&
                      c.value.frame == frame && c.value.category == category)
  {
    var d := MoveDraft(StartDraft(x0, y0, zoom, category), x1, y1, zoom, category);
    assert d.width == (x1 - x0) / zoom && d.height == (y1 - y0) / zoom;
    assert d.width > MinBoxSize <==> x1 - x0 > MinBoxSize * zoom;
    assert d.height > MinBoxSize <==> y1 - y0 > MinBoxSize * zoom;
  }

  /** The stroke colour of a label on the canvas. Every palette label except the last two has a
      colour of its own; "obstacle", "construction" and any label outside the palette are gray. */
  function ColorForLabel(category: string): (r: string)
    ensures r == Gray <==> category !in ColouredLabels
  {
    match category
    case "vehicle" => "#ef4444"
    case "pedestrian" => "#3b82f6"
    case "cyclist" => "#f59e0b"
    case "traffic_sign" => "#8b5cf6"
    case "traffic_light" => "#6366f1"
    case "road_marking" => "#10b981"
    case "lane" => "#ec4899"
    case "obstacle" => Gray
    case "construction" => Gray
    case _ => Gray
  }

  /** The palette labels that have a colour of their own: all but "obstacle" and "construction". */
  const ColouredLabels: set<string> :=
    {"vehicle", "pedestrian", "cyclist", "traffic_sign", "traffic_light", "road_marking", "lane"}

  /** Distinct coloured labels are drawn in distinct colours. */
  lemma ColoursDistinct(a: string, b: string)
    requires a in ColouredLabels && b in ColouredLabels && a != b
    ensures ColorForLabel(a) != ColorForLabel(b)
  {
  }

  /** `Math.trunc`. */
  function Trunc(r: real): int
  {
    if r >= 0.0 then r.Floor else -((-r).Floor)
  }

  /** JavaScript's `x % m` on numbers: the remainder takes the sign of `x`. */
  function JsRemainder(x: real, m: real): real
    requires m != 0.0
  {
    x - m * (Trunc(x / m) as real)
  }

  /** `formatTime`: minutes and seconds of a playback time, each padded to two digits. */
  function FormatTime(seconds: real): string
  {
    MinutesAndSeconds((seconds / 60.0).Floor, JsRemainder(seconds, 60.0).Floor)
  }

  /** The "mm:ss" text of whole minutes and seconds. */
  function MinutesAndSeconds(mins: int, secs: int): string
  {
    PadStart2(IntToString(mins)) + ":" + PadStart2(IntToString(secs))
  }

  /** Minutes below 100 and seconds below 60 render as five characters "mm:ss" that read back
      as the two numbers. */
  lemma MinutesAndSecondsRoundTrip(m: nat, s: nat)
    requires m < 100 && s < 60
    ensures var r := MinutesAndSeconds(m, s);
      && |r| == 5 && r[2] == ':' && AllDigits(r[..2]) && AllDigits(r[3..])
      && DecimalValue(r[..2]) == m && DecimalValue(r[3..]) == s
  {
    TwoDigits(m);
    TwoDigits(s);
    var mm := PadStart2(IntToString(m));
    var ss := PadStart2(IntToString(s));
    var r := mm + ":" + ss;
    assert r[..2] == mm;
    assert r[3..] == ss;
  }

  lemma TwoDigits(n: nat)
    requires n < 100
    ensures var s := PadStart2(IntToString(n));
      |s| == 2 && AllDigits(s) && DecimalValue(s) == n
  {
    DecimalRoundTrip(n);
    var d := NatToDecimal(n);
    if n < 10 {
      assert PadStart2(d) == ['0'] + d;
      assert (['0'] + d)[..1] == ['0'];
    }
  }

  /** The minutes and seconds fields `formatTime` computes, for a time below 100 minutes. */
  lemma MinutesSeconds(seconds: real)
    requires 0.0 <= seconds < 6000.0
    ensures var m := (seconds / 60.0).Floor; var s := JsRemainder(seconds, 60.0).Floor;
      0 <= m < 100 && 0 <= s < 60 && 60 * m + s == seconds.Floor
  {
    var q := seconds / 60.0;
    var m := q.Floor;
    assert (m as real) <= q < (m as real) + 1.0;
    assert 0 <= m < 100;
    assert Trunc(q) == m;
    var rem := JsRemainder(seconds, 60.0);
    assert rem == seconds - 60.0 * (m as real);
    assert 0.0 <= rem < 60.0;
    var s := rem.Floor;
    assert (60 * m + s) as real <= seconds < (60 * m + s + 1) as real;
  }

  /** For a time below 100 minutes, `formatTime` renders "mm:ss", and reading the two fields
      back gives the whole seconds elapsed (with ss below 60). */
  lemma FormatTimeRoundTrip(seconds: real)
    requires 0.0 <= seconds < 6000.0
    ensures var r := FormatTime(seconds);
      && |r| == 5 && r[2] == ':' && AllDigits(r[..2]) && AllDigits(r[3..])
      && DecimalValue(r[3..]) < 60
      && DecimalValue(r[..2]) * 60 + DecimalValue(r[3..]) == seconds.Floor
  {
    var m := (seconds / 60.0).Floor;
    var s := JsRemainder(seconds, 60.0).Floor;
    MinutesSeconds(seconds);
    MinutesAndSecondsRoundTrip(m, s);
    var r := MinutesAndSeconds(m, s);
    assert FormatTime(seconds) == r;
    assert DecimalValue(r[..2]) * 60 + DecimalValue(r[3..]) == 60 * m + s;
  }

  /** The component state of the workspace that its handlers update. */
  class Workspace {
    var annotations: seq<Annotation>
    var selectedAnnotation: Option<string>
    var filterLabel: Option<string>
    var searchAnnotation: string
    /** The label new boxes get; no control of the screen changes it. */
    var selectedLabel: string
    var isDrawing: bool
    var newAnnotation: Option<Draft>
    var currentFrame: int
    var totalFrames: int
    var currentTime: real
    var zoomLevel: real
    /** Whether the video player has signalled that it is ready. */
    var playerReady: bool

    /** The zoom stays in range, and a rectangle is pending exactly while drawing. */
    ghost predicate Valid()
      reads this
    {
      && MinZoom <= zoomLevel <= MaxZoom
      && (isDrawing <==> newAnnotation.Some?)
    }

    predicate FrameInRange()
      reads this
    {
      1 <= currentFrame <= totalFrames
    }

    /** The workspace as it opens: the sample's annotations, frame 1, zoom 100%, nothing drawn,
        selected or filtered, the player not ready yet. */
    constructor ()
      ensures Valid() && FrameInRange()
      ensures annotations == Sample && totalFrames == SampleFrames && currentFrame == 1
      ensures currentTime == 0.0 && zoomLevel == 1.0 && !playerReady
      ensures selectedAnnotation == None && filterLabel == None && searchAnnotation == ""
      ensures selectedLabel == Labels[0] && !isDrawing && newAnnotation == None
    {
      annotations := Sample;
      selectedAnnotation := None;
      filterLabel := None;
      searchAnnotation := "";
      selectedLabel := Labels[0];
      isDrawing := false;
      newAnnotation := None;
      currentFrame := 1;
      totalFrames := SampleFrames;
      currentTime := 0.0;
      zoomLevel := 1.0;
      playerReady := false;
    }

    /** The annotations listed beside the canvas and drawn on it. */
    function Visible(): seq<Annotation>
      reads this
    {
      FilteredAnnotations(annotations, currentFrame, filterLabel, searchAnnotation)
    }

    /** The player's ready callback, with the frame count it derives from the video length. */
    method OnPlayerReady(frames: int)
      modifies this`playerReady, this`totalFrames
      ensures playerReady && totalFrames == frames
    {
      playerReady := true;
      totalFrames := frames;
    }

    method MouseDown(px: real, py: real)
      requires Valid()
      modifies this`isDrawing, this`newAnnotation
      ensures Valid()
      ensures isDrawing && newAnnotation == Some(StartDraft(px, py, zoomLevel, selectedLabel))
    {
      isDrawing := true;
      newAnnotation := Some(StartDraft(px, py, zoomLevel, selectedLabel));
    }

    method MouseMove(px: real, py: real)
      requires Valid()
      modifies this`newAnnotation
      ensures Valid()
      ensures newAnnotation == if old(isDrawing) && old(newAnnotation).Some?
        then Some(MoveDraft(old(newAnnotation).value, px, py, zoomLevel, selectedLabel))
        else old(newAnnotation)
    {
      if isDrawing && newAnnotation.Some? {
        newAnnotation := Some(MoveDraft(newAnnotation.value, px, py, zoomLevel, selectedLabel));
      }
    }

    /** Mouse up, and also mouse leave, which the canvas wires to the same handler. `now` is the
        clock reading the new annotation's id is made from. */
    method MouseUp(now: nat)
      requires Valid()
      modifies this`annotations, this`isDrawing, this`newAnnotation
      ensures Valid()
      ensures !isDrawing && newAnnotation == None
      ensures old(isDrawing) && old(newAnnotation).Some? &&
              Committed(old(newAnnotation).value, currentFrame, selectedLabel, AnnotationId(now)).Some?
        ==> annotations == old(annotations) +
              [Committed(old(newAnnotation).value, currentFrame, selectedLabel, AnnotationId(now)).value]
      ensures !(old(isDrawing) && old(newAnnotation).Some? &&
                Committed(old(newAnnotation).value, currentFrame, selectedLabel, AnnotationId(now)).Some?)
        ==> annotations == old(annotations)
      ensures |annotations| <= |old(annotations)| + 1 && annotations[..|old(annotations)|] == old(annotations)
    {
      if isDrawing && newAnnotation.Some? {
        var c := Committed(newAnnotation.value, currentFrame, selectedLabel, AnnotationId(now));
        if c.Some? {
          annotations := annotations + [c.value];
        }
      }
      isDrawing := false;
      newAnnotation := None;
    }

    /** Clicking an entry of the annotation list selects it. */
    method Select(id: string)
      modifies this`selectedAnnotation
      ensures selectedAnnotation == Some(id)
    {
      selectedAnnotation := Some(id);
    }

    /** "Delete Selected" and the trash button of the selected entry. */
    method DeleteSelected()
      modifies this`annotations, this`selectedAnnotation
      ensures !Present(old(selectedAnnotation)) ==>
                annotations == old(annotations) && selectedAnnotation == old(selectedAnnotation)
      ensures Present(old(selectedAnnotation)) ==>
                annotations == RemoveById(old(annotations), old(selectedAnnotation).value) &&
                selectedAnnotation == None
    {
      if !Present(selectedAnnotation) {
        return;
      }
      annotations := RemoveById(annotations, selectedAnnotation.value);
      selectedAnnotation := None;
    }

    method SetSearch(text: string)
      modifies this`searchAnnotation
      ensures searchAnnotation == text
    {
      searchAnnotation := text;
    }

    /** The label filter's menu: a label, or `None` for "All Labels". */
    method SetFilterLabel(category: Option<string>)
      modifies this`filterLabel
      ensures filterLabel == category
    {
      filterLabel := category;
    }

    /** The label filter's button: clears an active filter, or filters by the first label. */
    method ToggleLabelFilter()
      modifies this`filterLabel
      ensures filterLabel == if Present(old(filterLabel)) then None else Some(Labels[0])
    {
      filterLabel := if Present(filterLabel) then None else Some(Labels[0]);
    }

    /** The first/previous step controls are disabled on frame 1 or while the player is not ready. */
    predicate PrevDisabled()
      reads this
    {
      currentFrame == 1 || !playerReady
    }

    /** The next/last step controls are disabled on the last frame or while the player is not ready. */
    predicate NextDisabled()
      reads this
    {
      currentFrame == totalFrames || !playerReady
    }

    /** Jumps to frame `n` (the first/last buttons and the frame field). Acts only when the player
        is ready and `n` is a frame of the video; otherwise nothing changes. */
    method JumpToFrame(n: int)
      modifies this`currentFrame, this`currentTime
      ensures playerReady && 1 <= n <= totalFrames ==>
                currentFrame == n && currentTime == (n - 1) as real / FrameRate
      ensures !(playerReady && 1 <= n <= totalFrames) ==>
                currentFrame == old(currentFrame) && currentTime == old(currentTime)
      ensures playerReady && 1 <= n <= totalFrames ==> FrameInRange()
      ensures old(FrameInRange()) ==> FrameInRange()
      ensures playerReady && n == 1 <= totalFrames ==> PrevDisabled()
      ensures playerReady && n == totalFrames >= 1 ==> NextDisabled()
    {
      if !playerReady {
        return;
      }
      if n >= 1 && n <= totalFrames {
        currentTime := (n - 1) as real / FrameRate;
        currentFrame := n;
      }
    }

    /** One frame forward, unless on the last frame or the player is not ready. */
    method NextFrame()
      modifies this`currentFrame, this`currentTime
      ensures playerReady && old(currentFrame) < totalFrames ==>
                currentFrame == old(currentFrame) + 1 && currentTime == old(currentTime) + 1.0 / FrameRate
      ensures !(playerReady && old(currentFrame) < totalFrames) ==>
                currentFrame == old(currentFrame) && currentTime == old(currentTime)
      ensures old(FrameInRange()) ==> FrameInRange()
    {
      if !playerReady {
        return;
      }
      if currentFrame < totalFrames {
        currentTime := currentTime + 1.0 / FrameRate;
        currentFrame := currentFrame + 1;
      }
    }

    /** One frame back, unless on frame 1 or the player is not ready. */
    method PrevFrame()
      modifies this`currentFrame, this`currentTime
      ensures playerReady && old(currentFrame) > 1 ==>
                currentFrame == old(currentFrame) - 1 && currentTime == old(currentTime) - 1.0 / FrameRate
      ensures !(playerReady && old(currentFrame) > 1) ==>
                currentFrame == old(currentFrame) && currentTime == old(currentTime)
      ensures old(FrameInRange()) ==> FrameInRange()
    {
      if !playerReady {
        return;
      }
      if currentFrame > 1 {
        currentTime := currentTime - 1.0 / FrameRate;
        currentFrame := currentFrame - 1;
      }
    }

    predicate ZoomOutDisabled()
      reads this
    {
      zoomLevel <= MinZoom
    }

    predicate ZoomInDisabled()
      reads this
    {
      zoomLevel >= MaxZoom
    }

    /** The minus button: ten percentage points less, but not below the minimum. */
    method ZoomOut()
      requires Valid()
      modifies this`zoomLevel
      ensures Valid()
      ensures zoomLevel == if old(zoomLevel) - ZoomStep < MinZoom then MinZoom else old(zoomLevel) - ZoomStep
    {
      zoomLevel := if zoomLevel - ZoomStep < MinZoom then MinZoom else zoomLevel - ZoomStep;
    }

    /** The plus button: ten percentage points more, but not above the maximum. */
    method ZoomIn()
      requires Valid()
      modifies this`zoomLevel
      ensures Valid()
      ensures zoomLevel == if old(zoomLevel) + ZoomStep > MaxZoom then MaxZoom else old(zoomLevel) + ZoomStep
    {
      zoomLevel := if zoomLevel + ZoomStep > MaxZoom then MaxZoom else zoomLevel + ZoomStep;
    }
  }
}
