/**
 The scale tool: picking a handle of the selection's bounding box and dragging it.
 A drag runs begin -> resize* -> commit | cancel; the tool keeps the hit it started
 from, the box and point at drag start and the delta applied so far, and brackets
 the whole drag in one document transaction.
 */
module ScaleObjects {
  import opened Geometry
  import opened BBoxFeatures
  import opened MapDocument

  datatype Option<T> = None | Some(value: T)

  /** The box feature a hit refers to (the hit's `target`, by hit type). */
  datatype HitTarget =
    | SideTarget(side: BBoxSide)
    | EdgeTarget(edge: BBoxEdge)
    | CornerTarget(corner: BBoxCorner)

  /** The result of picking a handle: no match, or a face, edge or corner hit at a
      distance along the pick ray and a point in space. */
  datatype Hit = NoHit | Match(distance: real, hitPoint: Vec3, target: HitTarget)

  /** A target drawn from the catalogues: an axis side, an edge between adjacent
      unit-cube vertices, or a unit-cube vertex. */
  predicate ValidTarget(t: HitTarget) {
    match t
    case SideTarget(s) => IsAxisNormal(s.normal)
    case EdgeTarget(e) => IsAdjacent(e.point0, e.point1)
    case CornerTarget(c) => IsSignVector(c.corner)
  }

  const ResizeTransactionName := "Resize Brushes"

  /** The axis a handle is dragged along: a side's normal, the sum of an edge's end
      corner vectors, or a corner's vector (all left unnormalised here). It is never
      the zero vector for a catalogue feature. */
  function DragNormal(t: HitTarget): (n: Vec3)
    ensures ValidTarget(t) ==> !IsNull(n)
    ensures t.SideTarget? && ValidTarget(t) ==> IsAxisNormal(n)
  {
    match t
    case SideTarget(s) => NormalForBBoxSide(s)
    case EdgeTarget(e) => Add(e.point0, e.point1)
    case CornerTarget(c) => c.corner
  }

  class ScaleObjectsTool {
    const document: Document
    var dragStartHit: Hit
    var bboxAtDragStart: BBox3
    var dragOrigin: Vec3
    var totalDelta: Vec3
    var resizing: bool
    /** Where the current drag's transaction begins in the document's log. */
    ghost var sessionStart: nat
    /** The saved bounds of the transactions that were already open when the current drag began. */
    ghost var outerSaved: seq<BBox3>

    /** A drag in progress owns exactly one open transaction, nested innermost inside
        whatever was open when it began, and its log so far is its begin followed by
        scale edits. */
    ghost predicate Valid()
      reads this, document
    {
      && document.Valid()
      && (resizing ==>
            && dragStartHit.Match?
            && ValidTarget(dragStartHit.target)
            && document.savedBounds == outerSaved + [bboxAtDragStart]
            && sessionStart < |document.transactions|
            && document.transactions[sessionStart] == Begin(ResizeTransactionName)
            && forall i :: sessionStart < i < |document.transactions| ==> document.transactions[i].ScaleBBox?)
    }

    /** The delta accumulated so far accounts for the selection's bounds: a face drag has
        moved that face of the drag-start box by `totalDelta`, any other drag has moved nothing. */
    ghost predicate Tracks()
      requires Valid()
      reads this, document
    {
      resizing ==>
        match dragStartHit.target
        case SideTarget(side) =>
          && AlongAxis(totalDelta, Axis(side.normal))
          && document.selectionBounds == MoveBBoxFace(bboxAtDragStart, side, totalDelta)
        case _ =>
          && IsNull(totalDelta)
          && document.selectionBounds == bboxAtDragStart
    }

    constructor (document: Document)
      requires document.Valid()
      ensures Valid() && Tracks()
      ensures this.document == document && dragStartHit == NoHit && !resizing
    {
      this.document := document;
      dragStartHit := NoHit;
      bboxAtDragStart := BBox3(Null, Null);
      dragOrigin := Null;
      totalDelta := Null;
      resizing := false;
      sessionStart := 0;
      outerSaved := document.savedBounds;
    }

    /** The tool is offered exactly when something is selected. */
    method Applies() returns (r: bool)
      ensures r <==> document.selectedNodeCount > 0
    {
      r := document.selectedNodeCount != 0;
    }

    /** Picking in a 2D view never hits a handle. */
    method Pick2D(ray: Ray3) returns (hit: Hit)
      ensures hit == NoHit
    {
      hit := NoHit;
    }

    /** Picking in the 3D view: a ray starting inside the selection's bounds hits nothing;
        otherwise the handle picking against those bounds decides. */
    method Pick3D(ray: Ray3, pickHandles: (Ray3, BBox3) -> Hit) returns (hit: Hit)
      ensures Contains(document.selectionBounds, ray.origin) ==> hit == NoHit
      ensures !Contains(document.selectionBounds, ray.origin) ==> hit == pickHandles(ray, document.selectionBounds)
    {
      var myBounds := document.selectionBounds;
      if Contains(myBounds, ray.origin) {
        return NoHit;
      }
      hit := pickHandles(ray, myBounds);
    }

    /** Starts a drag from `hit`, the first scale-tool hit of the pick result. */
    method BeginResize(hit: Hit) returns (started: bool)
      requires Valid() && !resizing
      requires hit.Match? ==> ValidTarget(hit.target)
      modifies this, document
      ensures Valid()
      ensures started == hit.Match?
      ensures !started ==> unchanged(this) && unchanged(document)
      ensures started ==>
        && resizing
        && dragStartHit == hit
        && bboxAtDragStart == old(document.selectionBounds)
        && dragOrigin == hit.hitPoint
        && IsNull(totalDelta)
        && document.transactions == old(document.transactions) + [Begin(ResizeTransactionName)]
        && outerSaved == old(document.savedBounds)
        && OpenTransactions(document.transactions) == OpenTransactions(old(document.transactions)) + 1
        && Tracks()
      ensures document.selectionBounds == old(document.selectionBounds)
      ensures document.selectedNodeCount == old(document.selectedNodeCount)
    {
      if !hit.Match? {
        return false;
      }
      dragStartHit := hit;
      bboxAtDragStart := document.selectionBounds;
      dragOrigin := hit.hitPoint;
      totalDelta := Null;
      sessionStart := |document.transactions|;
      outerSaved := document.savedBounds;
      document.BeginTransaction(ResizeTransactionName);
      resizing := true;
      started := true;
      if hit.target.SideTarget? {
        MoveBBoxFaceUnchanged(bboxAtDragStart, hit.target.side, totalDelta);
      }
    }

    /** The delta a resize step proposes: nothing when the pick ray is parallel to the drag
        axis, otherwise the grid-snapped distance along the axis times the axis. */
    function DragDelta(ray: Ray3, distanceToLine: (Ray3, Vec3, Vec3) -> LineDistance): (r: Option<Vec3>)
      requires dragStartHit.Match?
      reads this
      ensures r.None? <==> distanceToLine(ray, dragOrigin, DragNormal(dragStartHit.target)).Parallel?
      ensures var t := dragStartHit.target;
        r.Some? && t.SideTarget? && IsAxisNormal(t.side.normal) ==> AlongAxis(r.value, Axis(t.side.normal))
    {
      var n := DragNormal(dragStartHit.target);
      match distanceToLine(ray, dragOrigin, n)
      case Parallel => None
      case Distance(d) => Some(Scale(document.snap(d), n))
    }

    /** One drag step. A face drag asks the document to scale the selection from its
        current bounds to the drag-start box with that face moved by the proposed delta,
        and on success records that delta as the drag's net offset. Edge and corner drags,
        and a ray parallel to the drag axis, change nothing. */
    method Resize(ray: Ray3, distanceToLine: (Ray3, Vec3, Vec3) -> LineDistance) returns (r: bool)
      requires Valid() && resizing
      modifies this`totalDelta, document
      ensures Valid() && r
      ensures old(Tracks()) ==> Tracks()
      ensures document.selectedNodeCount == old(document.selectedNodeCount)
      ensures document.savedBounds == old(document.savedBounds)
      ensures var d := DragDelta(ray, distanceToLine);
        if d.Some? && dragStartHit.target.SideTarget? then
          var newBox := MoveBBoxFace(bboxAtDragStart, dragStartHit.target.side, d.value);
          var ok := document.canScale(old(document.selectionBounds), newBox);
          && document.selectionBounds == (if ok then newBox else old(document.selectionBounds))
          && document.transactions == old(document.transactions) + (if ok then [ScaleBBox(old(document.selectionBounds), newBox)] else [])
          && totalDelta == (if ok then d.value else old(totalDelta))
        else
          && document.selectionBounds == old(document.selectionBounds)
          && document.transactions == old(document.transactions)
          && totalDelta == old(totalDelta)
    {
      ghost var wasTracking := Tracks();
      var delta := DragDelta(ray, distanceToLine);
      if delta.Some? && dragStartHit.target.SideTarget? {
        var side := dragStartHit.target.side;
        var newBox := MoveBBoxFace(bboxAtDragStart, side, delta.value);
        var ok := document.ScaleObjectsBBox(document.selectionBounds, newBox);
        if ok {
          totalDelta := delta.value;
        }
      }
      r := true;
    }

    /** The drag step exactly as the editor writes it: the same as `Resize`, except that
        an accepted delta (measured from the drag-start box) is added to `totalDelta`. */
    method ResizeAsWritten(ray: Ray3, distanceToLine: (Ray3, Vec3, Vec3) -> LineDistance) returns (r: bool)
      requires Valid() && resizing
      modifies this`totalDelta, document
      ensures Valid() && r
      ensures document.selectedNodeCount == old(document.selectedNodeCount)
      ensures document.savedBounds == old(document.savedBounds)
      ensures var d := DragDelta(ray, distanceToLine);
        if d.Some? && dragStartHit.target.SideTarget? then
          var newBox := MoveBBoxFace(bboxAtDragStart, dragStartHit.target.side, d.value);
          var ok := document.canScale(old(document.selectionBounds), newBox);
          && document.selectionBounds == (if ok then newBox else old(document.selectionBounds))
          && document.transactions == old(document.transactions) + (if ok then [ScaleBBox(old(document.selectionBounds), newBox)] else [])
          && totalDelta == (if ok then Add(old(totalDelta), d.value) else old(totalDelta))
        else
          && document.selectionBounds == old(document.selectionBounds)
          && document.transactions == old(document.transactions)
          && totalDelta == old(totalDelta)
    {
      var delta := DragDelta(ray, distanceToLine);
      if delta.Some? && dragStartHit.target.SideTarget? {
        var side := dragStartHit.target.side;
        var newBox := MoveBBoxFace(bboxAtDragStart, side, delta.value);
        var ok := document.ScaleObjectsBBox(document.selectionBounds, newBox);
        if ok {
          totalDelta := Add(totalDelta, delta.value);
        }
      }
      r := true;
    }

    /** Ends the drag: a drag that moved nothing cancels its transaction, any other commits it.
        While the delta tracks the bounds, this never undoes a change the drag made. */
    method CommitResize()
      requires Valid() && resizing
      modifies this`resizing, document
      ensures Valid() && !resizing
      ensures document.transactions == old(document.transactions) + [if IsNull(totalDelta) then Cancel else Commit]
      ensures IsResizeSession(document.transactions[sessionStart..], ResizeTransactionName)
      ensures document.savedBounds == outerSaved
      ensures OpenTransactions(document.transactions) == OpenTransactions(document.transactions[..sessionStart])
      ensures document.selectionBounds == if IsNull(totalDelta) then bboxAtDragStart else old(document.selectionBounds)
      ensures document.selectedNodeCount == old(document.selectedNodeCount)
      ensures old(Tracks()) ==> (IsNull(totalDelta) <==> old(document.selectionBounds) == bboxAtDragStart)
      ensures old(Tracks()) ==> document.selectionBounds == old(document.selectionBounds)
    {
      ghost var wasTracking := Tracks();
      ghost var log := document.transactions;
      if wasTracking && dragStartHit.target.SideTarget? {
        var side := dragStartHit.target.side;
        MoveBBoxFaceUnchanged(bboxAtDragStart, side, totalDelta);
        AlongAxisNull(totalDelta, Axis(side.normal));
      }
      if IsNull(totalDelta) {
        document.CancelTransaction();
      } else {
        document.CommitTransaction();
      }
      resizing := false;
      assert document.transactions[sessionStart..] == log[sessionStart..] + [document.transactions[|log|]];
      SessionClosesBalanced();
    }

    /** Abandons the drag: its transaction is cancelled and the selection's bounds return
        to the drag-start box. */
    method CancelResize()
      requires Valid() && resizing
      modifies this`resizing, document
      ensures Valid() && !resizing
      ensures document.transactions == old(document.transactions) + [Cancel]
      ensures IsResizeSession(document.transactions[sessionStart..], ResizeTransactionName)
      ensures document.savedBounds == outerSaved
      ensures OpenTransactions(document.transactions) == OpenTransactions(document.transactions[..sessionStart])
      ensures document.selectionBounds == bboxAtDragStart
      ensures document.selectedNodeCount == old(document.selectedNodeCount)
    {
      ghost var log := document.transactions;
      document.CancelTransaction();
      resizing := false;
      assert document.transactions[sessionStart..] == log[sessionStart..] + [Cancel];
      SessionClosesBalanced();
    }

    /** Once the drag's log segment is a whole session, the document has as many
        transactions open as it had before the drag began. */
    lemma SessionClosesBalanced()
      requires sessionStart <= |document.transactions|
      requires IsResizeSession(document.transactions[sessionStart..], ResizeTransactionName)
      ensures OpenTransactions(document.transactions) == OpenTransactions(document.transactions[..sessionStart])
    {
      var log := document.transactions;
      SessionIsBalanced(log[..sessionStart], log[sessionStart..], ResizeTransactionName);
      assert log[..sessionStart] + log[sessionStart..] == log;
    }
  }

  /** Opens a drag of the +X face of the box [(0,0,0), (2,2,2)] on a document whose grid
      does not round and which accepts every scale. */
  method StartPlusXDrag() returns (doc: Document, tool: ScaleObjectsTool)
    ensures fresh(doc) && fresh(tool) && tool.document == doc
    ensures tool.Valid() && tool.Tracks() && tool.resizing
    ensures tool.dragStartHit.Match? && tool.dragStartHit.target == SideTarget(BBoxSide(PosX))
    ensures tool.bboxAtDragStart == BBox3(Null, Vec3(2.0, 2.0, 2.0))
    ensures doc.selectionBounds == tool.bboxAtDragStart && IsNull(tool.totalDelta)
    ensures forall d :: doc.snap(d) == d
    ensures forall from, to :: doc.canScale(from, to)
  {
    doc := new Document(1, BBox3(Null, Vec3(2.0, 2.0, 2.0)), d => d, (from, to) => true);
    tool := new ScaleObjectsTool(doc);
    var started := tool.BeginResize(Match(3.0, Vec3(2.0, 1.0, 1.0), SideTarget(BBoxSide(PosX))));
  }

  /** The drag of the +X face of [(0,0,0), (2,2,2)] outward by one grid unit, committed. */
  method DragPlusXFaceByOne() returns (finalBounds: BBox3, last: TxEvent)
    ensures finalBounds == BBox3(Null, Vec3(3.0, 2.0, 2.0))
    ensures last == Commit
  {
    var doc, tool := StartPlusXDrag();
    var ray := Ray3(Vec3(3.0, 5.0, 1.0), Vec3(0.0, -1.0, 0.0));
    var out: (Ray3, Vec3, Vec3) -> LineDistance := (r, o, n) => Distance(1.0);
    assert tool.DragDelta(ray, out) == Some(PosX);
    var stepped := tool.Resize(ray, out);
    assert tool.totalDelta == PosX;
    tool.CommitResize();
    finalBounds := doc.selectionBounds;
    last := doc.transactions[|doc.transactions| - 1];
  }

  /** As written, dragging the +X face of [(0,0,0), (2,2,2)] out by one unit and then in by
      one unit leaves the box one unit narrower but the accumulated delta zero. */
  method AsWrittenOutAndBack(doc: Document, tool: ScaleObjectsTool)
    requires tool.document == doc && tool.Valid() && tool.Tracks() && tool.resizing
    requires tool.dragStartHit.Match? && tool.dragStartHit.target == SideTarget(BBoxSide(PosX))
    requires tool.bboxAtDragStart == BBox3(Null, Vec3(2.0, 2.0, 2.0))
    requires doc.selectionBounds == tool.bboxAtDragStart && IsNull(tool.totalDelta)
    requires forall d :: doc.snap(d) == d
    requires forall from, to :: doc.canScale(from, to)
    modifies tool, doc
    ensures tool.Valid() && tool.resizing && tool.bboxAtDragStart == old(tool.bboxAtDragStart)
    ensures doc.selectionBounds == BBox3(Null, Vec3(1.0, 2.0, 2.0))
    ensures IsNull(tool.totalDelta)
  {
    var ray := Ray3(Vec3(3.0, 5.0, 1.0), Vec3(0.0, -1.0, 0.0));
    var out: (Ray3, Vec3, Vec3) -> LineDistance := (r, o, n) => Distance(1.0);
    var back: (Ray3, Vec3, Vec3) -> LineDistance := (r, o, n) => Distance(-1.0);
    assert tool.DragDelta(ray, out) == Some(PosX);
    var stepped := tool.ResizeAsWritten(ray, out);
    assert tool.totalDelta == PosX;
    assert doc.selectionBounds == BBox3(Null, Vec3(3.0, 2.0, 2.0));
    assert tool.DragDelta(ray, back) == Some(NegX);
    stepped := tool.ResizeAsWritten(ray, back);
    assert tool.totalDelta == Add(PosX, NegX);
  }

  /** As written, the drag above then commits by cancelling its transaction, and the
      resize is rolled back. */
  method AsWrittenCancelsNetResize() returns (beforeCommit: BBox3, afterCommit: BBox3, last: TxEvent)
    ensures beforeCommit == BBox3(Null, Vec3(1.0, 2.0, 2.0))
    ensures last == Cancel
    ensures afterCommit == BBox3(Null, Vec3(2.0, 2.0, 2.0))
  {
    var doc, tool := StartPlusXDrag();
    AsWrittenOutAndBack(doc, tool);
    beforeCommit := doc.selectionBounds;
    tool.CommitResize();
    afterCommit := doc.selectionBounds;
    last := doc.transactions[|doc.transactions| - 1];
  }

  /** The same two steps with the net delta recorded: the drag commits and keeps the box. */
  method NetResizeCommits() returns (beforeCommit: BBox3, afterCommit: BBox3, last: TxEvent)
    ensures beforeCommit == BBox3(Null, Vec3(1.0, 2.0, 2.0))
    ensures last == Commit
    ensures afterCommit == beforeCommit
  {
    var doc, tool := StartPlusXDrag();
    var ray := Ray3(Vec3(3.0, 5.0, 1.0), Vec3(0.0, -1.0, 0.0));
    var out: (Ray3, Vec3, Vec3) -> LineDistance := (r, o, n) => Distance(1.0);
    var back: (Ray3, Vec3, Vec3) -> LineDistance := (r, o, n) => Distance(-1.0);
    assert tool.DragDelta(ray, out) == Some(PosX);
    var stepped := tool.Resize(ray, out);
    assert tool.DragDelta(ray, back) == Some(NegX);
    stepped := tool.Resize(ray, back);
    assert tool.totalDelta == NegX;
    beforeCommit := doc.selectionBounds;
    tool.CommitResize();
    afterCommit := doc.selectionBounds;
    last := doc.transactions[|doc.transactions| - 1];
  }
}
