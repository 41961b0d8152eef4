/**
 The parts of the map document that the scale tool drives: the selection, its
 bounds, the grid, the bounding-box scale command and the transaction calls.
 The document itself lies outside this model; this class is a stand-in that
 records every transaction call in a log, so that the tool's use of it can be
 stated and checked. Two of the document's decisions are left open as oracles
 fixed at construction: how the grid snaps a distance, and whether a
 requested scale of the selection is accepted.
 */
module MapDocument {
  import opened Geometry

  /** One call into the document's transaction interface, as recorded in its log. */
  datatype TxEvent =
    | Begin(name: string)
    | Commit
    | Cancel
    | ScaleBBox(from: BBox3, to: BBox3)

  /** The change in the number of open transactions that an event makes. */
  function Effect(e: TxEvent): int {
    match e
    case Begin(_) => 1
    case Commit => -1
    case Cancel => -1
    case ScaleBBox(_, _) => 0
  }

  /** The number of transactions a log leaves open: begins minus commits and cancels. */
  function OpenTransactions(log: seq<TxEvent>): int {
    if log == [] then 0 else OpenTransactions(log[..|log| - 1]) + Effect(log[|log| - 1])
  }

  lemma OpenTransactionsAppend(log: seq<TxEvent>, e: TxEvent)
    ensures OpenTransactions(log + [e]) == OpenTransactions(log) + Effect(e)
  {
    assert (log + [e])[..|log|] == log;
  }

  class Document {
    /** How many nodes are selected. */
    var selectedNodeCount: nat
    /** The bounds of the current selection (`selectionBounds()`). */
    var selectionBounds: BBox3
    /** Every transaction call made on this document, oldest first. */
    var transactions: seq<TxEvent>
    /** The selection bounds as they were when each open transaction began, innermost last. */
    var savedBounds: seq<BBox3>
    /** `grid().snap`: the grid's rounding of a distance. */
    const snap: real -> real
    /** Whether `scaleObjectsBBox(from, to)` succeeds. */
    const canScale: (BBox3, BBox3) -> bool

    ghost predicate Valid()
      reads this
    {
      |savedBounds| == OpenTransactions(transactions)
    }

    constructor (selectedNodeCount: nat, selectionBounds: BBox3, snap: real -> real, canScale: (BBox3, BBox3) -> bool)
      ensures Valid()
      ensures this.selectedNodeCount == selectedNodeCount && this.selectionBounds == selectionBounds
      ensures this.snap == snap && this.canScale == canScale
      ensures transactions == [] && savedBounds == []
    {
      this.selectedNodeCount := selectedNodeCount;
      this.selectionBounds := selectionBounds;
      this.snap := snap;
      this.canScale := canScale;
      transactions := [];
      savedBounds := [];
    }

    /** Opens a (possibly nested) transaction named `name`. */
    method BeginTransaction(name: string)
      requires Valid()
      modifies this`transactions, this`savedBounds
      ensures Valid()
      ensures transactions == old(transactions) + [Begin(name)]
      ensures savedBounds == old(savedBounds) + [selectionBounds]
    {
      OpenTransactionsAppend(transactions, Begin(name));
      transactions := transactions + [Begin(name)];
      savedBounds := savedBounds + [selectionBounds];
    }

    /** Closes the innermost transaction, keeping its changes. */
    method CommitTransaction()
      requires Valid() && savedBounds != []
      modifies this`transactions, this`savedBounds
      ensures Valid()
      ensures transactions == old(transactions) + [Commit]
      ensures savedBounds == old(savedBounds)[..|old(savedBounds)| - 1]
    {
      OpenTransactionsAppend(transactions, Commit);
      transactions := transactions + [Commit];
      savedBounds := savedBounds[..|savedBounds| - 1];
    }

    /** Closes the innermost transaction, undoing its changes to the selection. */
    method CancelTransaction()
      requires Valid() && savedBounds != []
      modifies this`transactions, this`savedBounds, this`selectionBounds
      ensures Valid()
      ensures transactions == old(transactions) + [Cancel]
      ensures savedBounds == old(savedBounds)[..|old(savedBounds)| - 1]
      ensures selectionBounds == old(savedBounds)[|old(savedBounds)| - 1]
    {
      OpenTransactionsAppend(transactions, Cancel);
      transactions := transactions + [Cancel];
      selectionBounds := savedBounds[|savedBounds| - 1];
      savedBounds := savedBounds[..|savedBounds| - 1];
    }

    /** Scales the selected objects so that the box `from` becomes `to`; on failure nothing changes. */
    method ScaleObjectsBBox(from: BBox3, to: BBox3) returns (ok: bool)
      requires Valid()
      modifies this`transactions, this`selectionBounds
      ensures Valid()
      ensures ok == canScale(from, to)
      ensures selectionBounds == if ok then to else old(selectionBounds)
      ensures transactions == old(transactions) + if ok then [ScaleBBox(from, to)] else []
    {
      ok := canScale(from, to);
      if ok {
        OpenTransactionsAppend(transactions, ScaleBBox(from, to));
        transactions := transactions + [ScaleBBox(from, to)];
        selectionBounds := to;
      }
    }
  }

  /** The events of one drag: a begin, any number of scale edits, then one commit or cancel. */
  ghost predicate IsResizeSession(seg: seq<TxEvent>, name: string) {
    && |seg| >= 2
    && seg[0] == Begin(name)
    && (seg[|seg| - 1] == Commit || seg[|seg| - 1] == Cancel)
    && forall i :: 0 < i < |seg| - 1 ==> seg[i].ScaleBBox?
  }

  /** Scale edits neither open nor close a transaction. */
  lemma {:induction false} ScalesKeepOpenCount(log: seq<TxEvent>, edits: seq<TxEvent>)
    requires forall i :: 0 <= i < |edits| ==> edits[i].ScaleBBox?
    ensures OpenTransactions(log + edits) == OpenTransactions(log)
    decreases |edits|
  {
    if edits != [] {
      var front := edits[..|edits| - 1];
      ScalesKeepOpenCount(log, front);
      assert log + edits == (log + front) + [edits[|edits| - 1]];
      OpenTransactionsAppend(log + front, edits[|edits| - 1]);
    } else {
      assert log + edits == log;
    }
  }

  /** A whole drag session leaves exactly as many transactions open as there were before it. */
  lemma SessionIsBalanced(log: seq<TxEvent>, seg: seq<TxEvent>, name: string)
    requires IsResizeSession(seg, name)
    ensures OpenTransactions(log + seg) == OpenTransactions(log)
  {
    var edits := seg[1..|seg| - 1];
    OpenTransactionsAppend(log, seg[0]);
    ScalesKeepOpenCount(log + [seg[0]], edits);
    OpenTransactionsAppend(log + [seg[0]] + edits, seg[|seg| - 1]);
    assert log + seg == log + [seg[0]] + edits + [seg[|seg| - 1]];
  }
}
