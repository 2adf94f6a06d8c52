/**
 * The behaviour of one scan unit's `fetchNext`, as a function. Everything the call reads
 * or changes is gathered in a `World`: the scanner's own fields, the cursor, the owner
 * (coordinator) and the results sink. What the collaborators answer is not computed here:
 * the cursor's batches and the owner's and sink's replies are scripts the call consumes,
 * one entry per query, so that every interleaving of flag changes the coordinator can
 * produce is one choice of scripts.
 */
module ScanSpec {
  import opened Wrappers
  import opened Codec

  /** `Tsdb1xScanners.State` as far as one scan unit goes. */
  datatype ScanState = Initialized | Continue | Complete | Exception

  /** What one `nextRows()` on the cursor delivers, when the scan is not exhausted. */
  datatype Fetch = Batch(rows: seq<Row>) | StoreError

  /** The settings a call works under; none of them changes during a call. */
  datatype Config = Config(
    filterOn: bool,                   // the owner has a scanner filter
    skipNsui: bool,                   // `skip_nsui`
    typeFilter: Option<set<byte>>,    // `data_type_filter`
    reversed: bool,                   // the cursor scans in reverse
    sequenceEnd: Option<int>)         // the owner's `sequenceEnd()`

  datatype World = World(
    // the scan unit
    state: ScanState,
    buffer: seq<Row>,                 // the pending buffer; [] is the source's null buffer
    keepers: set<Bytes>,
    skips: set<Bytes>,
    // the cursor
    fetches: seq<Fetch>,              // what the next `nextRows()` calls deliver; [] means exhausted
    nextRowsCalls: nat,
    closeCalls: nat,
    // the owner
    fullReplies: seq<bool>,           // answers to the next `isFull()` queries
    errorReplies: seq<bool>,          // answers to the next `hasException()` queries
    doneCalls: nat,                   // `scannerDone()` calls
    exceptionCalls: nat,              // `exception(...)` calls
    // the results sink
    sinkThrows: seq<bool>,            // whether each next `addData` throws
    calls: seq<Point>)                // every `addData` call received, a throwing one included

  /** The next answer of a reply script; an exhausted script answers false. */
  function Head(s: seq<bool>): bool { |s| > 0 && s[0] }

  function Tail(s: seq<bool>): seq<bool> { if s == [] then [] else s[1..] }

  /** Whether a row lies beyond the owner's sequence end, in the cursor's direction. */
  predicate PastBoundary(cfg: Config, baseTime: int) {
    cfg.sequenceEnd.Some? &&
    (if cfg.reversed then baseTime < cfg.sequenceEnd.value else baseTime > cfg.sequenceEnd.value)
  }

  /** The `addData` calls for a list of points; stops at the first call that throws. */
  function EmitPoints(pts: seq<Point>, w: World): (r: (bool, World))
    ensures r.1 == w.(sinkThrows := r.1.sinkThrows, calls := r.1.calls)
    ensures |w.calls| <= |r.1.calls| <= |w.calls| + |pts|
    ensures r.1.calls == w.calls + pts[..|r.1.calls| - |w.calls|]
    ensures r.0 ==> r.1.calls == w.calls + pts
    decreases |pts|
  {
    if pts == [] then (true, w)
    else
      var w1 := w.(sinkThrows := Tail(w.sinkThrows), calls := w.calls + [pts[0]]);
      if Head(w.sinkThrows) then (false, w1)
      else
        var r := EmitPoints(pts[1..], w1);
        assert pts[..|r.1.calls| - |w.calls|] == [pts[0]] + pts[1..][..|r.1.calls| - |w1.calls|];
        assert pts == [pts[0]] + pts[1..];
        r
  }

  datatype Screened = Screened(accept: bool, w: World, unresolved: bool)

  /**
   * The tag-value filter's decision on one row. A kept series joins `keepers`, a skipped
   * one `skips`; an unresolved id drops the row and, unless `skip_nsui` is on, marks the
   * run of rows as failed.
   */
  function Screen(cfg: Config, r: Row, w: World, unresolved: bool): Screened {
    if !cfg.filterOn then Screened(true, w, unresolved)
    else match r.verdict
      case Keep => Screened(true, w.(keepers := w.keepers + {r.tsuid}), unresolved)
      case Skip => Screened(false, w.(skips := w.skips + {r.tsuid}), unresolved)
      case Unresolved => Screened(false, w, unresolved || !cfg.skipNsui)
  }

  datatype RowResult = RowResult(pushed: bool, w: World, unresolved: bool)

  /** One row through the filter and, if kept, into the sink; `pushed` is false if the sink threw. */
  function ProcessRow(cfg: Config, r: Row, w: World, unresolved: bool): (x: RowResult)
    ensures x.w == w.(keepers := x.w.keepers, skips := x.w.skips, sinkThrows := x.w.sinkThrows, calls := x.w.calls)
  {
    var s := Screen(cfg, r, w, unresolved);
    if s.accept then
      var e := EmitPoints(Decode(r, cfg.typeFilter), s.w);
      RowResult(e.0, e.1, s.unresolved)
    else RowResult(true, s.w, s.unresolved)
  }

  /** How a run of rows stopped. `Paused` carries the rows left for the pending buffer. */
  datatype RowsEnd = Drained | Paused(rest: seq<Row>, atBoundary: bool) | SinkThrew

  datatype Pass = Pass(w: World, unresolved: bool, end: RowsEnd)

  /**
   * Processes rows[i..] in order: a row beyond the sequence end is buffered with the rest
   * of the run; otherwise it is screened, its points are pushed, and then the owner is
   * asked whether it is full, in which case the unread rows are buffered.
   */
  function ProcessRows(cfg: Config, rows: seq<Row>, i: nat, w: World, unresolved: bool): (p: Pass)
    requires i <= |rows|
    ensures p.w == w.(keepers := p.w.keepers, skips := p.w.skips, fullReplies := p.w.fullReplies,
                      sinkThrows := p.w.sinkThrows, calls := p.w.calls)
    decreases |rows| - i
  {
    if i == |rows| then Pass(w, unresolved, Drained)
    else if PastBoundary(cfg, rows[i].baseTime) then Pass(w, unresolved, Paused(rows[i..], true))
    else
      var x := ProcessRow(cfg, rows[i], w, unresolved);
      if !x.pushed then Pass(x.w, x.unresolved, SinkThrew)
      else
        var w2 := x.w.(fullReplies := Tail(x.w.fullReplies));
        if Head(x.w.fullReplies) then Pass(w2, x.unresolved, Paused(rows[i + 1..], false))
        else ProcessRows(cfg, rows, i + 1, w2, x.unresolved)
  }

  /** Why a call returned. */
  datatype Failure = SinkFailure | StoreFailure | UnresolvedId
  datatype Exit =
    | Idle                  // the unit had already finished
    | PeerError             // the owner reported an error raised elsewhere
    | FullAtEntry           // the owner was full before anything was read
    | PausedFull            // the owner became full mid-scan
    | PausedAtBoundary      // a row beyond the sequence end was reached
    | Exhausted             // the cursor has no more rows
    | Failed(cause: Failure)

  datatype Outcome = Outcome(w: World, exit: Exit)

  /** The unit's own failure: close the cursor, report `exception` once, drop all scan state. */
  function Fail(w: World, cause: Failure): Outcome {
    Outcome(w.(state := Exception, closeCalls := w.closeCalls + 1, exceptionCalls := w.exceptionCalls + 1,
               buffer := [], keepers := {}, skips := {}), Failed(cause))
  }

  /** Normal completion (exhausted cursor or a peer's error): close, report `scannerDone`, drop state. */
  function Finish(w: World, exit: Exit): Outcome {
    Outcome(w.(state := Complete, closeCalls := w.closeCalls + 1, doneCalls := w.doneCalls + 1,
               buffer := [], keepers := {}, skips := {}), exit)
  }

  /** A pause: keep the cursor open, buffer the unread rows, report `scannerDone`. */
  function Pause(w: World, rest: seq<Row>, atBoundary: bool): Outcome {
    Outcome(w.(state := Continue, buffer := rest, doneCalls := w.doneCalls + 1),
            if atBoundary then PausedAtBoundary else PausedFull)
  }

  /** After a run of rows: either the call returns, or scanning goes on from a world. */
  datatype Step = Stop(o: Outcome) | Go(w: World)

  /** The world a step leaves, whether the call returns or goes on. */
  function StepWorld(s: Step): World {
    if s.Stop? then s.o.w else s.w
  }

  /**
   * Settles a run of rows. An unresolved id fails the call once the run stops; with a
   * filter the owner's error flag is checked once the run is drained.
   */
  function Settle(cfg: Config, p: Pass): (s: Step)
    ensures s.Go? ==> s.w == p.w.(errorReplies := s.w.errorReplies)
  {
    match p.end
    case SinkThrew => Stop(Fail(p.w, SinkFailure))
    case Paused(rest, atBoundary) =>
      if p.unresolved then Stop(Fail(p.w, UnresolvedId)) else Stop(Pause(p.w, rest, atBoundary))
    case Drained =>
      if p.unresolved then Stop(Fail(p.w, UnresolvedId))
      else if !cfg.filterOn then Go(p.w)
      else
        var w1 := p.w.(errorReplies := Tail(p.w.errorReplies));
        if Head(p.w.errorReplies) then Stop(Finish(w1, PeerError)) else Go(w1)
  }

  /**
   * One batch from `nextRows()`, in a world where the call is already counted. Without a
   * filter the owner's error flag is checked as the batch arrives; the rows are then run.
   */
  function ReadBatch(cfg: Config, rows: seq<Row>, w: World): Step {
    if !cfg.filterOn && Head(w.errorReplies) then Stop(Finish(w.(errorReplies := Tail(w.errorReplies)), PeerError))
    else
      var w1 := if cfg.filterOn then w else w.(errorReplies := Tail(w.errorReplies));
      Settle(cfg, ProcessRows(cfg, rows, 0, w1, false))
  }

  /** The fetch loop: `nextRows()` until the cursor is exhausted, fails, or a batch stops the call. */
  function ScanLoop(cfg: Config, w: World): Outcome
    decreases |w.fetches|
  {
    var w1 := w.(nextRowsCalls := w.nextRowsCalls + 1);
    if w.fetches == [] then Finish(w1, Exhausted)
    else
      var w2 := w1.(fetches := w.fetches[1..]);
      match w.fetches[0]
      case StoreError => Fail(w2, StoreFailure)
      case Batch(rows) =>
        match ReadBatch(cfg, rows, w2)
        case Stop(o) => o
        case Go(w3) => ScanLoop(cfg, w3)
  }

  /** The world once both entry checks have passed: state CONTINUE, buffer taken for replay. */
  function Entered(w: World): World {
    w.(errorReplies := Tail(w.errorReplies), fullReplies := Tail(w.fullReplies), state := Continue, buffer := [])
  }

  /** Replays the pending buffer, once both entry checks have passed. */
  function Replay(cfg: Config, w: World): Step {
    Settle(cfg, ProcessRows(cfg, w.buffer, 0, Entered(w), false))
  }

  /**
   * `fetchNext`: a finished unit does nothing; a peer's error completes the unit; a full
   * owner pauses it before anything is read; otherwise the pending buffer is replayed
   * first and then the cursor is read.
   */
  function FetchNext(cfg: Config, w: World): Outcome {
    if w.state == Complete || w.state == Exception then Outcome(w, Idle)
    else if Head(w.errorReplies) then Finish(w.(errorReplies := Tail(w.errorReplies)), PeerError)
    else if Head(w.fullReplies) then
      Outcome(w.(errorReplies := Tail(w.errorReplies), fullReplies := Tail(w.fullReplies),
                 state := Continue, doneCalls := w.doneCalls + 1), FullAtEntry)
    else if w.buffer == [] then ScanLoop(cfg, Entered(w))
    else match Replay(cfg, w)
      case Stop(o) => o
      case Go(w1) => ScanLoop(cfg, w1)
  }
}
