/**
 * The scan unit as objects: a cursor over stored rows, the owner that coordinates the
 * scan units of a query, the results sink, and the scan unit itself, whose `FetchNext`
 * changes all four step by step. `FetchNext` is proved to do exactly what the
 * function `ScanSpec.FetchNext` describes, so every property proved about that function
 * holds of the objects.
 */
module Scanner {
  import opened Wrappers
  import opened Codec
  import opened ScanSpec

  /** The storage cursor: delivers batches of rows until it is exhausted. */
  class Cursor {
    var fetches: seq<Fetch>     // what the next `nextRows()` calls deliver; [] once exhausted
    var nextRowsCalls: nat
    var closeCalls: nat
    const reversed: bool

    constructor (fetches: seq<Fetch>, reversed: bool)
      ensures this.fetches == fetches && this.reversed == reversed
      ensures nextRowsCalls == 0 && closeCalls == 0
    {
      this.fetches := fetches;
      this.reversed := reversed;
      nextRowsCalls := 0;
      closeCalls := 0;
    }

    /** `nextRows()`: the next batch or store error, or `None` (the source's null) once exhausted. */
    method NextRows() returns (f: Option<Fetch>)
      modifies this`fetches, this`nextRowsCalls
      ensures nextRowsCalls == old(nextRowsCalls) + 1
      ensures old(fetches) == [] ==> f == None && fetches == []
      ensures old(fetches) != [] ==> f == Some(old(fetches)[0]) && fetches == old(fetches)[1..]
    {
      nextRowsCalls := nextRowsCalls + 1;
      if fetches == [] {
        f := None;
      } else {
        f := Some(fetches[0]);
        fetches := fetches[1..];
      }
    }

    method Close()
      modifies this`closeCalls
      ensures closeCalls == old(closeCalls) + 1
    {
      closeCalls := closeCalls + 1;
    }
  }

  /**
   * The owner of the scan unit. Whether it is full and whether another unit has failed
   * change under the scan unit's feet; the answers it gives are scripts.
   */
  class Owner {
    var fullReplies: seq<bool>
    var errorReplies: seq<bool>
    var doneCalls: nat
    var exceptionCalls: nat
    const filterOn: bool              // `scannerFilter()` is not null
    var sequenceEnd: Option<int>      // `sequenceEnd()`, a base time in seconds; may change between calls

    constructor (fullReplies: seq<bool>, errorReplies: seq<bool>, filterOn: bool, sequenceEnd: Option<int>)
      ensures this.fullReplies == fullReplies && this.errorReplies == errorReplies
      ensures this.filterOn == filterOn && this.sequenceEnd == sequenceEnd
      ensures doneCalls == 0 && exceptionCalls == 0
    {
      this.fullReplies := fullReplies;
      this.errorReplies := errorReplies;
      this.filterOn := filterOn;
      this.sequenceEnd := sequenceEnd;
      doneCalls := 0;
      exceptionCalls := 0;
    }

    /** Moves the sequence end, as a query that resumes the unit with a new one does. */
    method SetSequenceEnd(e: Option<int>)
      modifies this`sequenceEnd
      ensures sequenceEnd == e
    {
      sequenceEnd := e;
    }

    method IsFull() returns (full: bool)
      modifies this`fullReplies
      ensures full == Head(old(fullReplies)) && fullReplies == Tail(old(fullReplies))
    {
      full := Head(fullReplies);
      fullReplies := Tail(fullReplies);
    }

    method HasException() returns (failed: bool)
      modifies this`errorReplies
      ensures failed == Head(old(errorReplies)) && errorReplies == Tail(old(errorReplies))
    {
      failed := Head(errorReplies);
      errorReplies := Tail(errorReplies);
    }

    method ScannerDone()
      modifies this`doneCalls
      ensures doneCalls == old(doneCalls) + 1
    {
      doneCalls := doneCalls + 1;
    }

    method Exception()
      modifies this`exceptionCalls
      ensures exceptionCalls == old(exceptionCalls) + 1
    {
      exceptionCalls := exceptionCalls + 1;
    }
  }

  /** The query result that receives the decoded points. */
  class Sink {
    var throws: seq<bool>     // whether each next `addData` throws
    var calls: seq<Point>     // every `addData` received, a throwing one included

    constructor (throws: seq<bool>)
      ensures this.throws == throws && calls == []
    {
      this.throws := throws;
      calls := [];
    }

    /** `addData`; `ok` is false when the call throws. */
    method AddData(p: Point) returns (ok: bool)
      modifies this
      ensures calls == old(calls) + [p]
      ensures ok == !Head(old(throws)) && throws == Tail(old(throws))
    {
      calls := calls + [p];
      ok := !Head(throws);
      throws := Tail(throws);
    }
  }

  /** One scan unit of a query: reads its cursor into the sink on behalf of its owner. */
  class Tsdb1xScanner {
    const owner: Owner
    const cursor: Cursor
    const skipNsui: bool
    const typeFilter: Option<set<byte>>
    var state: ScanState
    var buffer: seq<Row>       // rows read but not yet processed; [] stands for null
    var keepers: set<Bytes>    // series the filter has kept
    var skips: set<Bytes>      // series the filter has rejected

    constructor (owner: Owner, cursor: Cursor, skipNsui: bool, typeFilter: Option<set<byte>>)
      ensures this.owner == owner && this.cursor == cursor
      ensures this.skipNsui == skipNsui && this.typeFilter == typeFilter
      ensures state == Initialized && buffer == [] && keepers == {} && skips == {}
    {
      this.owner := owner;
      this.cursor := cursor;
      this.skipNsui := skipNsui;
      this.typeFilter := typeFilter;
      state := Initialized;
      buffer := [];
      keepers := {};
      skips := {};
    }

    /** The source's constructor: a null owner or a null cursor is an illegal argument. */
    static method Create(owner: Owner?, cursor: Cursor?, skipNsui: bool, typeFilter: Option<set<byte>>)
      returns (r: Result<Tsdb1xScanner>)
      ensures r.IllegalArgument? <==> owner == null || cursor == null
      ensures r.Ok? ==> fresh(r.value) && r.value.owner == owner && r.value.cursor == cursor &&
                        r.value.state == Initialized && r.value.buffer == [] &&
                        r.value.keepers == {} && r.value.skips == {}
    {
      if owner == null {
        return IllegalArgument("Owner cannot be null.");
      }
      if cursor == null {
        return IllegalArgument("Scanner cannot be null.");
      }
      var s := new Tsdb1xScanner(owner, cursor, skipNsui, typeFilter);
      return Ok(s);
    }

    /** The settings `fetchNext` works under, the owner's current sequence end among them. */
    function Cfg(): Config
      reads owner`sequenceEnd
    {
      Config(owner.filterOn, skipNsui, typeFilter, cursor.reversed, owner.sequenceEnd)
    }

    /** Everything `fetchNext` reads or changes, as a value. */
    ghost function Abs(sink: Sink): World
      reads this, cursor, owner`fullReplies, owner`errorReplies, owner`doneCalls, owner`exceptionCalls, sink
    {
      World(state, buffer, keepers, skips,
            cursor.fetches, cursor.nextRowsCalls, cursor.closeCalls,
            owner.fullReplies, owner.errorReplies, owner.doneCalls, owner.exceptionCalls,
            sink.throws, sink.calls)
    }

    /** Pushes a row's points to the sink in order, stopping at the first call that throws. */
    method Push(pts: seq<Point>, sink: Sink) returns (ok: bool)
      modifies sink
      ensures (ok, Abs(sink)) == ScanSpec.EmitPoints(pts, old(Abs(sink)))
    {
      var j := 0;
      ok := true;
      while j < |pts|
        invariant 0 <= j <= |pts|
        invariant ScanSpec.EmitPoints(pts[j..], Abs(sink)) == ScanSpec.EmitPoints(pts, old(Abs(sink)))
      {
        assert pts[j..][1..] == pts[j + 1..];
        ok := sink.AddData(pts[j]);
        if !ok {
          return;
        }
        j := j + 1;
      }
      assert pts[j..] == [];
    }

    /** One row through the tag-value filter and, if kept, its points into the sink. */
    method RunRow(r: Row, unresolved: bool, sink: Sink) returns (pushed: bool, stillUnresolved: bool)
      modifies this`keepers, this`skips, sink
      ensures RowResult(pushed, Abs(sink), stillUnresolved) == ProcessRow(Cfg(), r, old(Abs(sink)), unresolved)
    {
      var accept := true;
      stillUnresolved := unresolved;
      if owner.filterOn {
        match r.verdict
        case Keep => keepers := keepers + {r.tsuid};
        case Skip => skips := skips + {r.tsuid}; accept := false;
        case Unresolved => stillUnresolved := unresolved || !skipNsui; accept := false;
      }
      pushed := true;
      if accept {
        pushed := Push(Decode(r, typeFilter), sink);
      }
    }

    /**
     * Runs rows through the filter and into the sink in order, until the rows run out,
     * a row lies beyond the sequence end, the sink throws, or the owner is full after a row.
     */
    method RunRows(rows: seq<Row>, sink: Sink) returns (unresolved: bool, end: RowsEnd)
      modifies this`keepers, this`skips, owner`fullReplies, sink
      ensures Pass(Abs(sink), unresolved, end) == ProcessRows(Cfg(), rows, 0, old(Abs(sink)), false)
    {
      var i := 0;
      unresolved := false;
      while i < |rows|
        invariant 0 <= i <= |rows|
        invariant ProcessRows(Cfg(), rows, i, Abs(sink), unresolved) == ProcessRows(Cfg(), rows, 0, old(Abs(sink)), false)
      {
        if PastBoundary(Cfg(), rows[i].baseTime) {
          return unresolved, Paused(rows[i..], true);
        }
        ghost var x := ProcessRow(Cfg(), rows[i], Abs(sink), unresolved);
        ghost var w2 := x.w.(fullReplies := Tail(x.w.fullReplies));
        assert ProcessRows(Cfg(), rows, i, Abs(sink), unresolved) ==
          if !x.pushed then Pass(x.w, x.unresolved, SinkThrew)
          else if Head(x.w.fullReplies) then Pass(w2, x.unresolved, Paused(rows[i + 1..], false))
          else ProcessRows(Cfg(), rows, i + 1, w2, x.unresolved);
        var pushed;
        pushed, unresolved := RunRow(rows[i], unresolved, sink);
        assert Abs(sink) == x.w;
        if !pushed {
          return unresolved, SinkThrew;
        }
        var full := owner.IsFull();
        assert Abs(sink) == w2;
        if full {
          return unresolved, Paused(rows[i + 1..], false);
        }
        i := i + 1;
      }
      return unresolved, Drained;
    }

    /** Fails the call: close the cursor, report `exception` once, drop all scan state. */
    method FailScan()
      modifies this`state, this`buffer, this`keepers, this`skips, cursor`closeCalls, owner`exceptionCalls
      ensures state == Exception && buffer == [] && keepers == {} && skips == {}
      ensures cursor.closeCalls == old(cursor.closeCalls) + 1
      ensures owner.exceptionCalls == old(owner.exceptionCalls) + 1
    {
      state := Exception;
      cursor.Close();
      owner.Exception();
      buffer := [];
      keepers := {};
      skips := {};
    }

    /** Completes the scan: close the cursor, report `scannerDone` once, drop all scan state. */
    method CompleteScan()
      modifies this`state, this`buffer, this`keepers, this`skips, cursor`closeCalls, owner`doneCalls
      ensures state == Complete && buffer == [] && keepers == {} && skips == {}
      ensures cursor.closeCalls == old(cursor.closeCalls) + 1
      ensures owner.doneCalls == old(owner.doneCalls) + 1
    {
      state := Complete;
      cursor.Close();
      buffer := [];
      keepers := {};
      skips := {};
      owner.ScannerDone();
    }

    /** Settles a run of rows; `stop` says whether the call returns. */
    method SettleRun(unresolved: bool, end: RowsEnd, sink: Sink) returns (stop: bool)
      modifies this`state, this`buffer, this`keepers, this`skips, cursor`closeCalls, owner`errorReplies,
               owner`doneCalls, owner`exceptionCalls
      ensures var s := Settle(Cfg(), Pass(old(Abs(sink)), unresolved, end));
        stop == s.Stop? && Abs(sink) == (if s.Stop? then s.o.w else s.w)
    {
      if end.SinkThrew? || unresolved {
        FailScan();
        return true;
      }
      if end.Paused? {
        state := Continue;
        buffer := end.rest;
        owner.ScannerDone();
        return true;
      }
      if owner.filterOn {
        var failed := owner.HasException();
        if failed {
          CompleteScan();
          return true;
        }
      }
      return false;
    }

    /** One batch from the cursor: the owner's error flag when there is no filter, then its rows. */
    method ReadBatchRows(rows: seq<Row>, sink: Sink) returns (stop: bool)
      modifies this`state, this`buffer, this`keepers, this`skips, cursor`closeCalls, owner`fullReplies,
               owner`errorReplies, owner`doneCalls, owner`exceptionCalls, sink
      ensures var s := ReadBatch(Cfg(), rows, old(Abs(sink)));
        stop == s.Stop? && Abs(sink) == StepWorld(s)
    {
      if !owner.filterOn {
        var failed := owner.HasException();
        if failed {
          CompleteScan();
          return true;
        }
      }
      var unresolved, end := RunRows(rows, sink);
      stop := SettleRun(unresolved, end, sink);
    }

    /**
     * One `nextRows()` and what follows from it: either the call is over, or the loop
     * goes on from a world that leads to the same outcome with fewer fetches left.
     */
    method FetchBatch(sink: Sink) returns (stop: bool)
      modifies this`state, this`buffer, this`keepers, this`skips, cursor,
               owner`fullReplies, owner`errorReplies, owner`doneCalls, owner`exceptionCalls, sink
      ensures stop ==> Abs(sink) == ScanLoop(Cfg(), old(Abs(sink))).w
      ensures !stop ==> ScanLoop(Cfg(), Abs(sink)) == ScanLoop(Cfg(), old(Abs(sink)))
      ensures !stop ==> |cursor.fetches| < old(|cursor.fetches|)
    {
      ghost var w := Abs(sink);
      var f := cursor.NextRows();
      if f.None? {
        CompleteScan();
        return true;
      }
      ghost var w2 := w.(nextRowsCalls := w.nextRowsCalls + 1, fetches := w.fetches[1..]);
      assert Abs(sink) == w2;
      match f.value
      case StoreError =>
        FailScan();
        return true;
      case Batch(rows) =>
        assert ScanLoop(Cfg(), w) == match ReadBatch(Cfg(), rows, w2)
          case Stop(o) => o
          case Go(w3) => ScanLoop(Cfg(), w3);
        stop := ReadBatchRows(rows, sink);
    }

    /** The fetch loop: `nextRows()` until the cursor is exhausted, fails, or a batch stops the call. */
    method ScanBatches(sink: Sink)
      modifies this`state, this`buffer, this`keepers, this`skips, cursor,
               owner`fullReplies, owner`errorReplies, owner`doneCalls, owner`exceptionCalls, sink
      ensures Abs(sink) == ScanLoop(Cfg(), old(Abs(sink))).w
    {
      while true
        invariant ScanLoop(Cfg(), Abs(sink)) == ScanLoop(Cfg(), old(Abs(sink)))
        decreases |cursor.fetches|
      {
        var stop := FetchBatch(sink);
        if stop {
          return;
        }
      }
    }

    /**
     * `fetchNext`: a finished unit does nothing; otherwise the owner is checked for a
     * peer's error and for fullness, the pending buffer is replayed, and the cursor is read.
     */
    method FetchNext(sink: Sink)
      modifies this, cursor, owner`fullReplies, owner`errorReplies, owner`doneCalls, owner`exceptionCalls,
               sink
      ensures Abs(sink) == ScanSpec.FetchNext(Cfg(), old(Abs(sink))).w
    {
      if state == Complete || state == Exception {
        return;
      }
      var failed := owner.HasException();
      if failed {
        CompleteScan();
        return;
      }
      var full := owner.IsFull();
      if full {
        state := Continue;
        owner.ScannerDone();
        return;
      }
      state := Continue;
      var pending := buffer;
      buffer := [];
      if pending != [] {
        var unresolved, end := RunRows(pending, sink);
        var stop := SettleRun(unresolved, end, sink);
        if stop {
          return;
        }
      }
      ScanBatches(sink);
    }
  }
}
