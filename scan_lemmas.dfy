/**
 * Properties of `ScanSpec.FetchNext`: what each exit signals to the owner and the cursor,
 * that pausing loses and repeats nothing, that no row beyond the sequence end is emitted,
 * and how unresolved ids are handled.
 */
module ScanLemmas {
  import opened Wrappers
  import opened Codec
  import opened ScanSpec

  // ---------------------------------------------------------------------------------
  // Signalling: each exit closes the cursor and notifies the owner exactly as intended.
  // ---------------------------------------------------------------------------------

  /** The counters and state an exit leaves behind, relative to the world the call began in. */
  predicate Signalled(w: World, o: Outcome) {
    match o.exit
    case Idle => o.w == w
    case FullAtEntry =>
      o.w.closeCalls == w.closeCalls && o.w.doneCalls == w.doneCalls + 1 && o.w.exceptionCalls == w.exceptionCalls &&
      o.w.state == Continue && o.w.buffer == w.buffer && o.w.fetches == w.fetches &&
      o.w.nextRowsCalls == w.nextRowsCalls && o.w.calls == w.calls
    case PausedFull => Paused(w, o)
    case PausedAtBoundary => Paused(w, o)
    case Exhausted => Completed(w, o)
    case PeerError => Completed(w, o)
    case Failed(_) =>
      o.w.closeCalls == w.closeCalls + 1 && o.w.doneCalls == w.doneCalls && o.w.exceptionCalls == w.exceptionCalls + 1 &&
      o.w.state == Exception && o.w.buffer == [] && o.w.keepers == {} && o.w.skips == {}
  }

  predicate Paused(w: World, o: Outcome) {
    o.w.closeCalls == w.closeCalls && o.w.doneCalls == w.doneCalls + 1 && o.w.exceptionCalls == w.exceptionCalls &&
    o.w.state == Continue
  }

  predicate Completed(w: World, o: Outcome) {
    o.w.closeCalls == w.closeCalls + 1 && o.w.doneCalls == w.doneCalls + 1 && o.w.exceptionCalls == w.exceptionCalls &&
    o.w.state == Complete && o.w.buffer == [] && o.w.keepers == {} && o.w.skips == {}
  }

  /** How a run of rows is settled reports to the owner as its exit says. */
  lemma SettleSignals(cfg: Config, w: World, p: Pass)
    requires p.w.closeCalls == w.closeCalls && p.w.doneCalls == w.doneCalls && p.w.exceptionCalls == w.exceptionCalls
    ensures Settle(cfg, p).Stop? ==>
      var o := Settle(cfg, p).o; o.exit != Idle && o.exit != FullAtEntry && Signalled(w, o)
    ensures Settle(cfg, p).Go? ==>
      var w1 := Settle(cfg, p).w;
      w1.closeCalls == w.closeCalls && w1.doneCalls == w.doneCalls && w1.exceptionCalls == w.exceptionCalls &&
      w1.buffer == p.w.buffer && w1.fetches == p.w.fetches
  {
  }

  /** A batch reports to the owner as its exit says, or goes on with the counters untouched. */
  lemma ReadBatchSignals(cfg: Config, rows: seq<Row>, w: World, w2: World)
    requires w2.closeCalls == w.closeCalls && w2.doneCalls == w.doneCalls && w2.exceptionCalls == w.exceptionCalls
    ensures ReadBatch(cfg, rows, w2).Stop? ==>
      var o := ReadBatch(cfg, rows, w2).o; o.exit != Idle && o.exit != FullAtEntry && Signalled(w, o)
    ensures ReadBatch(cfg, rows, w2).Go? ==>
      var w3 := ReadBatch(cfg, rows, w2).w;
      w3.closeCalls == w.closeCalls && w3.doneCalls == w.doneCalls && w3.exceptionCalls == w.exceptionCalls
  {
    if cfg.filterOn || !Head(w2.errorReplies) {
      var w3 := if cfg.filterOn then w2 else w2.(errorReplies := Tail(w2.errorReplies));
      SettleSignals(cfg, w, ProcessRows(cfg, rows, 0, w3, false));
    }
  }

  /** The fetch loop always ends in a pause, a completion or a failure, reported once. */
  lemma {:induction false} ScanLoopSignals(cfg: Config, w: World)
    ensures var o := ScanLoop(cfg, w); o.exit != Idle && o.exit != FullAtEntry && Signalled(w, o)
    decreases |w.fetches|
  {
    var o := ScanLoop(cfg, w);
    if w.fetches != [] && w.fetches[0].Batch? {
      var w2 := w.(nextRowsCalls := w.nextRowsCalls + 1, fetches := w.fetches[1..]);
      var s := ReadBatch(cfg, w.fetches[0].rows, w2);
      ReadBatchSignals(cfg, w.fetches[0].rows, w, w2);
      if s.Go? {
        assert o == ScanLoop(cfg, s.w);
        ScanLoopSignals(cfg, s.w);
      } else {
        assert o == s.o;
      }
    }
  }

  /**
   * Every call of `fetchNext` reports exactly once: a pause or a completion calls
   * `scannerDone` once and never `exception`; a failure calls `exception` once and never
   * `scannerDone`; the cursor is closed once on completion and failure and never on a
   * pause; completion and failure drop the buffer, `keepers` and `skips`.
   */
  lemma FetchNextSignals(cfg: Config, w: World)
    ensures var o := FetchNext(cfg, w);
      Signalled(w, o) && (o.exit == Idle <==> (w.state == Complete || w.state == Exception))
  {
    if w.state != Complete && w.state != Exception && !Head(w.errorReplies) && !Head(w.fullReplies) {
      if w.buffer == [] {
        ScanLoopSignals(cfg, Entered(w));
      } else {
        SettleSignals(cfg, w, ProcessRows(cfg, w.buffer, 0, Entered(w), false));
        if Replay(cfg, w).Go? {
          ScanLoopSignals(cfg, Replay(cfg, w).w);
        }
      }
    }
  }

  /**
   * A peer's error already set when `fetchNext` starts: the cursor is closed once, no
   * `nextRows` is issued, nothing reaches the sink, `scannerDone` is called once and
   * `exception` never, and the unit is COMPLETE with no buffer.
   */
  lemma PeerErrorAtEntry(cfg: Config, w: World)
    requires w.state != Complete && w.state != Exception
    requires Head(w.errorReplies)
    ensures var o := FetchNext(cfg, w);
      o.exit == PeerError && Completed(w, o) &&
      o.w.nextRowsCalls == w.nextRowsCalls && o.w.calls == w.calls
  {
  }

  /**
   * An owner already full when `fetchNext` starts: no `nextRows`, no close, no `addData`,
   * state CONTINUE, `scannerDone` once, and the pending buffer left as it was.
   */
  lemma FullAtEntryPausesUntouched(cfg: Config, w: World)
    requires w.state != Complete && w.state != Exception
    requires !Head(w.errorReplies) && Head(w.fullReplies)
    ensures var o := FetchNext(cfg, w);
      o.exit == FullAtEntry && Signalled(w, o)
  {
  }

  // ---------------------------------------------------------------------------------
  // Conservation: the rows still to be read are exactly those not yet emitted.
  // ---------------------------------------------------------------------------------

  /** The points an uninterrupted scan hands to the sink for one row. */
  function RowPoints(filterOn: bool, typeFilter: Option<set<byte>>, r: Row): seq<Point> {
    if !filterOn || r.verdict == Keep then Decode(r, typeFilter) else []
  }

  /** The points an uninterrupted scan hands to the sink for a sequence of rows, in order. */
  function Emission(filterOn: bool, typeFilter: Option<set<byte>>, rows: seq<Row>): seq<Point>
    decreases |rows|
  {
    if rows == [] then [] else RowPoints(filterOn, typeFilter, rows[0]) + Emission(filterOn, typeFilter, rows[1..])
  }

  lemma {:induction false} EmissionAppend(filterOn: bool, typeFilter: Option<set<byte>>, a: seq<Row>, b: seq<Row>)
    ensures Emission(filterOn, typeFilter, a + b) == Emission(filterOn, typeFilter, a) + Emission(filterOn, typeFilter, b)
    decreases |a|
  {
    if a == [] {
      assert a + b == b;
    } else {
      assert (a + b)[0] == a[0];
      assert (a + b)[1..] == a[1..] + b;
      EmissionAppend(filterOn, typeFilter, a[1..], b);
    }
  }

  /** The rows of the batches the cursor still holds, in delivery order. */
  function BatchRows(fs: seq<Fetch>): seq<Row>
    decreases |fs|
  {
    if fs == [] then [] else (if fs[0].Batch? then fs[0].rows else []) + BatchRows(fs[1..])
  }

  /** Every row the unit has still to process: the pending buffer, then the cursor's rows. */
  function Pending(w: World): seq<Row> {
    w.buffer + BatchRows(w.fetches)
  }

  predicate NoneTrue(s: seq<bool>) { forall i :: 0 <= i < |s| ==> !s[i] }

  /** No unresolved id can fail the scan among these rows. */
  predicate Resolvable(cfg: Config, rows: seq<Row>) {
    cfg.filterOn && !cfg.skipNsui ==> forall i :: 0 <= i < |rows| ==> rows[i].verdict != Unresolved
  }

  /**
   * A world in which nothing fails: no peer error is reported, the sink accepts every
   * point, the cursor raises no store error, and no row has an id that fails the scan.
   * Fullness and the sequence end may still pause it.
   */
  predicate Calm(cfg: Config, w: World) {
    NoneTrue(w.errorReplies) && NoneTrue(w.sinkThrows) &&
    (forall i :: 0 <= i < |w.fetches| ==> w.fetches[i].Batch?) &&
    Resolvable(cfg, Pending(w))
  }

  /**
   * From pending rows P with sink calls `calls` to P2 with `calls2`: a prefix of P was
   * consumed, exactly its points were emitted, and the rest is still pending, in order.
   */
  predicate Advances(cfg: Config, P: seq<Row>, P2: seq<Row>, calls: seq<Point>, calls2: seq<Point>) {
    |P2| <= |P| && P2 == P[|P| - |P2|..] &&
    calls2 == calls + Emission(cfg.filterOn, cfg.typeFilter, P[..|P| - |P2|])
  }

  predicate Advanced(cfg: Config, w: World, w2: World) {
    Advances(cfg, Pending(w), Pending(w2), w.calls, w2.calls)
  }

  lemma AdvancesTransitive(cfg: Config, P: seq<Row>, P1: seq<Row>, P2: seq<Row>, c: seq<Point>, c1: seq<Point>, c2: seq<Point>)
    requires Advances(cfg, P, P1, c, c1) && Advances(cfg, P1, P2, c1, c2)
    ensures Advances(cfg, P, P2, c, c2)
  {
    var n1, n2 := |P| - |P1|, |P1| - |P2|;
    SplitTwice(P, n1, n2);
    EmissionAppend(cfg.filterOn, cfg.typeFilter, P[..n1], P1[..n2]);
    ConcatAssoc(c, Emission(cfg.filterOn, cfg.typeFilter, P[..n1]), Emission(cfg.filterOn, cfg.typeFilter, P1[..n2]));
  }

  lemma SplitTwice(P: seq<Row>, n1: nat, n2: nat)
    requires n1 + n2 <= |P|
    ensures P[n1..][n2..] == P[n1 + n2..]
    ensures P[..n1 + n2] == P[..n1] + P[n1..][..n2]
  {
  }

  /**
   * One stretch of a calm scan: the unit advanced, and nothing that keeps the world calm
   * was lost (no error reported, every sink call accepted, the cursor only moved on).
   */
  predicate CalmStep(cfg: Config, w: World, w2: World) {
    Advanced(cfg, w, w2) && NoneTrue(w2.errorReplies) && NoneTrue(w2.sinkThrows) &&
    |w2.fetches| <= |w.fetches| && w2.fetches == w.fetches[|w.fetches| - |w2.fetches|..] &&
    (NoneTrue(w.fullReplies) ==> NoneTrue(w2.fullReplies))
  }

  lemma CalmStepTransitive(cfg: Config, w: World, w1: World, w2: World)
    requires CalmStep(cfg, w, w1) && CalmStep(cfg, w1, w2)
    ensures CalmStep(cfg, w, w2)
  {
    AdvancesTransitive(cfg, Pending(w), Pending(w1), Pending(w2), w.calls, w1.calls, w2.calls);
    var d1, d2 := |w.fetches| - |w1.fetches|, |w1.fetches| - |w2.fetches|;
    assert w2.fetches == w.fetches[d1 + d2..];
  }

  /** A step that consumed nothing. */
  lemma CalmStepStill(cfg: Config, w: World, w2: World)
    requires Pending(w2) == Pending(w) && w2.calls == w.calls
    requires NoneTrue(w2.errorReplies) && NoneTrue(w2.sinkThrows)
    requires |w2.fetches| <= |w.fetches| && w2.fetches == w.fetches[|w.fetches| - |w2.fetches|..]
    requires NoneTrue(w.fullReplies) ==> NoneTrue(w2.fullReplies)
    ensures CalmStep(cfg, w, w2)
  {
    var P := Pending(w);
    assert P[|P| - |P|..] == P && P[..0] == [];
    assert w.calls + [] == w.calls;
  }

  /** Calm worlds stay calm along a calm step. */
  lemma CalmStepKeepsCalm(cfg: Config, w: World, w2: World)
    requires Calm(cfg, w) && CalmStep(cfg, w, w2)
    ensures Calm(cfg, w2)
  {
    var d := |w.fetches| - |w2.fetches|;
    forall i | 0 <= i < |w2.fetches| ensures w2.fetches[i].Batch? { assert w2.fetches[i] == w.fetches[d + i]; }
    var n := |Pending(w)| - |Pending(w2)|;
    if cfg.filterOn && !cfg.skipNsui {
      forall i | 0 <= i < |Pending(w2)| ensures Pending(w2)[i].verdict != Unresolved {
        assert Pending(w2)[i] == Pending(w)[n + i];
      }
    }
  }

  lemma {:induction false} EmitAllAccepted(pts: seq<Point>, w: World)
    requires NoneTrue(w.sinkThrows)
    ensures EmitPoints(pts, w).0 && NoneTrue(EmitPoints(pts, w).1.sinkThrows)
    decreases |pts|
  {
    if pts != [] {
      var w1 := w.(sinkThrows := Tail(w.sinkThrows), calls := w.calls + [pts[0]]);
      TailNoneTrue(w.sinkThrows);
      EmitAllAccepted(pts[1..], w1);
    }
  }

  /** In a calm world a row is pushed whole: exactly the points an uninterrupted scan emits for it. */
  lemma ProcessRowCalm(cfg: Config, r: Row, w: World)
    requires NoneTrue(w.sinkThrows)
    requires cfg.filterOn && !cfg.skipNsui ==> r.verdict != Unresolved
    ensures var x := ProcessRow(cfg, r, w, false);
      x.pushed && !x.unresolved && NoneTrue(x.w.sinkThrows) &&
      x.w.calls == w.calls + RowPoints(cfg.filterOn, cfg.typeFilter, r)
  {
    var s := Screen(cfg, r, w, false);
    if s.accept {
      EmitAllAccepted(Decode(r, cfg.typeFilter), s.w);
    } else {
      assert w.calls + [] == w.calls;
    }
  }

  /** With a sink that never throws, a row is pushed whole, whatever the filter says of it. */
  lemma ProcessRowPushes(cfg: Config, r: Row, w: World, unresolved: bool)
    requires NoneTrue(w.sinkThrows)
    ensures var x := ProcessRow(cfg, r, w, unresolved);
      x.pushed && NoneTrue(x.w.sinkThrows) &&
      x.w.calls == w.calls + RowPoints(cfg.filterOn, cfg.typeFilter, r)
  {
    var s := Screen(cfg, r, w, unresolved);
    if s.accept {
      EmitAllAccepted(Decode(r, cfg.typeFilter), s.w);
    } else {
      assert w.calls + [] == w.calls;
    }
  }

  lemma TailNoneTrue(s: seq<bool>)
    requires NoneTrue(s)
    ensures NoneTrue(Tail(s)) && !Head(s)
  {
    if s != [] {
      forall i | 0 <= i < |Tail(s)| ensures !Tail(s)[i] { assert Tail(s)[i] == s[i + 1]; }
    }
  }

  lemma ResolvableTail(cfg: Config, rows: seq<Row>, i: nat)
    requires i < |rows| && Resolvable(cfg, rows[i..])
    ensures Resolvable(cfg, rows[i + 1..]) && (cfg.filterOn && !cfg.skipNsui ==> rows[i].verdict != Unresolved)
  {
    assert rows[i..][0] == rows[i];
    if cfg.filterOn && !cfg.skipNsui {
      forall j | i + 1 <= j < |rows| ensures rows[j].verdict != Unresolved {
        assert rows[j] == rows[i..][j - i];
      }
    }
  }

  /** How many rows a run read: all of them, unless it paused with some left over. */
  function Consumed(rows: seq<Row>, p: Pass): int {
    if p.end.Paused? then |rows| - |p.end.rest| else |rows|
  }

  /** A paused run leaves exactly the unread tail of its rows. */
  lemma {:induction false} ProcessRowsRest(cfg: Config, rows: seq<Row>, i: nat, w: World, unresolved: bool)
    requires i <= |rows|
    ensures var p := ProcessRows(cfg, rows, i, w, unresolved);
      i <= Consumed(rows, p) <= |rows| && (p.end.Paused? ==> p.end.rest == rows[Consumed(rows, p)..])
    decreases |rows| - i
  {
    if i < |rows| && !PastBoundary(cfg, rows[i].baseTime) {
      var x := ProcessRow(cfg, rows[i], w, unresolved);
      if x.pushed && !Head(x.w.fullReplies) {
        ProcessRowsRest(cfg, rows, i + 1, x.w.(fullReplies := Tail(x.w.fullReplies)), x.unresolved);
      }
    }
  }

  /** A run with the owner never full and no sequence end reads every row or meets a throwing sink. */
  lemma {:induction false} ProcessRowsNeverFull(cfg: Config, rows: seq<Row>, i: nat, w: World, unresolved: bool)
    requires i <= |rows| && NoneTrue(w.fullReplies)
    ensures var p := ProcessRows(cfg, rows, i, w, unresolved);
      NoneTrue(p.w.fullReplies) && (cfg.sequenceEnd.None? ==> !p.end.Paused?)
    decreases |rows| - i
  {
    if i < |rows| && !PastBoundary(cfg, rows[i].baseTime) {
      var x := ProcessRow(cfg, rows[i], w, unresolved);
      TailNoneTrue(w.fullReplies);
      if x.pushed {
        ProcessRowsNeverFull(cfg, rows, i + 1, x.w.(fullReplies := Tail(x.w.fullReplies)), x.unresolved);
      }
    }
  }

  /** In a calm world a run of rows neither fails nor meets a throwing sink. */
  lemma {:induction false} ProcessRowsCalmFlags(cfg: Config, rows: seq<Row>, i: nat, w: World)
    requires i <= |rows| && NoneTrue(w.sinkThrows) && Resolvable(cfg, rows[i..])
    ensures var p := ProcessRows(cfg, rows, i, w, false);
      !p.unresolved && !p.end.SinkThrew? && NoneTrue(p.w.sinkThrows)
    decreases |rows| - i
  {
    if i < |rows| && !PastBoundary(cfg, rows[i].baseTime) {
      ResolvableTail(cfg, rows, i);
      ProcessRowCalm(cfg, rows[i], w);
      var x := ProcessRow(cfg, rows[i], w, false);
      ProcessRowsCalmFlags(cfg, rows, i + 1, x.w.(fullReplies := Tail(x.w.fullReplies)));
    }
  }

  lemma EmissionCons(filterOn: bool, typeFilter: Option<set<byte>>, rows: seq<Row>, i: nat, k: nat)
    requires i < k <= |rows|
    ensures Emission(filterOn, typeFilter, rows[i..k]) ==
            RowPoints(filterOn, typeFilter, rows[i]) + Emission(filterOn, typeFilter, rows[i + 1..k])
  {
    assert rows[i..k][0] == rows[i] && rows[i..k][1..] == rows[i + 1..k];
  }

  /** A row that is pushed and leaves the owner not full hands over to the next row. */
  lemma ProcessRowsUnfold(cfg: Config, rows: seq<Row>, i: nat, w: World, unresolved: bool)
    requires i < |rows| && !PastBoundary(cfg, rows[i].baseTime)
    requires var x := ProcessRow(cfg, rows[i], w, unresolved); x.pushed && !Head(x.w.fullReplies)
    ensures var x := ProcessRow(cfg, rows[i], w, unresolved);
      ProcessRows(cfg, rows, i, w, unresolved) ==
      ProcessRows(cfg, rows, i + 1, x.w.(fullReplies := Tail(x.w.fullReplies)), x.unresolved)
  {
  }

  /** With a sink that never throws, a row after which the owner is full is the last one a run emits. */
  lemma ProcessRowsCalmLast(cfg: Config, rows: seq<Row>, i: nat, w: World, unresolved: bool)
    requires i < |rows| && NoneTrue(w.sinkThrows)
    requires !PastBoundary(cfg, rows[i].baseTime) && Head(ProcessRow(cfg, rows[i], w, unresolved).w.fullReplies)
    ensures var p := ProcessRows(cfg, rows, i, w, unresolved);
      Consumed(rows, p) == i + 1 &&
      p.w.calls == w.calls + Emission(cfg.filterOn, cfg.typeFilter, rows[i..i + 1])
  {
    ProcessRowPushes(cfg, rows[i], w, unresolved);
    var head := RowPoints(cfg.filterOn, cfg.typeFilter, rows[i]);
    EmissionCons(cfg.filterOn, cfg.typeFilter, rows, i, i + 1);
    assert rows[i + 1..i + 1] == [];
    assert head + [] == head;
  }

  /** Regrouping a concatenation of three point lists; kept apart to keep the proof below cheap. */
  lemma ConcatAssoc(a: seq<Point>, b: seq<Point>, c: seq<Point>)
    ensures a + b + c == a + (b + c)
  {
  }

  /**
   * With a sink that never throws, a run emits exactly the points of the kept rows it
   * read, in order, whatever ids it fails to resolve on the way.
   */
  lemma {:induction false} ProcessRowsCalmEmits(cfg: Config, rows: seq<Row>, i: nat, w: World, unresolved: bool)
    requires i <= |rows| && NoneTrue(w.sinkThrows)
    ensures var p := ProcessRows(cfg, rows, i, w, unresolved);
      !p.end.SinkThrew? && i <= Consumed(rows, p) <= |rows| &&
      p.w.calls == w.calls + Emission(cfg.filterOn, cfg.typeFilter, rows[i..Consumed(rows, p)])
    decreases |rows| - i
  {
    var p := ProcessRows(cfg, rows, i, w, unresolved);
    ProcessRowsRest(cfg, rows, i, w, unresolved);
    if i == |rows| || PastBoundary(cfg, rows[i].baseTime) {
      assert rows[i..Consumed(rows, p)] == [];
      assert w.calls + [] == w.calls;
    } else {
      ProcessRowPushes(cfg, rows[i], w, unresolved);
      var x := ProcessRow(cfg, rows[i], w, unresolved);
      if Head(x.w.fullReplies) {
        ProcessRowsCalmLast(cfg, rows, i, w, unresolved);
      } else {
        var w2 := x.w.(fullReplies := Tail(x.w.fullReplies));
        ProcessRowsUnfold(cfg, rows, i, w, unresolved);
        ProcessRowsCalmEmits(cfg, rows, i + 1, w2, x.unresolved);
        var k := Consumed(rows, p);
        EmissionCons(cfg.filterOn, cfg.typeFilter, rows, i, k);
        ConcatAssoc(w.calls, RowPoints(cfg.filterOn, cfg.typeFilter, rows[i]), Emission(cfg.filterOn, cfg.typeFilter, rows[i + 1..k]));
      }
    }
  }

  /** The world a step runs from, as if `rows` were still pending ahead of the cursor. */
  function Ahead(w: World, rows: seq<Row>): World {
    w.(buffer := rows)
  }

  /** What a run of rows leaves pending in the buffer. */
  function Leftover(p: Pass): seq<Row> {
    if p.end.Paused? then p.end.rest else []
  }

  /** A run of rows in a calm world is one calm step from the world with those rows pending. */
  lemma RunCalmPass(cfg: Config, rows: seq<Row>, w: World)
    requires NoneTrue(w.errorReplies) && NoneTrue(w.sinkThrows) && Resolvable(cfg, rows)
    ensures var p := ProcessRows(cfg, rows, 0, w, false);
      !p.unresolved && !p.end.SinkThrew? && CalmStep(cfg, Ahead(w, rows), Ahead(p.w, Leftover(p)))
  {
    var p := ProcessRows(cfg, rows, 0, w, false);
    assert rows[0..] == rows;
    ProcessRowsCalmFlags(cfg, rows, 0, w);
    ProcessRowsCalmEmits(cfg, rows, 0, w, false);
    ProcessRowsRest(cfg, rows, 0, w, false);
    if NoneTrue(w.fullReplies) { ProcessRowsNeverFull(cfg, rows, 0, w, false); }
    var k := Consumed(rows, p);
    assert Leftover(p) == rows[k..];
    AdvancesByRun(cfg, rows, BatchRows(w.fetches), k, w.calls, p.w.calls);
  }

  lemma AdvancesByRun(cfg: Config, rows: seq<Row>, rest: seq<Row>, k: nat, c: seq<Point>, c2: seq<Point>)
    requires k <= |rows| && c2 == c + Emission(cfg.filterOn, cfg.typeFilter, rows[0..k])
    ensures Advances(cfg, rows + rest, rows[k..] + rest, c, c2)
  {
    var P := rows + rest;
    assert rows[0..k] == P[..k];
    assert rows[k..] + rest == P[k..];
  }

  /**
   * A run of rows, settled, in a calm world entered with an empty buffer: it pauses or
   * goes on, and either way is one calm step from the world with those rows pending.
   */
  lemma RunCalm(cfg: Config, rows: seq<Row>, w: World)
    requires w.buffer == [] && NoneTrue(w.errorReplies) && NoneTrue(w.sinkThrows) && Resolvable(cfg, rows)
    ensures var s := Settle(cfg, ProcessRows(cfg, rows, 0, w, false));
      (s.Stop? ==> (s.o.exit == PausedFull || s.o.exit == PausedAtBoundary) && CalmStep(cfg, Ahead(w, rows), s.o.w)) &&
      (s.Go? ==> s.w.buffer == [] && CalmStep(cfg, Ahead(w, rows), s.w)) &&
      (NoneTrue(w.fullReplies) && cfg.sequenceEnd.None? ==> s.Go?)
  {
    var p := ProcessRows(cfg, rows, 0, w, false);
    RunCalmPass(cfg, rows, w);
    if NoneTrue(w.fullReplies) { assert rows[0..] == rows; ProcessRowsNeverFull(cfg, rows, 0, w, false); }
    if cfg.filterOn { TailNoneTrue(p.w.errorReplies); }
  }

  lemma ReadBatchCalm(cfg: Config, rows: seq<Row>, w: World)
    requires w.buffer == [] && NoneTrue(w.errorReplies) && NoneTrue(w.sinkThrows) && Resolvable(cfg, rows)
    ensures var s := ReadBatch(cfg, rows, w);
      (s.Stop? ==> (s.o.exit == PausedFull || s.o.exit == PausedAtBoundary) && CalmStep(cfg, Ahead(w, rows), s.o.w)) &&
      (s.Go? ==> s.w.buffer == [] && CalmStep(cfg, Ahead(w, rows), s.w)) &&
      (NoneTrue(w.fullReplies) && cfg.sequenceEnd.None? ==> s.Go?)
  {
    TailNoneTrue(w.errorReplies);
    var w1 := if cfg.filterOn then w else w.(errorReplies := Tail(w.errorReplies));
    RunCalm(cfg, rows, w1);
    assert Pending(Ahead(w1, rows)) == Pending(Ahead(w, rows));
  }

  lemma PendingOfFreshBatch(w: World)
    requires w.buffer == [] && w.fetches != [] && w.fetches[0].Batch?
    ensures Pending(w) == w.fetches[0].rows + BatchRows(w.fetches[1..])
  {
    assert [] + BatchRows(w.fetches) == BatchRows(w.fetches);
  }

  lemma ResolvablePrefix(cfg: Config, rows: seq<Row>, rest: seq<Row>)
    requires Resolvable(cfg, rows + rest)
    ensures Resolvable(cfg, rows)
  {
    if cfg.filterOn && !cfg.skipNsui {
      forall j | 0 <= j < |rows| ensures rows[j].verdict != Unresolved { assert rows[j] == (rows + rest)[j]; }
    }
  }

  /** The first batch of the fetch loop, in a calm world entered with an empty buffer. */
  lemma ScanLoopCalmBatch(cfg: Config, w: World)
    requires Calm(cfg, w) && w.buffer == [] && w.fetches != []
    ensures var w2 := w.(nextRowsCalls := w.nextRowsCalls + 1, fetches := w.fetches[1..]);
      var s := ReadBatch(cfg, w.fetches[0].rows, w2);
      (s.Stop? ==> (s.o.exit == PausedFull || s.o.exit == PausedAtBoundary) && CalmStep(cfg, w, s.o.w)) &&
      (s.Go? ==> s.w.buffer == [] && CalmStep(cfg, w, s.w) && Calm(cfg, s.w) && |s.w.fetches| < |w.fetches|) &&
      (NoneTrue(w.fullReplies) && cfg.sequenceEnd.None? ==> s.Go?)
  {
    var rows := w.fetches[0].rows;
    var w2 := w.(nextRowsCalls := w.nextRowsCalls + 1, fetches := w.fetches[1..]);
    PendingOfFreshBatch(w);
    ResolvablePrefix(cfg, rows, BatchRows(w.fetches[1..]));
    ReadBatchCalm(cfg, rows, w2);
    CalmStepStill(cfg, w, Ahead(w2, rows));
    var s := ReadBatch(cfg, rows, w2);
    if s.Stop? {
      CalmStepTransitive(cfg, w, Ahead(w2, rows), s.o.w);
    } else {
      CalmStepTransitive(cfg, w, Ahead(w2, rows), s.w);
      CalmStepKeepsCalm(cfg, w, s.w);
    }
  }

  /** An exhausted cursor completes the loop with nothing consumed. */
  lemma ScanLoopCalmExhausted(cfg: Config, w: World)
    requires Calm(cfg, w) && w.buffer == [] && w.fetches == []
    ensures var o := ScanLoop(cfg, w);
      o.exit == Exhausted && CalmStep(cfg, w, o.w) && Pending(o.w) == []
  {
    var o := ScanLoop(cfg, w);
    assert o.w.buffer == [] && o.w.fetches == [] && o.w.calls == w.calls;
    CalmStepStill(cfg, w, o.w);
  }

  /** The fetch loop, in a calm world entered with an empty buffer, only advances. */
  lemma {:induction false} ScanLoopCalm(cfg: Config, w: World)
    requires Calm(cfg, w) && w.buffer == []
    ensures var o := ScanLoop(cfg, w);
      (o.exit == PausedFull || o.exit == PausedAtBoundary || o.exit == Exhausted) &&
      CalmStep(cfg, w, o.w) && (o.exit == Exhausted ==> Pending(o.w) == []) &&
      (NoneTrue(w.fullReplies) && cfg.sequenceEnd.None? ==> o.exit == Exhausted)
    decreases |w.fetches|
  {
    var o := ScanLoop(cfg, w);
    if w.fetches == [] {
      ScanLoopCalmExhausted(cfg, w);
    } else {
      var w2 := w.(nextRowsCalls := w.nextRowsCalls + 1, fetches := w.fetches[1..]);
      var s := ReadBatch(cfg, w.fetches[0].rows, w2);
      ScanLoopCalmBatch(cfg, w);
      if s.Go? {
        assert o == ScanLoop(cfg, s.w);
        ScanLoopCalm(cfg, s.w);
        CalmStepTransitive(cfg, w, s.w, o.w);
      } else {
        assert o == s.o;
      }
    }
  }

  /**
   * Conservation across pauses: in a calm world one `fetchNext` emits exactly the points
   * of a prefix of the rows still pending (the buffer first, then the cursor's batches)
   * and leaves the rest pending, in order; so a pause for fullness or for the sequence
   * end loses no row and repeats none, and a completed scan has nothing left pending.
   */
  lemma FetchNextAdvances(cfg: Config, w: World)
    requires Calm(cfg, w)
    ensures var o := FetchNext(cfg, w);
      o.exit != PeerError && !o.exit.Failed? &&
      CalmStep(cfg, w, o.w) && Calm(cfg, o.w) &&
      (o.exit == Exhausted ==> Pending(o.w) == []) &&
      (NoneTrue(w.fullReplies) && cfg.sequenceEnd.None? && w.state != Complete && w.state != Exception ==>
         o.exit == Exhausted)
  {
    var o := FetchNext(cfg, w);
    TailNoneTrue(w.errorReplies);
    if NoneTrue(w.fullReplies) { TailNoneTrue(w.fullReplies); }
    if w.state == Complete || w.state == Exception || Head(w.fullReplies) {
      CalmStepStill(cfg, w, o.w);
    } else {
      var e := Entered(w);
      CalmStepStill(cfg, w, Ahead(e, w.buffer));
      if w.buffer == [] {
        CalmStepKeepsCalm(cfg, w, e);
        ScanLoopCalm(cfg, e);
        CalmStepTransitive(cfg, w, e, o.w);
      } else {
        ResolvablePrefix(cfg, w.buffer, BatchRows(w.fetches));
        RunCalm(cfg, w.buffer, e);
        var s := Replay(cfg, w);
        if s.Stop? {
          CalmStepTransitive(cfg, w, Ahead(e, w.buffer), o.w);
        } else {
          CalmStepTransitive(cfg, w, Ahead(e, w.buffer), s.w);
          CalmStepKeepsCalm(cfg, w, s.w);
          ScanLoopCalm(cfg, s.w);
          CalmStepTransitive(cfg, w, s.w, o.w);
        }
      }
    }
    CalmStepKeepsCalm(cfg, w, o.w);
  }

  /**
   * An uninterrupted scan (nothing fails, the owner is never full, no sequence end):
   * one `addData` per data point of every row the filter keeps, in order; the cursor is
   * closed once, `scannerDone` called once, `exception` never; COMPLETE with no buffer.
   */
  lemma UninterruptedScan(cfg: Config, w: World)
    requires Calm(cfg, w) && NoneTrue(w.fullReplies) && cfg.sequenceEnd.None?
    requires w.state != Complete && w.state != Exception
    ensures var o := FetchNext(cfg, w);
      o.exit == Exhausted && Completed(w, o) &&
      o.w.calls == w.calls + Emission(cfg.filterOn, cfg.typeFilter, Pending(w))
  {
    FetchNextAdvances(cfg, w);
    FetchNextSignals(cfg, w);
    var P := Pending(w);
    assert P[..|P|] == P;
  }

  /** Two stretches that together consume everything pending emit everything pending. */
  lemma AdvancesToEnd(cfg: Config, P: seq<Row>, P1: seq<Row>, c: seq<Point>, c1: seq<Point>, c2: seq<Point>)
    requires Advances(cfg, P, P1, c, c1)
    requires c2 == c1 + Emission(cfg.filterOn, cfg.typeFilter, P1)
    ensures c2 == c + Emission(cfg.filterOn, cfg.typeFilter, P)
  {
    var n := |P| - |P1|;
    SplitAt(P, n);
    EmissionAppend(cfg.filterOn, cfg.typeFilter, P[..n], P1);
    ConcatAssoc(c, Emission(cfg.filterOn, cfg.typeFilter, P[..n]), Emission(cfg.filterOn, cfg.typeFilter, P1));
  }

  lemma SplitAt(P: seq<Row>, n: nat)
    requires n <= |P|
    ensures P[..n] + P[n..] == P
  {
  }

  /**
   * Resumption at a sequence end: a call paused at a boundary followed by a call without
   * one emits, in all, exactly what a single uninterrupted call emits.
   */
  lemma ResumedScanMatchesUninterrupted(cfg: Config, end: int, w: World)
    requires Calm(cfg, w) && NoneTrue(w.fullReplies) && cfg.sequenceEnd.None?
    requires w.state != Complete && w.state != Exception
    ensures var o1 := FetchNext(cfg.(sequenceEnd := Some(end)), w);
      var o2 := FetchNext(cfg, o1.w);
      o2.w.calls == FetchNext(cfg, w).w.calls && o2.w.state == Complete
  {
    var bcfg := cfg.(sequenceEnd := Some(end));
    var o1 := FetchNext(bcfg, w);
    FetchNextAdvances(bcfg, w);
    FetchNextSignals(bcfg, w);
    UninterruptedScan(cfg, w);
    CalmUnderAnyEnd(cfg, Some(end), w, o1.w);
    if o1.exit == Exhausted {
      assert Pending(w)[..|Pending(w)|] == Pending(w);
    } else {
      UninterruptedScan(cfg, o1.w);
      AdvancesToEnd(cfg, Pending(w), Pending(o1.w), w.calls, o1.w.calls, FetchNext(cfg, o1.w).w.calls);
    }
  }

  /** Calm steps and calm worlds do not depend on the sequence end. */
  lemma CalmUnderAnyEnd(cfg: Config, end: Option<int>, w: World, w2: World)
    requires CalmStep(cfg.(sequenceEnd := end), w, w2) && Calm(cfg.(sequenceEnd := end), w2)
    ensures CalmStep(cfg, w, w2) && Calm(cfg, w2)
  {
  }

  // ---------------------------------------------------------------------------------
  // The sequence end.
  // ---------------------------------------------------------------------------------

  /** None of these points lies beyond the sequence end. */
  predicate Within(cfg: Config, pts: seq<Point>) {
    forall k :: 0 <= k < |pts| ==> !PastBoundary(cfg, pts[k].baseTime)
  }

  /** The calls made from w to w2 extend w's and are all within the sequence end. */
  predicate EmittedWithin(cfg: Config, w: World, w2: World) {
    |w.calls| <= |w2.calls| && w2.calls[..|w.calls|] == w.calls && Within(cfg, w2.calls[|w.calls|..])
  }

  lemma EmittedWithinStill(cfg: Config, w: World, w2: World)
    requires w2.calls == w.calls
    ensures EmittedWithin(cfg, w, w2)
  {
    assert w.calls[|w.calls|..] == [];
  }

  lemma EmittedWithinTransitive(cfg: Config, w: World, w1: World, w2: World)
    requires EmittedWithin(cfg, w, w1) && EmittedWithin(cfg, w1, w2)
    ensures EmittedWithin(cfg, w, w2)
  {
    forall k | 0 <= k < |w2.calls| - |w.calls| ensures !PastBoundary(cfg, w2.calls[|w.calls|..][k].baseTime) {
      var j := |w.calls| + k;
      if j < |w1.calls| {
        assert w2.calls[|w.calls|..][k] == w1.calls[|w.calls|..][k];
      } else {
        assert w2.calls[|w.calls|..][k] == w2.calls[|w1.calls|..][j - |w1.calls|];
      }
    }
  }

  /** A kept row that lies within the sequence end emits only points within it. */
  lemma ProcessRowWithin(cfg: Config, r: Row, w: World, unresolved: bool)
    requires !PastBoundary(cfg, r.baseTime)
    ensures EmittedWithin(cfg, w, ProcessRow(cfg, r, w, unresolved).w)
  {
    var s := Screen(cfg, r, w, unresolved);
    if s.accept {
      var pts := Decode(r, cfg.typeFilter);
      DecodeStampsRow(r, cfg.typeFilter);
      var e := EmitPoints(pts, s.w);
      forall k | 0 <= k < |e.1.calls| - |w.calls| ensures !PastBoundary(cfg, e.1.calls[|w.calls|..][k].baseTime) {
        assert e.1.calls[|w.calls|..][k] == pts[k];
        assert pts[k] in pts;
      }
    } else {
      EmittedWithinStill(cfg, w, s.w);
    }
  }

  /**
   * A run of rows emits only points of rows within the sequence end, and a run paused at
   * the boundary leaves a first buffered row that lies beyond it.
   */
  lemma {:induction false} ProcessRowsWithin(cfg: Config, rows: seq<Row>, i: nat, w: World, unresolved: bool)
    requires i <= |rows|
    ensures var p := ProcessRows(cfg, rows, i, w, unresolved);
      EmittedWithin(cfg, w, p.w) &&
      (p.end.Paused? && p.end.atBoundary ==> |p.end.rest| > 0 && PastBoundary(cfg, p.end.rest[0].baseTime))
    decreases |rows| - i
  {
    if i < |rows| && !PastBoundary(cfg, rows[i].baseTime) {
      var x := ProcessRow(cfg, rows[i], w, unresolved);
      ProcessRowWithin(cfg, rows[i], w, unresolved);
      var w2 := x.w.(fullReplies := Tail(x.w.fullReplies));
      if x.pushed && !Head(x.w.fullReplies) {
        ProcessRowsWithin(cfg, rows, i + 1, w2, x.unresolved);
        EmittedWithinTransitive(cfg, w, w2, ProcessRows(cfg, rows, i + 1, w2, x.unresolved).w);
      }
    } else {
      EmittedWithinStill(cfg, w, w);
    }
  }

  lemma ReadBatchWithin(cfg: Config, rows: seq<Row>, w: World)
    ensures var s := ReadBatch(cfg, rows, w);
      EmittedWithin(cfg, w, StepWorld(s)) &&
      (s.Stop? && s.o.exit == PausedAtBoundary ==> |s.o.w.buffer| > 0 && PastBoundary(cfg, s.o.w.buffer[0].baseTime))
  {
    if !cfg.filterOn && Head(w.errorReplies) {
      EmittedWithinStill(cfg, w, StepWorld(ReadBatch(cfg, rows, w)));
    } else {
      var w1 := if cfg.filterOn then w else w.(errorReplies := Tail(w.errorReplies));
      ProcessRowsWithin(cfg, rows, 0, w1, false);
    }
  }

  lemma {:induction false} ScanLoopWithin(cfg: Config, w: World)
    ensures var o := ScanLoop(cfg, w);
      EmittedWithin(cfg, w, o.w) &&
      (o.exit == PausedAtBoundary ==> |o.w.buffer| > 0 && PastBoundary(cfg, o.w.buffer[0].baseTime))
    decreases |w.fetches|
  {
    var o := ScanLoop(cfg, w);
    if w.fetches != [] && w.fetches[0].Batch? {
      var w2 := w.(nextRowsCalls := w.nextRowsCalls + 1, fetches := w.fetches[1..]);
      var s := ReadBatch(cfg, w.fetches[0].rows, w2);
      ReadBatchWithin(cfg, w.fetches[0].rows, w2);
      assert w2.calls == w.calls;
      if s.Go? {
        assert o == ScanLoop(cfg, s.w);
        ScanLoopWithin(cfg, s.w);
        EmittedWithinTransitive(cfg, w, s.w, o.w);
      } else {
        assert o == s.o;
      }
    } else {
      assert o.w.calls == w.calls && o.exit != PausedAtBoundary;
      EmittedWithinStill(cfg, w, o.w);
    }
  }

  /**
   * With a sequence end set, no point handed to the sink in a call lies beyond it
   * (after it on a forward scan, before it on a reverse one); a call that pauses at
   * the boundary buffers, first, the row that crossed it.
   */
  lemma FetchNextWithinBoundary(cfg: Config, w: World)
    ensures var o := FetchNext(cfg, w);
      EmittedWithin(cfg, w, o.w) &&
      (o.exit == PausedAtBoundary ==> |o.w.buffer| > 0 && PastBoundary(cfg, o.w.buffer[0].baseTime))
  {
    var o := FetchNext(cfg, w);
    if w.state == Complete || w.state == Exception || Head(w.errorReplies) || Head(w.fullReplies) {
      EmittedWithinStill(cfg, w, o.w);
    } else if w.buffer == [] {
      ScanLoopWithin(cfg, Entered(w));
    } else {
      var s := Replay(cfg, w);
      ProcessRowsWithin(cfg, w.buffer, 0, Entered(w), false);
      if s.Go? {
        ScanLoopWithin(cfg, s.w);
        EmittedWithinTransitive(cfg, w, s.w, o.w);
      }
    }
  }

  /**
   * When replaying the pending buffer alone reaches a stop, `fetchNext` issues no
   * `nextRows` and buffers the unread tail of the old buffer.
   */
  lemma BufferStopFetchesNothing(cfg: Config, w: World)
    requires w.state != Complete && w.state != Exception && !Head(w.errorReplies) && !Head(w.fullReplies)
    requires w.buffer != []
    requires var p := ProcessRows(cfg, w.buffer, 0, Entered(w), false); p.end.Paused? && !p.unresolved
    ensures var o := FetchNext(cfg, w);
      o.w.nextRowsCalls == w.nextRowsCalls && o.w.fetches == w.fetches &&
      |o.w.buffer| <= |w.buffer| && o.w.buffer == w.buffer[|w.buffer| - |o.w.buffer|..]
  {
    ProcessRowsRest(cfg, w.buffer, 0, Entered(w), false);
  }

  // ---------------------------------------------------------------------------------
  // Unresolved ids.
  // ---------------------------------------------------------------------------------

  lemma {:induction false} ProcessRowsNeverUnresolved(cfg: Config, rows: seq<Row>, i: nat, w: World)
    requires i <= |rows|
    requires !cfg.filterOn || cfg.skipNsui
    ensures !ProcessRows(cfg, rows, i, w, false).unresolved
    decreases |rows| - i
  {
    if i < |rows| && !PastBoundary(cfg, rows[i].baseTime) {
      var x := ProcessRow(cfg, rows[i], w, false);
      ProcessRowsNeverUnresolved(cfg, rows, i + 1, x.w.(fullReplies := Tail(x.w.fullReplies)));
    }
  }

  lemma ReadBatchNeverUnresolved(cfg: Config, rows: seq<Row>, w: World)
    requires !cfg.filterOn || cfg.skipNsui
    ensures ReadBatch(cfg, rows, w).Stop? ==> ReadBatch(cfg, rows, w).o.exit != Failed(UnresolvedId)
  {
    var w1 := if cfg.filterOn then w else w.(errorReplies := Tail(w.errorReplies));
    ProcessRowsNeverUnresolved(cfg, rows, 0, w1);
  }

  lemma {:induction false} ScanLoopNeverUnresolved(cfg: Config, w: World)
    requires !cfg.filterOn || cfg.skipNsui
    ensures ScanLoop(cfg, w).exit != Failed(UnresolvedId)
    decreases |w.fetches|
  {
    if w.fetches != [] && w.fetches[0].Batch? {
      var w2 := w.(nextRowsCalls := w.nextRowsCalls + 1, fetches := w.fetches[1..]);
      var s := ReadBatch(cfg, w.fetches[0].rows, w2);
      ReadBatchNeverUnresolved(cfg, w.fetches[0].rows, w2);
      if s.Go? {
        ScanLoopNeverUnresolved(cfg, s.w);
      }
    }
  }

  /** With `skip_nsui` on (or no filter at all), an unresolved id never fails a call. */
  lemma SkipNsuiNeverFailsOnUnresolved(cfg: Config, w: World)
    requires !cfg.filterOn || cfg.skipNsui
    ensures FetchNext(cfg, w).exit != Failed(UnresolvedId)
  {
    if w.state != Complete && w.state != Exception && !Head(w.errorReplies) && !Head(w.fullReplies) {
      if w.buffer == [] {
        ScanLoopNeverUnresolved(cfg, Entered(w));
      } else {
        ProcessRowsNeverUnresolved(cfg, w.buffer, 0, Entered(w));
        if Replay(cfg, w).Go? {
          ScanLoopNeverUnresolved(cfg, Replay(cfg, w).w);
        }
      }
    }
  }

  lemma {:induction false} ProcessRowsKeepsUnresolved(cfg: Config, rows: seq<Row>, i: nat, w: World)
    requires i <= |rows|
    ensures ProcessRows(cfg, rows, i, w, true).unresolved
    decreases |rows| - i
  {
    if i < |rows| && !PastBoundary(cfg, rows[i].baseTime) {
      var x := ProcessRow(cfg, rows[i], w, true);
      ProcessRowsKeepsUnresolved(cfg, rows, i + 1, x.w.(fullReplies := Tail(x.w.fullReplies)));
    }
  }

  /**
   * With a filter and `skip_nsui` off, a run that reads a row with an unresolved id is
   * marked failed, whether it is drained or pauses after that row.
   */
  lemma {:induction false} ProcessRowsMeetsUnresolved(cfg: Config, rows: seq<Row>, i: nat, j: nat, w: World, unresolved: bool)
    requires i <= j < |rows|
    requires cfg.filterOn && !cfg.skipNsui && rows[j].verdict == Unresolved
    ensures var p := ProcessRows(cfg, rows, i, w, unresolved);
      p.end.Drained? || (p.end.Paused? && j < |rows| - |p.end.rest|) ==> p.unresolved
    decreases |rows| - i
  {
    ProcessRowsRest(cfg, rows, i, w, unresolved);
    if !PastBoundary(cfg, rows[i].baseTime) {
      var x := ProcessRow(cfg, rows[i], w, unresolved);
      var w2 := x.w.(fullReplies := Tail(x.w.fullReplies));
      if i < j {
        ProcessRowsMeetsUnresolved(cfg, rows, i + 1, j, w2, x.unresolved);
      } else {
        ProcessRowsKeepsUnresolved(cfg, rows, i + 1, w2);
      }
    }
  }

  /**
   * With a filter and `skip_nsui` off, a run that reads a row with an unresolved id fails
   * the call once it stops, drained or paused: cursor closed, `exception` reported,
   * EXCEPTION. The kept rows it read, those after the unresolved one included, have still
   * been pushed to a sink that does not throw.
   */
  lemma UnresolvedIdFailsRun(cfg: Config, rows: seq<Row>, j: nat, w: World)
    requires j < |rows| && cfg.filterOn && !cfg.skipNsui && rows[j].verdict == Unresolved
    requires var p := ProcessRows(cfg, rows, 0, w, false);
      !p.end.SinkThrew? && (p.end.Paused? ==> j < |rows| - |p.end.rest|)
    ensures var p := ProcessRows(cfg, rows, 0, w, false);
      Settle(cfg, p) == Stop(Fail(p.w, UnresolvedId))
    ensures var p := ProcessRows(cfg, rows, 0, w, false);
      NoneTrue(w.sinkThrows) ==>
        p.w.calls == w.calls + Emission(cfg.filterOn, cfg.typeFilter, rows[..Consumed(rows, p)])
  {
    ProcessRowsMeetsUnresolved(cfg, rows, 0, j, w, false);
    if NoneTrue(w.sinkThrows) {
      ProcessRowsCalmEmits(cfg, rows, 0, w, false);
      assert rows[0..Consumed(rows, ProcessRows(cfg, rows, 0, w, false))] == rows[..Consumed(rows, ProcessRows(cfg, rows, 0, w, false))];
    }
  }

  // ----- Where a pause leaves the scan -----

  /** The buffered rows are the last rows of a batch, in order. */
  predicate SuffixOf(buffer: seq<Row>, rows: seq<Row>) {
    |buffer| <= |rows| && buffer == rows[|rows| - |buffer|..]
  }

  /** The owner is asked whether it is full only after a row, so a full pause has read at least one. */
  lemma {:induction false} ProcessRowsFullReadsRow(cfg: Config, rows: seq<Row>, i: nat, w: World, unresolved: bool)
    requires i <= |rows|
    ensures var p := ProcessRows(cfg, rows, i, w, unresolved);
      p.end.Paused? && !p.end.atBoundary ==> |p.end.rest| < |rows| - i
    decreases |rows| - i
  {
    if i < |rows| && !PastBoundary(cfg, rows[i].baseTime) {
      var x := ProcessRow(cfg, rows[i], w, unresolved);
      if x.pushed && !Head(x.w.fullReplies) {
        ProcessRowsFullReadsRow(cfg, rows, i + 1, x.w.(fullReplies := Tail(x.w.fullReplies)), x.unresolved);
      }
    }
  }

  /** A settled run leaves the cursor alone; a pause buffers exactly the rows the run left. */
  lemma SettlePause(cfg: Config, p: Pass)
    ensures var s := Settle(cfg, p);
      StepWorld(s).fetches == p.w.fetches && StepWorld(s).nextRowsCalls == p.w.nextRowsCalls
    ensures var s := Settle(cfg, p);
      s.Stop? && (s.o.exit == PausedFull || s.o.exit == PausedAtBoundary) ==>
        p.end.Paused? && s.o.w.buffer == p.end.rest && (s.o.exit == PausedFull <==> !p.end.atBoundary)
  {
  }

  /**
   * A batch that pauses the call leaves the unread rows of that batch in the buffer, in
   * order; a full owner has taken at least one of them. A batch either way leaves the
   * cursor untouched.
   */
  lemma ReadBatchPause(cfg: Config, rows: seq<Row>, w: World)
    ensures var s := ReadBatch(cfg, rows, w);
      StepWorld(s).fetches == w.fetches && StepWorld(s).nextRowsCalls == w.nextRowsCalls
    ensures var s := ReadBatch(cfg, rows, w);
      s.Stop? && (s.o.exit == PausedFull || s.o.exit == PausedAtBoundary) ==>
        SuffixOf(s.o.w.buffer, rows) && (s.o.exit == PausedFull ==> |s.o.w.buffer| < |rows|)
  {
    if cfg.filterOn || !Head(w.errorReplies) {
      var w1 := if cfg.filterOn then w else w.(errorReplies := Tail(w.errorReplies));
      var p := ProcessRows(cfg, rows, 0, w1, false);
      ProcessRowsRest(cfg, rows, 0, w1, false);
      ProcessRowsFullReadsRow(cfg, rows, 0, w1, false);
      SettlePause(cfg, p);
    }
  }

  /**
   * The shape of a paused call: it issued one `nextRows()` per batch consumed and no
   * more; the last batch it read is the one whose unread rows are buffered, and on a full
   * owner the buffer is shorter than that batch. `ScanLoopFullAtRow` pins the buffer to
   * the rows after the one whose push the owner answered full, so it is empty when that
   * row ends the batch.
   */
  predicate PausedAfterBatch(w: World, o: Outcome) {
    var k := |w.fetches| - |o.w.fetches|;
    1 <= k <= |w.fetches| && o.w.fetches == w.fetches[k..] &&
    o.w.nextRowsCalls == w.nextRowsCalls + k && w.fetches[k - 1].Batch? &&
    SuffixOf(o.w.buffer, w.fetches[k - 1].rows) &&
    (o.exit == PausedFull ==> |o.w.buffer| < |w.fetches[k - 1].rows|)
  }

  lemma PausedAfterBatchShift(w: World, w3: World, o: Outcome)
    requires w.fetches != [] && w3.fetches == w.fetches[1..] && w3.nextRowsCalls == w.nextRowsCalls + 1
    requires PausedAfterBatch(w3, o)
    ensures PausedAfterBatch(w, o)
  {
    var k := |w3.fetches| - |o.w.fetches|;
    assert w.fetches[1..][k..] == w.fetches[k + 1..];
    assert w.fetches[1..][k - 1] == w.fetches[k];
  }

  lemma PausedAfterFirstBatch(w: World, rows: seq<Row>, o: Outcome)
    requires w.fetches != [] && w.fetches[0] == Batch(rows)
    requires o.w.fetches == w.fetches[1..] && o.w.nextRowsCalls == w.nextRowsCalls + 1
    requires SuffixOf(o.w.buffer, rows) && (o.exit == PausedFull ==> |o.w.buffer| < |rows|)
    ensures PausedAfterBatch(w, o)
  {
  }

  /** A call that paused has the shape above. */
  predicate PauseShaped(w: World, o: Outcome) {
    (o.exit == PausedFull || o.exit == PausedAtBoundary) ==> PausedAfterBatch(w, o)
  }

  lemma PausedAfterStep(w: World, rows: seq<Row>, w2: World, s: Step, o: Outcome)
    requires w.fetches != [] && w.fetches[0] == Batch(rows)
    requires w2.fetches == w.fetches[1..] && w2.nextRowsCalls == w.nextRowsCalls + 1
    requires StepWorld(s).fetches == w2.fetches && StepWorld(s).nextRowsCalls == w2.nextRowsCalls
    requires s.Stop? && (s.o.exit == PausedFull || s.o.exit == PausedAtBoundary) ==>
      SuffixOf(s.o.w.buffer, rows) && (s.o.exit == PausedFull ==> |s.o.w.buffer| < |rows|)
    requires s.Stop? ==> o == s.o
    requires s.Go? ==> PauseShaped(s.w, o)
    ensures PauseShaped(w, o)
  {
    if o.exit == PausedFull || o.exit == PausedAtBoundary {
      if s.Go? {
        PausedAfterBatchShift(w, s.w, o);
      } else {
        PausedAfterFirstBatch(w, rows, o);
      }
    }
  }

  /** When the fetch loop pauses, it has the shape above. */
  lemma {:induction false} ScanLoopPause(cfg: Config, w: World)
    ensures PauseShaped(w, ScanLoop(cfg, w))
    decreases |w.fetches|
  {
    if w.fetches != [] && w.fetches[0].Batch? {
      var rows := w.fetches[0].rows;
      var w2 := w.(nextRowsCalls := w.nextRowsCalls + 1, fetches := w.fetches[1..]);
      var s := ReadBatch(cfg, rows, w2);
      ReadBatchPause(cfg, rows, w2);
      if s.Go? {
        ScanLoopPause(cfg, s.w);
      }
      PausedAfterStep(w, rows, w2, s, ScanLoop(cfg, w));
    }
  }

  /** The same, for a call that starts with an empty buffer and passes both entry checks. */
  lemma FetchNextPause(cfg: Config, w: World)
    requires w.state != Complete && w.state != Exception && !Head(w.errorReplies) && !Head(w.fullReplies)
    requires w.buffer == []
    ensures var o := FetchNext(cfg, w);
      (o.exit == PausedFull || o.exit == PausedAtBoundary) ==>
        PausedAfterBatch(w, o) && o.w.closeCalls == w.closeCalls && o.w.state == Continue
  {
    var e := Entered(w);
    var o := ScanLoop(cfg, e);
    assert FetchNext(cfg, w) == o;
    ScanLoopPause(cfg, e);
    ScanLoopSignals(cfg, e);
    PausedAfterSameCursor(w, e, o);
  }

  /** The shape above depends only on the cursor's side of the world. */
  lemma PausedAfterSameCursor(w: World, e: World, o: Outcome)
    requires e.fetches == w.fetches && e.nextRowsCalls == w.nextRowsCalls && e.closeCalls == w.closeCalls
    requires PauseShaped(e, o)
    ensures PauseShaped(w, o)
  {
  }

  // ----- The row after which the owner turns full -----

  /** The first true reply of a script is its `n`-th. */
  predicate FirstTrueAt(s: seq<bool>, n: nat) {
    n < |s| && s[n] && forall m :: 0 <= m < n ==> !s[m]
  }

  lemma FirstTrueAtTail(s: seq<bool>, n: nat)
    requires n > 0 && FirstTrueAt(s, n)
    ensures !Head(s) && FirstTrueAt(Tail(s), n - 1)
  {
    forall m | 0 <= m < n - 1 ensures !Tail(s)[m] {
      assert Tail(s)[m] == s[m + 1];
    }
  }

  /**
   * With a sink that never throws and no row up to `j` beyond the sequence end, a run
   * whose fullness replies first answer true after row `j` pauses right there, buffering
   * exactly the rows after `j`.
   */
  lemma {:induction false} FullAtRow(cfg: Config, rows: seq<Row>, i: nat, j: nat, w: World, unresolved: bool)
    requires i <= j < |rows| && NoneTrue(w.sinkThrows)
    requires forall m :: i <= m <= j ==> !PastBoundary(cfg, rows[m].baseTime)
    requires FirstTrueAt(w.fullReplies, j - i)
    ensures ProcessRows(cfg, rows, i, w, unresolved).end == RowsEnd.Paused(rows[j + 1..], false)
    decreases j - i
  {
    ProcessRowPushes(cfg, rows[i], w, unresolved);
    var x := ProcessRow(cfg, rows[i], w, unresolved);
    if i < j {
      FirstTrueAtTail(w.fullReplies, j - i);
      FullAtRow(cfg, rows, i + 1, j, x.w.(fullReplies := Tail(x.w.fullReplies)), x.unresolved);
    }
  }

  /**
   * When the first batch of the fetch loop turns the owner full after row `j`, the call
   * pauses having issued exactly one `nextRows()`, with the rows after `j` buffered and
   * the cursor open; fullness with the batch's last row leaves the buffer null.
   */
  lemma ScanLoopFullAtRow(cfg: Config, w: World, j: nat)
    requires w.fetches != [] && w.fetches[0].Batch? && j < |w.fetches[0].rows|
    requires cfg.filterOn || !Head(w.errorReplies)
    requires NoneTrue(w.sinkThrows) && Resolvable(cfg, w.fetches[0].rows)
    requires forall m :: 0 <= m <= j ==> !PastBoundary(cfg, w.fetches[0].rows[m].baseTime)
    requires FirstTrueAt(w.fullReplies, j)
    ensures var o := ScanLoop(cfg, w);
      o.exit == PausedFull && o.w.buffer == w.fetches[0].rows[j + 1..] &&
      o.w.nextRowsCalls == w.nextRowsCalls + 1 && o.w.fetches == w.fetches[1..] &&
      o.w.closeCalls == w.closeCalls && o.w.state == Continue
    ensures j == |w.fetches[0].rows| - 1 ==> ScanLoop(cfg, w).w.buffer == []
  {
    var rows := w.fetches[0].rows;
    var w2 := w.(nextRowsCalls := w.nextRowsCalls + 1, fetches := w.fetches[1..]);
    var w1 := if cfg.filterOn then w2 else w2.(errorReplies := Tail(w2.errorReplies));
    FullAtRow(cfg, rows, 0, j, w1, false);
    assert rows[0..] == rows;
    ProcessRowsCalmFlags(cfg, rows, 0, w1);
    assert ScanLoop(cfg, w) == Pause(ProcessRows(cfg, rows, 0, w1, false).w, rows[j + 1..], false);
  }

  /**
   * The same through `fetchNext`: on a call that passes both entry checks with nothing
   * pending, the fullness reply after row `j` of the first batch is the `j + 1`-th after
   * the entry check's, and the call pauses with the rows after `j` buffered.
   */
  lemma FetchNextFullAtRow(cfg: Config, w: World, j: nat)
    requires w.state != Complete && w.state != Exception && w.buffer == []
    requires !Head(w.errorReplies) && (cfg.filterOn || !Head(Tail(w.errorReplies)))
    requires w.fetches != [] && w.fetches[0].Batch? && j < |w.fetches[0].rows|
    requires NoneTrue(w.sinkThrows) && Resolvable(cfg, w.fetches[0].rows)
    requires forall m :: 0 <= m <= j ==> !PastBoundary(cfg, w.fetches[0].rows[m].baseTime)
    requires FirstTrueAt(w.fullReplies, j + 1)
    ensures var o := FetchNext(cfg, w);
      o.exit == PausedFull && o.w.buffer == w.fetches[0].rows[j + 1..] &&
      o.w.nextRowsCalls == w.nextRowsCalls + 1 && o.w.fetches == w.fetches[1..] &&
      o.w.closeCalls == w.closeCalls && o.w.state == Continue
  {
    FirstTrueAtTail(w.fullReplies, j + 1);
    ScanLoopFullAtRow(cfg, Entered(w), j);
  }

  // ----- Where a throwing sink stops the call -----

  /** The sink took `n` calls from script `s`, leaving `s2`, and accepted every one. */
  predicate SinkTook(s: seq<bool>, n: nat, s2: seq<bool>)
    decreases n
  {
    if n == 0 then s2 == s else !Head(s) && SinkTook(Tail(s), n - 1, s2)
  }

  /** The sink took `n` calls from script `s`, leaving `s2`: it accepted all but the last and threw on that. */
  predicate SinkThrewOnLast(s: seq<bool>, n: nat, s2: seq<bool>)
    decreases n
  {
    if n <= 1 then n == 1 && Head(s) && s2 == Tail(s)
    else !Head(s) && SinkThrewOnLast(Tail(s), n - 1, s2)
  }

  lemma {:induction false} SinkTookThen(s: seq<bool>, a: nat, s1: seq<bool>, b: nat, s2: seq<bool>)
    requires SinkTook(s, a, s1)
    ensures SinkTook(s1, b, s2) ==> SinkTook(s, a + b, s2)
    ensures SinkThrewOnLast(s1, b, s2) ==> SinkThrewOnLast(s, a + b, s2)
    decreases a
  {
    if a > 0 {
      SinkTookThen(Tail(s), a - 1, s1, b, s2);
    }
  }

  /**
   * `addData` calls stop at the first one that throws: a run of points that reports
   * success had every call accepted, one that reports failure had every call accepted
   * but its last, which threw.
   */
  lemma {:induction false} EmitStopsAtThrow(pts: seq<Point>, w: World)
    ensures var r := EmitPoints(pts, w); var n := |r.1.calls| - |w.calls|;
      (r.0 ==> SinkTook(w.sinkThrows, n, r.1.sinkThrows)) &&
      (!r.0 ==> SinkThrewOnLast(w.sinkThrows, n, r.1.sinkThrows))
    decreases |pts|
  {
    if pts != [] {
      var w1 := w.(sinkThrows := Tail(w.sinkThrows), calls := w.calls + [pts[0]]);
      if !Head(w.sinkThrows) {
        var r := EmitPoints(pts[1..], w1);
        EmitStopsAtThrow(pts[1..], w1);
        assert SinkTook(w.sinkThrows, 1, w1.sinkThrows);
        SinkTookThen(w.sinkThrows, 1, w1.sinkThrows, |r.1.calls| - |w1.calls|, r.1.sinkThrows);
      }
    }
  }

  /** Between two worlds the sink accepted every call it received. */
  predicate SinkUsed(w: World, w2: World) {
    |w.calls| <= |w2.calls| && SinkTook(w.sinkThrows, |w2.calls| - |w.calls|, w2.sinkThrows)
  }

  /** Between two worlds the sink accepted every call it received but the last, which threw. */
  predicate SinkFailedLast(w: World, w2: World) {
    |w.calls| <= |w2.calls| && SinkThrewOnLast(w.sinkThrows, |w2.calls| - |w.calls|, w2.sinkThrows)
  }

  lemma SinkUsedThen(w: World, w1: World, w2: World)
    requires SinkUsed(w, w1)
    ensures SinkUsed(w1, w2) ==> SinkUsed(w, w2)
    ensures SinkFailedLast(w1, w2) ==> SinkFailedLast(w, w2)
  {
    if |w1.calls| <= |w2.calls| {
      SinkTookThen(w.sinkThrows, |w1.calls| - |w.calls|, w1.sinkThrows, |w2.calls| - |w1.calls|, w2.sinkThrows);
    }
  }

  lemma ProcessRowSink(cfg: Config, r: Row, w: World, unresolved: bool)
    ensures var x := ProcessRow(cfg, r, w, unresolved);
      (x.pushed ==> SinkUsed(w, x.w)) && (!x.pushed ==> SinkFailedLast(w, x.w))
  {
    var s := Screen(cfg, r, w, unresolved);
    assert s.w.calls == w.calls && s.w.sinkThrows == w.sinkThrows;
    if s.accept {
      EmitStopsAtThrow(Decode(r, cfg.typeFilter), s.w);
    }
  }

  /** What a run of rows did to the sink, read off the world it leaves. */
  predicate PassSink(w: World, p: Pass) {
    if p.end.SinkThrew? then SinkFailedLast(w, p.w) else SinkUsed(w, p.w)
  }

  lemma {:induction false} ProcessRowsSink(cfg: Config, rows: seq<Row>, i: nat, w: World, unresolved: bool)
    requires i <= |rows|
    ensures PassSink(w, ProcessRows(cfg, rows, i, w, unresolved))
    decreases |rows| - i
  {
    if i == |rows| || PastBoundary(cfg, rows[i].baseTime) {
      assert SinkTook(w.sinkThrows, 0, w.sinkThrows);
    } else {
      var x := ProcessRow(cfg, rows[i], w, unresolved);
      ProcessRowSink(cfg, rows[i], w, unresolved);
      if x.pushed && !Head(x.w.fullReplies) {
        var w2 := x.w.(fullReplies := Tail(x.w.fullReplies));
        ProcessRowsSink(cfg, rows, i + 1, w2, x.unresolved);
        SinkUsedThen(w, w2, ProcessRows(cfg, rows, i + 1, w2, x.unresolved).w);
      }
    }
  }

  /** Settling a run leaves the sink alone, and fails the call on the sink exactly when the run ended on a throw. */
  lemma SettleSink(cfg: Config, p: Pass)
    ensures var s := Settle(cfg, p);
      StepWorld(s).calls == p.w.calls && StepWorld(s).sinkThrows == p.w.sinkThrows &&
      (s.Stop? && s.o.exit == Failed(SinkFailure) <==> p.end.SinkThrew?)
  {
  }

  lemma ReadBatchSink(cfg: Config, rows: seq<Row>, w: World)
    ensures StepSink(w, ReadBatch(cfg, rows, w))
  {
    if cfg.filterOn || !Head(w.errorReplies) {
      var w1 := if cfg.filterOn then w else w.(errorReplies := Tail(w.errorReplies));
      var p := ProcessRows(cfg, rows, 0, w1, false);
      assert ReadBatch(cfg, rows, w) == Settle(cfg, p);
      ProcessRowsSink(cfg, rows, 0, w1, false);
      SettleSink(cfg, p);
    }
  }

  /** What a step of the scan did to the sink, read off the world it leaves. */
  predicate StepSink(w: World, s: Step) {
    if s.Stop? && s.o.exit == Failed(SinkFailure) then SinkFailedLast(w, s.o.w) else SinkUsed(w, StepWorld(s))
  }

  /** What a call did to the sink, read off the world it leaves. */
  predicate OutcomeSink(w: World, o: Outcome) {
    if o.exit == Failed(SinkFailure) then SinkFailedLast(w, o.w) else SinkUsed(w, o.w)
  }

  lemma OutcomeSinkAfterStep(w: World, w2: World, s: Step, o: Outcome)
    requires w2.calls == w.calls && w2.sinkThrows == w.sinkThrows && StepSink(w2, s)
    requires s.Stop? ==> o == s.o
    requires s.Go? ==> OutcomeSink(s.w, o)
    ensures OutcomeSink(w, o)
  {
    if s.Go? {
      SinkUsedThen(w, s.w, o.w);
    }
  }

  lemma {:induction false} ScanLoopSink(cfg: Config, w: World)
    ensures OutcomeSink(w, ScanLoop(cfg, w))
    decreases |w.fetches|
  {
    if w.fetches != [] && w.fetches[0].Batch? {
      var w2 := w.(nextRowsCalls := w.nextRowsCalls + 1, fetches := w.fetches[1..]);
      var s := ReadBatch(cfg, w.fetches[0].rows, w2);
      ReadBatchSink(cfg, w.fetches[0].rows, w2);
      if s.Go? {
        ScanLoopSink(cfg, s.w);
      }
      OutcomeSinkAfterStep(w, w2, s, ScanLoop(cfg, w));
    } else {
      assert SinkTook(w.sinkThrows, 0, w.sinkThrows);
    }
  }

  lemma ReplaySink(cfg: Config, w: World)
    ensures StepSink(w, Replay(cfg, w))
  {
    var e := Entered(w);
    var p := ProcessRows(cfg, w.buffer, 0, e, false);
    ProcessRowsSink(cfg, w.buffer, 0, e, false);
    SettleSink(cfg, p);
  }

  /**
   * Within one `fetchNext` the sink accepted every `addData` it received, except after a
   * sink failure, where the last call is the one that threw and no call came after it.
   */
  lemma FetchNextSinkStopsAtThrow(cfg: Config, w: World)
    ensures var o := FetchNext(cfg, w);
      (o.exit == Failed(SinkFailure) ==> SinkFailedLast(w, o.w)) &&
      (o.exit != Failed(SinkFailure) ==> SinkUsed(w, o.w))
  {
    if w.state != Complete && w.state != Exception && !Head(w.errorReplies) && !Head(w.fullReplies) {
      if w.buffer == [] {
        ScanLoopSink(cfg, Entered(w));
      } else {
        var s := Replay(cfg, w);
        ReplaySink(cfg, w);
        if s.Go? {
          ScanLoopSink(cfg, s.w);
        }
        OutcomeSinkAfterStep(w, w, s, FetchNext(cfg, w));
      }
    } else {
      assert SinkTook(w.sinkThrows, 0, w.sinkThrows);
    }
  }
}
