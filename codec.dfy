/**
 * The row codec of the 1.x storage schema as the scan unit uses it: a stored row is a
 * series identifier (TSUID), a base timestamp and a list of columns; every column whose
 * type passes the optional data-type filter becomes one data point handed to the sink.
 */
module Codec {
  import opened Wrappers

  newtype byte = x: int | 0 <= x < 256
  type Bytes = seq<byte>

  /** One column of a stored row. */
  datatype Column = Column(qualifier: Bytes, value: Bytes)

  /**
   * What the coordinator's tag-value filter says about a row's series. Resolving the
   * row's tag ids and matching them is done by collaborators; only the verdict is kept,
   * `Unresolved` being a tag id the naming service does not know (NSUI).
   */
  datatype Verdict = Keep | Skip | Unresolved

  /** A stored row, its key already split into series identifier and base timestamp. */
  datatype Row = Row(tsuid: Bytes, baseTime: int, columns: seq<Column>, verdict: Verdict)

  /** The arguments of one `addData` call on the results sink. */
  datatype Point = Point(baseTime: int, tsuid: Bytes, typeCode: byte, qualifier: Bytes, value: Bytes)

  /** Type code of a numeric put (two-byte qualifier). */
  const NumericTypeCode: byte := 0
  /** Leading qualifier byte that marks an append column (`Schema.APPENDS_PREFIX`). */
  const AppendsPrefix: byte := 5

  /** The decode rule a qualifier selects. */
  datatype ColumnKind = NumericPut | Append | Typed(code: byte)

  function KindOf(q: Bytes): ColumnKind {
    if |q| < 3 then NumericPut
    else if q[0] == AppendsPrefix then Append
    else Typed(q[0])
  }

  function TypeCodeOf(k: ColumnKind): byte {
    match k
    case NumericPut => NumericTypeCode
    case Append => AppendsPrefix
    case Typed(c) => c
  }

  /** The type code a column is emitted with: 0 for a short qualifier, else its leading byte. */
  function TypeCode(q: Bytes): (c: byte)
    ensures |q| < 3 ==> c == NumericTypeCode
    ensures |q| >= 3 ==> c == q[0]
  {
    TypeCodeOf(KindOf(q))
  }

  /**
   * Whether the data-type filter lets a column through. The filter is consulted for
   * numeric puts and appends only; any other type id is emitted whatever the filter.
   */
  predicate Admits(typeFilter: Option<set<byte>>, k: ColumnKind) {
    match k
    case NumericPut => typeFilter.None? || NumericTypeCode in typeFilter.value
    case Append => typeFilter.None? || AppendsPrefix in typeFilter.value
    case Typed(_) => true
  }

  function ColumnPoints(baseTime: int, tsuid: Bytes, c: Column, typeFilter: Option<set<byte>>): seq<Point> {
    var k := KindOf(c.qualifier);
    if Admits(typeFilter, k) then [Point(baseTime, tsuid, TypeCodeOf(k), c.qualifier, c.value)] else []
  }

  /** The points of a list of columns, in column order. */
  function DecodeColumns(baseTime: int, tsuid: Bytes, cols: seq<Column>, typeFilter: Option<set<byte>>): (pts: seq<Point>)
    ensures |pts| <= |cols|
    decreases |cols|
  {
    if cols == [] then []
    else ColumnPoints(baseTime, tsuid, cols[0], typeFilter) + DecodeColumns(baseTime, tsuid, cols[1..], typeFilter)
  }

  /** `decode(row, results)`: the `addData` calls one row produces, in order. */
  function Decode(r: Row, typeFilter: Option<set<byte>>): seq<Point> {
    DecodeColumns(r.baseTime, r.tsuid, r.columns, typeFilter)
  }

  /** Keeps the points whose qualifier the filter admits. */
  function AdmittedPoints(pts: seq<Point>, typeFilter: Option<set<byte>>): seq<Point>
    decreases |pts|
  {
    if pts == [] then []
    else (if Admits(typeFilter, KindOf(pts[0].qualifier)) then [pts[0]] else []) + AdmittedPoints(pts[1..], typeFilter)
  }

  /**
   * Without a type filter a row yields exactly one point per column, in column order,
   * carrying the row's base time and TSUID and the column's own qualifier and value.
   */
  lemma {:induction false} DecodeOnePointPerColumn(baseTime: int, tsuid: Bytes, cols: seq<Column>)
    ensures |DecodeColumns(baseTime, tsuid, cols, None)| == |cols|
    ensures forall i :: 0 <= i < |cols| ==>
      DecodeColumns(baseTime, tsuid, cols, None)[i]
        == Point(baseTime, tsuid, TypeCode(cols[i].qualifier), cols[i].qualifier, cols[i].value)
    decreases |cols|
  {
    if cols != [] {
      DecodeOnePointPerColumn(baseTime, tsuid, cols[1..]);
      var rest := DecodeColumns(baseTime, tsuid, cols[1..], None);
      assert DecodeColumns(baseTime, tsuid, cols, None) == [Point(baseTime, tsuid, TypeCode(cols[0].qualifier), cols[0].qualifier, cols[0].value)] + rest;
      forall i | 1 <= i < |cols|
        ensures DecodeColumns(baseTime, tsuid, cols, None)[i]
          == Point(baseTime, tsuid, TypeCode(cols[i].qualifier), cols[i].qualifier, cols[i].value)
      {
        assert cols[1..][i - 1] == cols[i];
      }
    }
  }

  /** Filtering by type drops columns and nothing else: it is the unfiltered decode, thinned out. */
  lemma {:induction false} DecodeFilteredIsAdmittedSubsequence(baseTime: int, tsuid: Bytes, cols: seq<Column>, typeFilter: Option<set<byte>>)
    ensures DecodeColumns(baseTime, tsuid, cols, typeFilter)
         == AdmittedPoints(DecodeColumns(baseTime, tsuid, cols, None), typeFilter)
    decreases |cols|
  {
    if cols != [] {
      DecodeFilteredIsAdmittedSubsequence(baseTime, tsuid, cols[1..], typeFilter);
      var p := Point(baseTime, tsuid, TypeCode(cols[0].qualifier), cols[0].qualifier, cols[0].value);
      var all := DecodeColumns(baseTime, tsuid, cols, None);
      assert all == [p] + DecodeColumns(baseTime, tsuid, cols[1..], None);
      assert all[0] == p && all[1..] == DecodeColumns(baseTime, tsuid, cols[1..], None);
    }
  }

  /** Decoding is column-by-column, so the points of a concatenation are the concatenated points. */
  lemma {:induction false} DecodeAppend(baseTime: int, tsuid: Bytes, a: seq<Column>, b: seq<Column>, typeFilter: Option<set<byte>>)
    ensures DecodeColumns(baseTime, tsuid, a + b, typeFilter)
         == DecodeColumns(baseTime, tsuid, a, typeFilter) + DecodeColumns(baseTime, tsuid, b, typeFilter)
    decreases |a|
  {
    if a == [] {
      assert a + b == b;
    } else {
      assert (a + b)[0] == a[0];
      assert (a + b)[1..] == a[1..] + b;
      DecodeAppend(baseTime, tsuid, a[1..], b, typeFilter);
    }
  }

  /** Every point a row yields is stamped with that row's base time and TSUID. */
  lemma {:induction false} DecodeStampsRow(r: Row, typeFilter: Option<set<byte>>)
    ensures forall p :: p in Decode(r, typeFilter) ==> p.baseTime == r.baseTime && p.tsuid == r.tsuid
  {
    DecodeStampsColumns(r.baseTime, r.tsuid, r.columns, typeFilter);
  }

  lemma {:induction false} DecodeStampsColumns(baseTime: int, tsuid: Bytes, cols: seq<Column>, typeFilter: Option<set<byte>>)
    ensures forall p :: p in DecodeColumns(baseTime, tsuid, cols, typeFilter) ==> p.baseTime == baseTime && p.tsuid == tsuid
    decreases |cols|
  {
    if cols != [] {
      DecodeStampsColumns(baseTime, tsuid, cols[1..], typeFilter);
    }
  }

  /**
   * The mixed row of the decode tests (a numeric put, a type-8 column and an append)
   * under the data-type filter {1}: only the type-8 column survives, carrying its own bytes.
   */
  lemma DecodeMixedRowUnderFilterOne(baseTime: int, tsuid: Bytes)
    ensures DecodeColumns(baseTime, tsuid,
              [Column([0, 1], [1]), Column([8, 2, 0], [2]), Column([5, 0, 0], [3])], Some({1}))
         == [Point(baseTime, tsuid, 8, [8, 2, 0], [2])]
  {
    var cols := [Column([0, 1], [1]), Column([8, 2, 0], [2]), Column([5, 0, 0], [3])];
    assert cols[1..] == [Column([8, 2, 0], [2]), Column([5, 0, 0], [3])];
    assert cols[1..][1..] == [Column([5, 0, 0], [3])];
    assert cols[1..][1..][1..] == [];
  }
}
