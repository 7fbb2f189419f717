/**
 * JdbcItemReader: reads the rows of a JDBC result set from row `start` to row `end`
 * (both 1-based and inclusive), resuming after the row number saved as checkpoint.
 *
 * The driver is abstract: a query yields a `ResultSet` holding column labels, a
 * sequence of rows and a cursor position; the per-type column getters are not
 * modelled, a row already holds the values they return.
 */
module JdbcReader {
  import opened Wrappers
  import opened JavaLang

  // The java.sql.ResultSet constants the reader passes to the driver.
  const TYPE_FORWARD_ONLY: int := 1003
  const TYPE_SCROLL_INSENSITIVE: int := 1004
  const TYPE_SCROLL_SENSITIVE: int := 1005
  const CONCUR_READ_ONLY: int := 1007
  const CONCUR_UPDATABLE: int := 1008
  const HOLD_CURSORS_OVER_COMMIT: int := 1
  const CLOSE_CURSORS_AT_COMMIT: int := 2
  const FETCH_FORWARD: int := 1000
  const FETCH_REVERSE: int := 1001
  const FETCH_UNKNOWN: int := 1002

  datatype Error =
    | InvalidProperty(property: string, value: string)  // SupportMessages.invalidReaderWriterProperty
    | NumberFormat(text: string)                        // NumberFormatException from Integer.parseInt
    | ColumnTypesIndex(index: int)                      // columnTypes shorter than columnMapping
    | InvalidColumnIndex(column: int)                   // the driver's error for a column past the last
    | NullPointer                                       // NullPointerException

  /** A column value as the driver's getter returns it. */
  datatype Cell = SqlNull | SqlValue(text: string)

  type Row = seq<Cell>

  /** What executing the statement gives back: column labels and rows. */
  datatype QueryResult = QueryResult(columnLabels: seq<string>, rows: seq<Row>)

  /** The five values parseResultSetProperties returns, in the order of its `int[5]`. */
  datatype ResultSetSettings = ResultSetSettings(
    resultSetType: int, concurrency: int, holdability: int, fetchDirection: int, fetchSize: int)

  /** A prepared statement: a stored-procedure call or a plain query, with its settings. */
  datatype Statement = Statement(callable: bool, sql: string, settings: ResultSetSettings)

  /** The `beanType` batch property: `List`, `Map` or any other class. */
  datatype BeanType = ListType | MapType | BeanClass(name: string)

  /** An item as `readItem` returns it; a bean is recorded with the map it is converted from. */
  datatype Item =
    | ListItem(values: seq<Cell>)
    | MapItem(fields: map<string, Cell>)
    | Bean(beanClass: string, source: map<string, Cell>)

  // ---------------------------------------------------------------------------
  // parseResultSetProperties

  function TypeCode(v: string): Option<int>
  {
    if v == "TYPE_FORWARD_ONLY" then Some(TYPE_FORWARD_ONLY)
    else if v == "TYPE_SCROLL_SENSITIVE" then Some(TYPE_SCROLL_SENSITIVE)
    else if v == "TYPE_SCROLL_INSENSITIVE" then Some(TYPE_SCROLL_INSENSITIVE)
    else None
  }

  function ConcurrencyCode(v: string): Option<int>
  {
    if v == "CONCUR_READ_ONLY" then Some(CONCUR_READ_ONLY)
    else if v == "CONCUR_UPDATABLE" then Some(CONCUR_UPDATABLE)
    else None
  }

  function HoldabilityCode(v: string): Option<int>
  {
    if v == "HOLD_CURSORS_OVER_COMMIT" then Some(HOLD_CURSORS_OVER_COMMIT)
    else if v == "CLOSE_CURSORS_AT_COMMIT" then Some(CLOSE_CURSORS_AT_COMMIT)
    else None
  }

  function DirectionCode(v: string): Option<int>
  {
    if v == "FETCH_FORWARD" then Some(FETCH_FORWARD)
    else if v == "FETCH_REVERSE" then Some(FETCH_REVERSE)
    else if v == "FETCH_UNKNOWN" then Some(FETCH_UNKNOWN)
    else None
  }

  /** The error one `resultSetProperties` entry raises, if any. */
  function EntryError(k: string, v: string): (r: Option<Error>)
    ensures k == "fetchSize" ==> (r.None? <==> ParseInt(Trim(v)).Some?)
    ensures k == "resultSetType" ==> (r.None? <==> TypeCode(v).Some?)
    ensures k == "resultSetConcurrency" ==> (r.None? <==> ConcurrencyCode(v).Some?)
    ensures k == "resultSetHoldability" ==> (r.None? <==> HoldabilityCode(v).Some?)
    ensures k == "fetchDirection" ==> (r.None? <==> DirectionCode(v).Some?)
    ensures k !in {"fetchSize", "resultSetType", "resultSetConcurrency", "resultSetHoldability", "fetchDirection"} ==>
              r.Some?
    ensures r.Some? ==> r.value == (if k == "fetchSize" then NumberFormat(Trim(v)) else InvalidProperty(k, v))
  {
    if k == "fetchSize" then (if ParseInt(Trim(v)).None? then Some(NumberFormat(Trim(v))) else None)
    else if k == "resultSetType" then (if TypeCode(v).None? then Some(InvalidProperty(k, v)) else None)
    else if k == "resultSetConcurrency" then (if ConcurrencyCode(v).None? then Some(InvalidProperty(k, v)) else None)
    else if k == "resultSetHoldability" then (if HoldabilityCode(v).None? then Some(InvalidProperty(k, v)) else None)
    else if k == "fetchDirection" then (if DirectionCode(v).None? then Some(InvalidProperty(k, v)) else None)
    else Some(InvalidProperty(k, v))
  }

  predicate AllEntriesValid(props: map<string, string>)
  {
    forall k :: k in props ==> EntryError(k, props[k]).None?
  }

  /** The result-set type used when none is configured: scroll-insensitive for DB2 drivers. */
  function DefaultResultSetType(connectionClassName: string): int
  {
    if Contains(connectionClassName, ".db2.") then TYPE_SCROLL_INSENSITIVE else TYPE_FORWARD_ONLY
  }

  /** The settings a valid property map stands for; absent keys take their defaults. */
  function SettingsOf(props: map<string, string>, connectionClassName: string): ResultSetSettings
    requires AllEntriesValid(props)
  {
    var configuredType := if "resultSetType" in props then TypeCode(props["resultSetType"]).value else 0;
    ResultSetSettings(
      if configuredType == 0 then DefaultResultSetType(connectionClassName) else configuredType,
      if "resultSetConcurrency" in props then ConcurrencyCode(props["resultSetConcurrency"]).value else CONCUR_READ_ONLY,
      if "resultSetHoldability" in props then HoldabilityCode(props["resultSetHoldability"]).value else HOLD_CURSORS_OVER_COMMIT,
      if "fetchDirection" in props then DirectionCode(props["fetchDirection"]).value else FETCH_FORWARD,
      if "fetchSize" in props then ParseInt(Trim(props["fetchSize"])).value else 0)
  }

  predicate PropertiesAccepted(props: Option<map<string, string>>)
  {
    props.None? || AllEntriesValid(props.value)
  }

  ghost predicate IsPropertyError(props: Option<map<string, string>>, e: Error)
  {
    props.Some? && exists k :: k in props.value && EntryError(k, props.value[k]) == Some(e)
  }

  function PropertiesOrEmpty(props: Option<map<string, string>>): map<string, string>
  {
    if props.Some? then props.value else map[]
  }

  /** One pass of the loop in parseResultSetProperties: the settings gathered so far with
      entry `k -> v` applied, or the error that entry raises. */
  function WithEntry(acc: ResultSetSettings, k: string, v: string): (r: Result<ResultSetSettings, Error>)
    ensures r.Err? <==> EntryError(k, v).Some?
    ensures r.Err? ==> EntryError(k, v) == Some(r.error)
  {
    if k == "fetchSize" then
      var n := ParseInt(Trim(v));
      if n.None? then Err(NumberFormat(Trim(v))) else Ok(acc.(fetchSize := n.value))
    else if k == "resultSetType" then
      if TypeCode(v).None? then Err(InvalidProperty(k, v)) else Ok(acc.(resultSetType := TypeCode(v).value))
    else if k == "resultSetConcurrency" then
      if ConcurrencyCode(v).None? then Err(InvalidProperty(k, v)) else Ok(acc.(concurrency := ConcurrencyCode(v).value))
    else if k == "resultSetHoldability" then
      if HoldabilityCode(v).None? then Err(InvalidProperty(k, v)) else Ok(acc.(holdability := HoldabilityCode(v).value))
    else if k == "fetchDirection" then
      if DirectionCode(v).None? then Err(InvalidProperty(k, v)) else Ok(acc.(fetchDirection := DirectionCode(v).value))
    else Err(InvalidProperty(k, v))
  }

  /** The two property names of equal length differ (at their tenth character). */
  lemma ConcurrencyIsNotHoldability()
    ensures "resultSetConcurrency" != "resultSetHoldability"
  {
    assert "resultSetConcurrency"[9] != "resultSetHoldability"[9];
  }

  /** Every key in `done` is an entry of `m` that raises nothing. */
  predicate ValidVisited(m: map<string, string>, done: set<string>)
  {
    forall k :: k in done ==> k in m && EntryError(k, m[k]).None?
  }

  function GatheredType(m: map<string, string>, done: set<string>): int
    requires ValidVisited(m, done)
  {
    assert "resultSetType" in done ==> EntryError("resultSetType", m["resultSetType"]).None?;
    if "resultSetType" in done then TypeCode(m["resultSetType"]).value else 0
  }

  function GatheredConcurrency(m: map<string, string>, done: set<string>): int
    requires ValidVisited(m, done)
  {
    ConcurrencyIsNotHoldability();
    assert "resultSetConcurrency" in done ==> EntryError("resultSetConcurrency", m["resultSetConcurrency"]).None?;
    if "resultSetConcurrency" in done then ConcurrencyCode(m["resultSetConcurrency"]).value else CONCUR_READ_ONLY
  }

  function GatheredHoldability(m: map<string, string>, done: set<string>): int
    requires ValidVisited(m, done)
  {
    ConcurrencyIsNotHoldability();
    assert "resultSetHoldability" in done ==> EntryError("resultSetHoldability", m["resultSetHoldability"]).None?;
    if "resultSetHoldability" in done then HoldabilityCode(m["resultSetHoldability"]).value else HOLD_CURSORS_OVER_COMMIT
  }

  function GatheredDirection(m: map<string, string>, done: set<string>): int
    requires ValidVisited(m, done)
  {
    assert "fetchDirection" in done ==> EntryError("fetchDirection", m["fetchDirection"]).None?;
    if "fetchDirection" in done then DirectionCode(m["fetchDirection"]).value else FETCH_FORWARD
  }

  function GatheredFetchSize(m: map<string, string>, done: set<string>): int
    requires ValidVisited(m, done)
  {
    assert "fetchSize" in done ==> EntryError("fetchSize", m["fetchSize"]).None?;
    if "fetchSize" in done then ParseInt(Trim(m["fetchSize"])).value else 0
  }

  /** The settings gathered once the keys in `done` have been visited (type 0: not yet set). */
  function Gathered(m: map<string, string>, done: set<string>): ResultSetSettings
    requires ValidVisited(m, done)
  {
    ResultSetSettings(GatheredType(m, done), GatheredConcurrency(m, done), GatheredHoldability(m, done),
                      GatheredDirection(m, done), GatheredFetchSize(m, done))
  }

  /** Visiting one more valid entry, in any order, applies it to what was gathered. */
  lemma GatheredStep(m: map<string, string>, done: set<string>, k: string)
    requires ValidVisited(m, done)
    requires k in m && k !in done && EntryError(k, m[k]).None?
    ensures WithEntry(Gathered(m, done), k, m[k]) == Ok(Gathered(m, done + {k}))
  {
    ConcurrencyIsNotHoldability();
  }

  /**
   * parseResultSetProperties, given the `resultSetProperties` field and the class name of
   * the open connection. The entries are visited in the map's (unspecified) order; the
   * first bad one visited decides the error.
   */
  method ParseResultSetProperties(props: Option<map<string, string>>, connectionClassName: string)
    returns (r: Result<ResultSetSettings, Error>)
    ensures r.Ok? <==> PropertiesAccepted(props)
    ensures r.Ok? ==> r.value == SettingsOf(PropertiesOrEmpty(props), connectionClassName)
    ensures r.Err? ==> IsPropertyError(props, r.error)
  {
    var settings := ResultSetSettings(0, CONCUR_READ_ONLY, HOLD_CURSORS_OVER_COMMIT, FETCH_FORWARD, 0);
    var m := PropertiesOrEmpty(props);
    var remaining := m.Keys;
    while remaining != {}
      invariant remaining <= m.Keys
      invariant forall k :: k in m && k !in remaining ==> EntryError(k, m[k]).None?
      invariant settings == Gathered(m, m.Keys - remaining)
      decreases remaining
    {
      var k :| k in remaining;
      var next := WithEntry(settings, k, m[k]);
      if next.Err? {
        return Err(next.error);
      }
      GatheredStep(m, m.Keys - remaining, k);
      assert m.Keys - (remaining - {k}) == (m.Keys - remaining) + {k};
      settings := next.value;
      remaining := remaining - {k};
    }
    assert m.Keys - remaining == m.Keys;
    if settings.resultSetType == 0 {
      settings := settings.(resultSetType := DefaultResultSetType(connectionClassName));
    }
    r := Ok(settings);
  }

  // ---------------------------------------------------------------------------
  // Bounds, checkpoint and the ready position computed by open.

  /** A non-positive `start` means the first row. */
  function NormalStart(start: Int32): (s: Int32)
    ensures s >= 1
    ensures start >= 1 ==> s == start
    ensures start <= 0 ==> s == 1
  {
    if start <= 0 then 1 else start
  }

  /** An `end` of 0 means no upper bound. */
  function NormalEnd(end: Int32): (e: Int32)
    ensures end != 0 ==> e == end
    ensures end == 0 ==> e == INT_MAX
  {
    if end == 0 then INT_MAX else end
  }

  /** The row number before the first row to read: the later of `start - 1` and the checkpoint. */
  function ReadyPosition(start: Int32, checkpoint: Option<Int32>): (p: Int32)
    requires start >= 1
    ensures p >= start - 1 && (checkpoint.Some? ==> p >= checkpoint.value)
    ensures p == start - 1 || checkpoint == Some(p)
  {
    if checkpoint.Some? && checkpoint.value > start - 1 then checkpoint.value else start - 1
  }

  /** `open` rejects exactly the bounds whose normalised end lies before the normalised start:
      every negative `end`, and every positive `end` below the normalised start. */
  lemma RejectedBounds(start: Int32, end: Int32)
    ensures NormalEnd(end) < NormalStart(start) <==> end < 0 || (0 < end < NormalStart(start))
  {
  }

  // ---------------------------------------------------------------------------
  // The cursor: which rows successive readItem calls deliver.

  /** The result-set position (0 before the first row, `n + 1` after the last) and
      `currentRowNumber`. */
  datatype Cursor = Cursor(position: nat, current: int)

  /** The cursor right after `open`: `absolute(ready)` and `currentRowNumber = ready`. */
  function OpenCursor(n: nat, ready: nat): Cursor
  {
    Cursor(if ready <= n then ready else n + 1, ready)
  }

  /** One readItem over `n` rows: the new cursor and the number of the row delivered, if any. */
  function ReadStep(n: nat, end: int, c: Cursor): (Cursor, Option<int>)
  {
    if c.current >= end then (c, None)
    else if c.position < n then (Cursor(c.position + 1, c.position + 1), Some(c.position + 1))
    else (Cursor(n + 1, c.current), None)
  }

  /** The row numbers successive readItem calls deliver, up to the first null. */
  function Delivered(n: nat, end: int, c: Cursor): seq<int>
    decreases if c.position <= n then n - c.position else 0
  {
    var (next, row) := ReadStep(n, end, c);
    if row.None? then [] else [row.value] + Delivered(n, end, next)
  }

  /** The cursor after `k` reads. */
  function Advance(n: nat, end: int, c: Cursor, k: nat): Cursor
    decreases k
  {
    if k == 0 then c else Advance(n, end, ReadStep(n, end, c).0, k - 1)
  }

  /** The consecutive row numbers `lo..hi`, empty when `lo > hi`. */
  function Range(lo: int, hi: int): (r: seq<int>)
    ensures |r| == Max(0, hi - lo + 1)
    ensures forall i :: 0 <= i < |r| ==> r[i] == lo + i
    decreases hi - lo
  {
    if lo > hi then [] else [lo] + Range(lo + 1, hi)
  }

  /** From a cursor just opened at `ready`, the reader delivers rows `ready + 1 .. min(end, n)`. */
  lemma {:induction false} DeliveredFromReady(n: nat, end: int, ready: nat)
    ensures Delivered(n, end, OpenCursor(n, ready)) == Range(ready + 1, Min(end, n))
    decreases if ready <= n then n - ready else 0
  {
    var c := OpenCursor(n, ready);
    if ready < end && ready < n {
      assert ReadStep(n, end, c) == (OpenCursor(n, ready + 1), Some(ready + 1));
      DeliveredFromReady(n, end, ready + 1);
    }
  }

  /** Reading `k` rows from a cursor opened at `ready` leaves it as if opened at `ready + k`. */
  lemma {:induction false} AdvanceFromReady(n: nat, end: int, ready: nat, k: nat)
    requires ready + k <= Min(end, n)
    ensures Advance(n, end, OpenCursor(n, ready), k) == OpenCursor(n, ready + k)
    decreases k
  {
    if k > 0 {
      assert ReadStep(n, end, OpenCursor(n, ready)).0 == OpenCursor(n, ready + 1);
      AdvanceFromReady(n, end, ready + 1, k - 1);
    }
  }

  /** A fresh read (no checkpoint) over `n` rows delivers exactly rows `start..min(end, n)`,
      in order: `min(end, n) - start + 1` rows, or none when `start > n`. */
  lemma FreshReadDeliversBounds(n: nat, start: Int32, end: Int32)
    requires 1 <= start <= end
    ensures Delivered(n, end, OpenCursor(n, ReadyPosition(start, None))) == Range(start, Min(end, n))
    ensures |Range(start, Min(end, n))| == Max(0, Min(end, n) - start + 1)
  {
    DeliveredFromReady(n, end, start - 1);
  }

  /**
   * Checkpoint and restart. After `k` rows of a run opened with checkpoint `cp0`, the
   * checkpoint (`currentRowNumber`) is the number of the last row delivered, and a reader
   * reopened with it delivers the rest of the run: no row twice and none skipped.
   */
  lemma ResumeAfterCheckpoint(n: nat, start: Int32, end: Int32, cp0: Option<Int32>, k: nat)
    requires 1 <= start <= end
    requires k > 0
    requires k <= |Delivered(n, end, OpenCursor(n, ReadyPosition(start, cp0)))|
    ensures var run := Delivered(n, end, OpenCursor(n, ReadyPosition(start, cp0)));
            var cp := Advance(n, end, OpenCursor(n, ReadyPosition(start, cp0)), k).current;
            && cp == run[k - 1]
            && INT_MIN <= cp <= INT_MAX
            && Delivered(n, end, OpenCursor(n, ReadyPosition(start, Some(cp as Int32)))) == run[k..]
            && run == run[..k] + run[k..]
  {
    var p: nat := ReadyPosition(start, cp0);
    ResumeFrom(n, end, p, k);
    var cp: nat := p + k;
    assert cp <= end;
    assert ReadyPosition(start, Some(cp as Int32)) == cp;
  }

  /** Reading `k` rows from a cursor opened at `ready` reaches row `ready + k`, the `k`-th row
      delivered, and a cursor opened there delivers the rest of the run. */
  lemma ResumeFrom(n: nat, end: int, ready: nat, k: nat)
    requires 0 < k <= |Delivered(n, end, OpenCursor(n, ready))|
    ensures var run := Delivered(n, end, OpenCursor(n, ready));
            && Advance(n, end, OpenCursor(n, ready), k).current == ready + k == run[k - 1]
            && ready + k <= Min(end, n)
            && Delivered(n, end, OpenCursor(n, ready + k)) == run[k..]
  {
    var m := Min(end, n);
    var run := Delivered(n, end, OpenCursor(n, ready));
    assert run == Range(ready + 1, m) by {
      DeliveredFromReady(n, end, ready);
    }
    var cp: nat := ready + k;
    assert Advance(n, end, OpenCursor(n, ready), k) == OpenCursor(n, cp) by {
      AdvanceFromReady(n, end, ready, k);
    }
    var rest := Delivered(n, end, OpenCursor(n, cp));
    assert rest == Range(cp + 1, m) by {
      DeliveredFromReady(n, end, cp);
    }
    RangeSuffix(ready + 1, m, k);
  }

  /** Dropping the first `k` numbers of a range starts it `k` later. */
  lemma RangeSuffix(lo: int, hi: int, k: nat)
    requires k <= |Range(lo, hi)|
    ensures Range(lo, hi)[k..] == Range(lo + k, hi)
  {
    var r := Range(lo, hi)[k..];
    assert |r| == |Range(lo + k, hi)|;
    assert forall i :: 0 <= i < |r| ==> r[i] == Range(lo + k, hi)[i];
  }

  // ---------------------------------------------------------------------------
  // Row shaping in readItem.

  /** The 28 `columnTypes` names for which getColumnValue calls a getter. */
  predicate KnownType(t: string)
  {
    t in {"String", "Date", "Timestamp", "Time", "Object", "null", "NString", "Boolean", "Int",
          "Long", "Double", "Float", "Short", "Byte", "Blob", "Clob", "NClob", "BigDecimal", "URL",
          "Bytes", "BinaryStream", "CharacterStream", "NCharacterStream", "AsciiStream", "Ref",
          "RowId", "SQLXML", "Array"}
  }

  /** getColumnValue(i): `columnTypes` is indexed first (when set). A known type name, or no
      `columnTypes` at all, asks the driver for column `i + 1`; any other name calls no getter
      and the value stays null. */
  function ColumnValue(row: Row, columnTypes: Option<seq<string>>, i: nat): Result<Cell, Error>
  {
    if columnTypes.Some? && i >= |columnTypes.value| then Err(ColumnTypesIndex(i))
    else if columnTypes.Some? && !KnownType(columnTypes.value[i]) then Ok(SqlNull)
    else if i < |row| then Ok(row[i])
    else Err(InvalidColumnIndex(i + 1))
  }

  /** The first column at or after `i` that getColumnValue cannot read. */
  function UnreadableFrom(row: Row, columnTypes: Option<seq<string>>, i: nat): (k: nat)
    ensures i <= k && ColumnValue(row, columnTypes, k).Err?
    ensures forall j: nat :: i <= j < k ==> ColumnValue(row, columnTypes, j).Ok?
    ensures i <= (if columnTypes.Some? then |columnTypes.value| else |row|) ==>
              k <= (if columnTypes.Some? then |columnTypes.value| else |row|)
    decreases (if columnTypes.Some? then |columnTypes.value| else |row|) - i
  {
    if ColumnValue(row, columnTypes, i).Err? then i else UnreadableFrom(row, columnTypes, i + 1)
  }

  /** How many leading columns getColumnValue can read: every column before `k` is read and
      column `k` fails, either on `columnTypes[k]` or in the driver. */
  function ReadableColumns(row: Row, columnTypes: Option<seq<string>>): (k: nat)
    ensures forall i: nat :: i < k ==> ColumnValue(row, columnTypes, i).Ok?
    ensures ColumnValue(row, columnTypes, k).Err?
    ensures k <= (if columnTypes.Some? then |columnTypes.value| else |row|)
  {
    UnreadableFrom(row, columnTypes, 0)
  }

  /** The values getColumnValue returns for the first `m` columns. */
  function Cells(row: Row, columnTypes: Option<seq<string>>, m: nat): (cells: seq<Cell>)
    requires m <= ReadableColumns(row, columnTypes)
  {
    seq(m, i requires 0 <= i < m => ColumnValue(row, columnTypes, i).value)
  }

  /** The map built by `put(names[i], values[i])` for i in order: a later name wins. */
  function ZipMap(names: seq<string>, values: seq<Cell>): (m: map<string, Cell>)
    requires |names| == |values|
    ensures forall k :: k in m <==> k in names
  {
    if |names| == 0 then map[]
    else ZipMap(names[..|names| - 1], values[..|values| - 1])[names[|names| - 1] := values[|values| - 1]]
  }

  /** A name that is not repeated later maps to its own column's value. */
  lemma {:induction false} ZipMapAt(names: seq<string>, values: seq<Cell>, i: nat)
    requires |names| == |values| && i < |names|
    requires forall j :: i < j < |names| ==> names[j] != names[i]
    ensures ZipMap(names, values)[names[i]] == values[i]
  {
    if i < |names| - 1 {
      ZipMapAt(names[..|names| - 1], values[..|values| - 1], i);
    }
  }

  /** The item readItem builds from the current row. */
  function RowItem(row: Row, mapping: seq<string>, columnTypes: Option<seq<string>>, beanType: BeanType)
    : Result<Item, Error>
  {
    var m := |mapping|;
    var readable := ReadableColumns(row, columnTypes);
    if m > readable then Err(ColumnValue(row, columnTypes, readable).error)
    else match beanType
      case ListType => Ok(ListItem(Cells(row, columnTypes, m)))
      case MapType => Ok(MapItem(ZipMap(mapping, Cells(row, columnTypes, m))))
      case BeanClass(c) => Ok(Bean(c, ZipMap(mapping, Cells(row, columnTypes, m))))
  }

  /** The loop of readItem for bean type List: getColumnValue on columns 0 .. m - 1 in turn,
      stopping at the first failure. */
  method ColumnValues(row: Row, columnTypes: Option<seq<string>>, m: nat) returns (r: Result<seq<Cell>, Error>)
    ensures var readable := ReadableColumns(row, columnTypes);
            && (m <= readable ==> r == Ok(Cells(row, columnTypes, m)))
            && (m > readable ==> r == Err(ColumnValue(row, columnTypes, readable).error))
  {
    var values: seq<Cell> := [];
    for i := 0 to m
      invariant i <= ReadableColumns(row, columnTypes)
      invariant values == Cells(row, columnTypes, i)
    {
      var v := ColumnValue(row, columnTypes, i);
      if v.Err? {
        return Err(v.error);
      }
      values := values + [v.value];
      assert values == Cells(row, columnTypes, i + 1);
    }
    return Ok(values);
  }

  /** The loop of readItem for a map or bean: column `i`'s value under the name
      `mapping[i]`, later names overwriting earlier ones, stopping at the first failure. */
  method ColumnFields(row: Row, columnTypes: Option<seq<string>>, mapping: seq<string>)
    returns (r: Result<map<string, Cell>, Error>)
    ensures var readable := ReadableColumns(row, columnTypes);
            && (|mapping| <= readable ==> r == Ok(ZipMap(mapping, Cells(row, columnTypes, |mapping|))))
            && (|mapping| > readable ==> r == Err(ColumnValue(row, columnTypes, readable).error))
  {
    var fields: map<string, Cell> := map[];
    for i := 0 to |mapping|
      invariant i <= ReadableColumns(row, columnTypes)
      invariant fields == ZipMap(mapping[..i], Cells(row, columnTypes, i))
    {
      var v := ColumnValue(row, columnTypes, i);
      if v.Err? {
        return Err(v.error);
      }
      fields := fields[mapping[i] := v.value];
      assert mapping[..i + 1][..i] == mapping[..i];
      assert Cells(row, columnTypes, i + 1)[..i] == Cells(row, columnTypes, i);
    }
    assert mapping[..|mapping|] == mapping;
    return Ok(fields);
  }

  /** With bean type List a row yields exactly one value per mapped column, in column order:
      the row's value, or null for a column whose type name calls no getter; otherwise the
      map's keys are exactly the mapped names. */
  lemma RowItemShape(row: Row, mapping: seq<string>, columnTypes: Option<seq<string>>, beanType: BeanType)
    requires |mapping| <= ReadableColumns(row, columnTypes)
    ensures RowItem(row, mapping, columnTypes, beanType).Ok?
    ensures beanType == ListType ==>
              var values := RowItem(row, mapping, columnTypes, beanType).value.values;
              && |values| == |mapping|
              && forall i :: 0 <= i < |mapping| ==>
                   if columnTypes.Some? && !KnownType(columnTypes.value[i]) then values[i] == SqlNull
                   else i < |row| && values[i] == row[i]
    ensures beanType == MapType ==>
              forall k :: k in RowItem(row, mapping, columnTypes, beanType).value.fields <==> k in mapping
  {
    var cells := Cells(row, columnTypes, |mapping|);
    forall i | 0 <= i < |mapping|
      ensures if columnTypes.Some? && !KnownType(columnTypes.value[i]) then cells[i] == SqlNull
              else i < |row| && cells[i] == row[i]
    {
      assert ColumnValue(row, columnTypes, i).Ok?;
    }
  }

  /** A column type name that calls no getter reads null, even for a column past the row. */
  lemma UnknownTypeReadsNull(v: Cell)
    ensures RowItem([v], ["a", "b"], Some(["String", "Foo"]), ListType) == Ok(ListItem([v, SqlNull]))
  {
    var types := Some(["String", "Foo"]);
    assert !KnownType("Foo");
    assert ColumnValue([v], types, 0) == Ok(v);
    assert ColumnValue([v], types, 1) == Ok(SqlNull);
    assert UnreadableFrom([v], types, 2) == 2;
    assert UnreadableFrom([v], types, 1) == 2;
    assert ReadableColumns([v], types) == 2;
    assert Cells([v], types, 2) == [v, SqlNull];
  }

  /** `isStoredProcedure` on trimmed SQL: a JDBC call escape `{...}`. */
  predicate IsCallSyntax(sql: string)
  {
    StartsWith(sql, "{") && EndsWith(sql, "}")
  }

  // ---------------------------------------------------------------------------
  // close(), as written and as intended.

  /** Which of the three handles are non-null. */
  datatype Handles = Handles(connection: bool, statement: bool, resultSet: bool)

  /** close() as written: when any handle is set it calls `resultSet.close()` without a null
      check, so a reader whose open failed before the result set existed throws. */
  function CloseAsWritten(h: Handles): Result<Handles, Error>
  {
    if h.connection || h.statement || h.resultSet then
      if !h.resultSet then Err(NullPointer) else Ok(Handles(false, false, false))
    else Ok(h)
  }

  /** An open that failed on its properties leaves a connection and nothing else; closing
      such a reader as written throws instead of releasing the connection. */
  lemma CloseAsWrittenFailsAfterFailedOpen()
    ensures CloseAsWritten(Handles(true, false, false)) == Err(NullPointer)
  {
  }

  class ResultSet {
    const columnLabels: seq<string>
    const rows: seq<Row>
    /** 0 before the first row, `|rows| + 1` after the last. */
    var position: nat
    var closed: bool

    ghost predicate Valid()
      reads this
    {
      position <= |rows| + 1
    }

    constructor (columnLabels: seq<string>, rows: seq<Row>)
      ensures Valid()
      ensures this.columnLabels == columnLabels && this.rows == rows
      ensures position == 0 && !closed
    {
      this.columnLabels := columnLabels;
      this.rows := rows;
      position := 0;
      closed := false;
    }

    /** absolute(p), p >= 0: 0 is before the first row; past the last row is after it. */
    method Absolute(p: nat)
      requires Valid()
      modifies this`position
      ensures Valid()
      ensures position == if p <= |rows| then p else |rows| + 1
    {
      position := if p <= |rows| then p else |rows| + 1;
    }

    /** next(): true and one row further while a row remains, otherwise after the last row. */
    method Next() returns (hasRow: bool)
      requires Valid()
      modifies this`position
      ensures Valid()
      ensures hasRow <==> old(position) < |rows|
      ensures position == if hasRow then old(position) + 1 else |rows| + 1
    {
      hasRow := position < |rows|;
      position := if hasRow then position + 1 else |rows| + 1;
    }

    /** getRow(): the current row number, 0 when the cursor is on no row. */
    function GetRow(): nat
      reads this
    {
      if 1 <= position <= |rows| then position else 0
    }

    method Close()
      modifies this`closed
      ensures closed
    {
      closed := true;
    }
  }

  class JdbcItemReader {
    // Batch properties.
    var start: Int32
    var end: Int32
    var columnMapping: Option<seq<string>>
    const columnTypes: Option<seq<string>>
    const resultSetProperties: Option<map<string, string>>
    var sql: string
    const beanType: BeanType

    // State; a connection is recorded by its class name.
    var columnLabels: Option<seq<string>>
    var connection: Option<string>
    var preparedStatement: Option<Statement>
    var resultSet: ResultSet?
    var currentRowNumber: int

    /** The state after a successful open. */
    ghost predicate Ready()
      reads this, resultSet
    {
      && resultSet != null && resultSet.Valid()
      && connection.Some? && preparedStatement.Some?
      && 1 <= start <= end && columnMapping.Some?
    }

    function HandlesOf(): Handles
      reads this
    {
      Handles(connection.Some?, preparedStatement.Some?, resultSet != null)
    }

    constructor (start: Int32, end: Int32, columnMapping: Option<seq<string>>,
                 columnTypes: Option<seq<string>>, resultSetProperties: Option<map<string, string>>,
                 sql: string, beanType: BeanType)
      ensures this.start == start && this.end == end && this.columnMapping == columnMapping
      ensures this.columnTypes == columnTypes && this.resultSetProperties == resultSetProperties
      ensures this.sql == sql && this.beanType == beanType
      ensures columnLabels.None? && HandlesOf() == Handles(false, false, false) && currentRowNumber == 0
    {
      this.start := start;
      this.end := end;
      this.columnMapping := columnMapping;
      this.columnTypes := columnTypes;
      this.resultSetProperties := resultSetProperties;
      this.sql := sql;
      this.beanType := beanType;
      columnLabels := None;
      connection := None;
      preparedStatement := None;
      resultSet := null;
      currentRowNumber := 0;
    }

    /** isStoredProcedure(): trims `sql` in place and tests the trimmed text. */
    method IsStoredProcedure() returns (b: bool)
      modifies this`sql
      ensures sql == Trim(old(sql))
      ensures b == IsCallSyntax(sql)
    {
      sql := Trim(sql);
      b := StartsWith(sql, "{") && EndsWith(sql, "}");
    }

    /** open(), lines up to the prepared statement: record the connection, parse the
        result-set properties, trim the SQL and prepare a call or a plain statement. */
    method PrepareStatement(connectionClassName: string) returns (r: Result<ResultSetSettings, Error>)
      modifies this`connection, this`sql, this`preparedStatement
      ensures connection == Some(connectionClassName)
      ensures r.Ok? <==> PropertiesAccepted(resultSetProperties)
      ensures r.Err? ==>
                && IsPropertyError(resultSetProperties, r.error)
                && sql == old(sql) && preparedStatement == old(preparedStatement)
      ensures r.Ok? ==>
                && sql == Trim(old(sql))
                && preparedStatement == Some(Statement(IsCallSyntax(sql), sql,
                     SettingsOf(PropertiesOrEmpty(resultSetProperties), connectionClassName)))
    {
      connection := Some(connectionClassName);
      r := ParseResultSetProperties(resultSetProperties, connectionClassName);
      if r.Err? {
        return;
      }
      var callable := IsStoredProcedure();
      preparedStatement := Some(Statement(callable, sql, r.value));
    }

    /** open(), column set-up: without a `columnMapping` the column labels become the
        mapping, and `columnTypes`, when given, must have one entry per column. */
    method SetUpColumns(rs: ResultSet) returns (r: Result<(), Error>)
      modifies this`columnLabels, this`columnMapping
      ensures old(columnMapping).Some? ==> r.Ok? && unchanged(this)
      ensures old(columnMapping).None? && columnTypes.Some? && |columnTypes.value| != |rs.columnLabels| ==>
                && r == Err(InvalidProperty("columnTypes", ArrayToString(columnTypes.value)))
                && unchanged(this)
      ensures old(columnMapping).None? && !(columnTypes.Some? && |columnTypes.value| != |rs.columnLabels|) ==>
                && r.Ok?
                && columnLabels == Some(rs.columnLabels) && columnMapping == Some(rs.columnLabels)
    {
      r := Ok(());
      if columnMapping.None? {
        var columnCount := |rs.columnLabels|;
        if columnTypes.Some? && |columnTypes.value| != columnCount {
          return Err(InvalidProperty("columnTypes", ArrayToString(columnTypes.value)));
        }
        var labels: seq<string> := [];
        for i := 0 to columnCount
          invariant labels == rs.columnLabels[..i]
        {
          labels := labels + [rs.columnLabels[i]];
        }
        assert labels == rs.columnLabels;
        columnLabels := Some(labels);
        columnMapping := columnLabels;
      }
    }

    /** open(), bounds: normalise `start` and `end` in place and reject an `end` before `start`. */
    method CheckBounds() returns (r: Result<(), Error>)
      modifies this`start, this`end
      ensures start == NormalStart(old(start)) && end == NormalEnd(old(end))
      ensures end < start <==> r.Err?
      ensures r.Err? ==> r.error == InvalidProperty("end", IntToString(end))
    {
      if start <= 0 {
        start := 1;
      }
      if end == 0 {
        end := INT_MAX;
      }
      if end < start {
        return Err(InvalidProperty("end", IntToString(end)));
      }
      r := Ok(());
    }

    /** open(), bounds and positioning: normalise `start` and `end`, reject an `end` before
        `start`, then move the cursor to the later of `start - 1` and the checkpoint. */
    method PositionCursor(checkpoint: Option<Int32>, rs: ResultSet) returns (r: Result<(), Error>)
      requires rs.Valid() && rs.position == 0
      modifies this`start, this`end, this`currentRowNumber, rs`position
      ensures rs.Valid()
      ensures start == NormalStart(old(start)) && end == NormalEnd(old(end))
      ensures end < start ==>
                && r == Err(InvalidProperty("end", IntToString(end)))
                && rs.position == 0 && currentRowNumber == old(currentRowNumber)
      ensures start <= end ==>
                && r == Ok(())
                && currentRowNumber == ReadyPosition(start, checkpoint)
                && Cursor(rs.position, currentRowNumber) == OpenCursor(|rs.rows|, ReadyPosition(start, checkpoint))
    {
      r := CheckBounds();
      if r.Err? {
        return;
      }
      var readyPosition := start - 1;
      if checkpoint.Some? {
        if checkpoint.value > readyPosition {
          readyPosition := checkpoint.value;
        }
      }
      if readyPosition >= 0 {
        rs.Absolute(readyPosition);
      }
      currentRowNumber := readyPosition;
      r := Ok(());
    }

    /**
     * open(), from the result set on, for a stored-procedure call whose `execute()` reports no
     * result set: the null result set is stored, and the first use of it throws, at
     * `getMetaData()` without a `columnMapping`, otherwise at `absolute` once the bounds
     * have been checked.
     */
    method OpenWithoutResultSet() returns (r: Result<(), Error>)
      modifies this`resultSet, this`start, this`end
      ensures resultSet == null
      ensures old(columnMapping).None? ==> r == Err(NullPointer) && start == old(start) && end == old(end)
      ensures old(columnMapping).Some? ==>
                && start == NormalStart(old(start)) && end == NormalEnd(old(end))
                && r == (if end < start then Err(InvalidProperty("end", IntToString(end))) else Err(NullPointer))
    {
      resultSet := null;
      if columnMapping.None? {
        return Err(NullPointer);
      }
      r := CheckBounds();
      if r.Ok? {
        r := Err(NullPointer);
      }
    }

    /**
     * open(checkpoint). `connectionClassName` is the connection getConnection() hands out
     * and `query` what executing the prepared statement gives back; only a stored-procedure
     * call can report that it has no result set (`None`), a plain query always has one.
     */
    method Open(checkpoint: Option<Int32>, connectionClassName: string, query: Option<QueryResult>)
      returns (r: Result<(), Error>)
      requires query.None? ==> IsCallSyntax(Trim(sql))
      modifies this
      ensures connection == Some(connectionClassName)
      // Bad resultSetProperties: nothing else happens.
      ensures !PropertiesAccepted(resultSetProperties) ==>
                && r.Err? && IsPropertyError(resultSetProperties, r.error)
                && sql == old(sql) && preparedStatement == old(preparedStatement)
                && resultSet == old(resultSet) && columnLabels == old(columnLabels)
                && start == old(start) && end == old(end) && columnMapping == old(columnMapping)
                && currentRowNumber == old(currentRowNumber)
      // Otherwise the statement is prepared from the trimmed SQL with the parsed settings.
      ensures PropertiesAccepted(resultSetProperties) ==>
                && sql == Trim(old(sql))
                && preparedStatement == Some(Statement(IsCallSyntax(sql), sql,
                     SettingsOf(PropertiesOrEmpty(resultSetProperties), connectionClassName)))
      // A call without a result set: the stored null is dereferenced.
      ensures PropertiesAccepted(resultSetProperties) && query.None? ==>
                && resultSet == null && columnLabels == old(columnLabels)
                && columnMapping == old(columnMapping) && currentRowNumber == old(currentRowNumber)
                && (old(columnMapping).None? ==> r == Err(NullPointer) && start == old(start) && end == old(end))
                && (old(columnMapping).Some? ==>
                      && start == NormalStart(old(start)) && end == NormalEnd(old(end))
                      && r == (if end < start then Err(InvalidProperty("end", IntToString(end))) else Err(NullPointer)))
      ensures PropertiesAccepted(resultSetProperties) && query.Some? ==>
                && resultSet != null && fresh(resultSet) && resultSet.Valid() && !resultSet.closed
                && resultSet.columnLabels == query.value.columnLabels && resultSet.rows == query.value.rows
      // columnTypes must match the column count when the mapping comes from the labels.
      ensures PropertiesAccepted(resultSetProperties) && query.Some?
              && old(columnMapping).None? && columnTypes.Some?
              && |columnTypes.value| != |query.value.columnLabels| ==>
                && r == Err(InvalidProperty("columnTypes", ArrayToString(columnTypes.value)))
                && resultSet.position == 0 && columnLabels == old(columnLabels)
                && start == old(start) && end == old(end) && columnMapping == old(columnMapping)
                && currentRowNumber == old(currentRowNumber)
      ensures PropertiesAccepted(resultSetProperties) && query.Some?
              && !(old(columnMapping).None? && columnTypes.Some?
                   && |columnTypes.value| != |query.value.columnLabels|) ==>
                && columnLabels == (if old(columnMapping).None? then Some(query.value.columnLabels) else old(columnLabels))
                && columnMapping == (if old(columnMapping).None? then Some(query.value.columnLabels) else old(columnMapping))
                && start == NormalStart(old(start)) && end == NormalEnd(old(end))
                && (end < start ==>
                      && r == Err(InvalidProperty("end", IntToString(end)))
                      && resultSet.position == 0 && currentRowNumber == old(currentRowNumber))
                && (start <= end ==>
                      && r == Ok(()) && Ready()
                      && currentRowNumber == ReadyPosition(start, checkpoint)
                      && Cursor(resultSet.position, currentRowNumber)
                           == OpenCursor(|resultSet.rows|, ReadyPosition(start, checkpoint)))
    {
      var settings := PrepareStatement(connectionClassName);
      if settings.Err? {
        return Err(settings.error);
      }
      if query.None? {
        r := OpenWithoutResultSet();
        return;
      }
      var rs := new ResultSet(query.value.columnLabels, query.value.rows);
      resultSet := rs;
      r := SetUpColumns(rs);
      if r.Err? {
        return;
      }
      r := PositionCursor(checkpoint, rs);
    }

    /**
     * readItem(): null once `currentRowNumber` reaches `end` (the cursor stays put) or when
     * no row remains; otherwise the next row, shaped by the bean type, after which
     * `currentRowNumber` is that row's number. A failure while shaping leaves the cursor on
     * the row and `currentRowNumber` where it was.
     */
    method ReadItem() returns (r: Result<Option<Item>, Error>)
      requires Ready()
      modifies resultSet`position, this`currentRowNumber
      ensures Ready()
      ensures var (c, row) := ReadStep(|resultSet.rows|, end, Cursor(old(resultSet.position), old(currentRowNumber)));
              && resultSet.position == c.position
              && (row.None? ==> r == Ok(None) && currentRowNumber == old(currentRowNumber))
              && (row.Some? ==>
                    var item := RowItem(resultSet.rows[row.value - 1], columnMapping.value, columnTypes, beanType);
                    && (item.Ok? ==> r == Ok(Some(item.value)) && currentRowNumber == c.current)
                    && (item.Err? ==> r == Err(item.error) && currentRowNumber == old(currentRowNumber)))
    {
      if currentRowNumber >= end {
        return Ok(None);
      }
      var hasRow := resultSet.Next();
      if !hasRow {
        return Ok(None);
      }
      var row := resultSet.rows[resultSet.position - 1];
      var mapping := columnMapping.value;
      var item: Item;
      if beanType == ListType {
        var values := ColumnValues(row, columnTypes, |mapping|);
        if values.Err? {
          return Err(values.error);
        }
        item := ListItem(values.value);
      } else {
        var fields := ColumnFields(row, columnTypes, mapping);
        if fields.Err? {
          return Err(fields.error);
        }
        item := if beanType == MapType then MapItem(fields.value) else Bean(beanType.name, fields.value);
      }
      currentRowNumber := resultSet.GetRow();
      r := Ok(Some(item));
    }

    /** checkpointInfo(): the current row number. */
    function CheckpointInfo(): int
      reads this
    {
      currentRowNumber
    }

    /** close(), with the null check on the result set that the written code lacks: every
        handle is released, and a second close does nothing. */
    method Close()
      modifies this, resultSet
      ensures HandlesOf() == Handles(false, false, false)
      ensures old(resultSet) != null ==> old(resultSet).closed
      ensures old(HandlesOf()) == Handles(false, false, false) ==> unchanged(this)
      ensures start == old(start) && end == old(end) && sql == old(sql)
      ensures columnMapping == old(columnMapping) && currentRowNumber == old(currentRowNumber)
    {
      if preparedStatement.Some? || connection.Some? || resultSet != null {
        if resultSet != null {
          resultSet.Close();
        }
        connection := None;
        preparedStatement := None;
        resultSet := null;
      }
    }
  }

  /** A reader whose resultSetProperties hold an unknown key: open fails with a connection
      held, close as written would throw, and the corrected close releases it. */
  method FailedOpenThenClose()
  {
    var reader := new JdbcItemReader(1, 0, None, None, Some(map["fetchsize" := "10"]),
                                     "SELECT * FROM PERSON", MapType);
    assert EntryError("fetchsize", "10") == Some(InvalidProperty("fetchsize", "10"));
    assert "fetchsize" in reader.resultSetProperties.value;
    assert !PropertiesAccepted(reader.resultSetProperties);
    var r := reader.Open(None, "org.h2.jdbc.JdbcConnection", Some(QueryResult([], [])));
    assert r.Err?;
    assert reader.HandlesOf() == Handles(true, false, false);
    assert CloseAsWritten(reader.HandlesOf()).Err?;
    reader.Close();
    assert reader.HandlesOf() == Handles(false, false, false);
  }
}
