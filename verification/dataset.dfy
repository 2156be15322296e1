/**
 * The market clock: `DataSet`, a restartable cursor over the rows of a price table
 * (backtrategy/backtrategy.py:35-115).
 *
 * The pandas frame is a set of column names and a sequence of rows, taken after the
 * time column has been coerced; a row maps each column name to its value, as
 * `itertuples()._asdict()` yields it less the `Index` key, for columns whose names
 * are identifiers that do not start with `_` (other names are renamed by pandas,
 * which is not modelled). The Python generator is an explicit cursor: the index of
 * the next row it will yield.
 */
module DataSets {
  import opened Wrappers
  import opened Enums

  /** A cell of the table; the model never looks inside one. */
  datatype Value = Text(text: string) | Number(number: real) | Stamp(stamp: Timestamp)

  type Row = map<string, Value>

  /** The tabular price series: its column names and its rows in time order. */
  datatype Frame = Frame(columns: set<string>, rows: seq<Row>)

  /** Which column plays each role; an empty `volume` means the series has no volume. */
  datatype TickRepr = TickRepr(time: string, ask: string, bid: string, volume: string)

  datatype Role = TimeRole | AskRole | BidRole | VolumeRole

  /** The `ValueError` raised when a configured column is missing. */
  datatype DataError = MissingColumn(role: Role, name: string)

  /** `KeyError` for an absent field, `TypeError` for a lookup on an absent row. */
  datatype FieldError = FieldNotFound(name: string) | NoCurrentRow

  /**
   * `cursor` is the `iterator` field: `None` before a generator exists and otherwise the index of the
   * next row to yield; `current` is `current_data`.
   */
  datatype DataSet = DataSet(data: Frame, repr: TickRepr, kind: DataType,
                             cursor: Option<nat>, current: Option<Row>)

  /** A live generator whose position lies within the table. */
  predicate HasCursor(ds: DataSet) {
    ds.cursor.Some? && ds.cursor.value <= |ds.data.rows|
  }

  /**
   * `current` is the row the last `next_data` yielded: the one just before the
   * cursor, or nothing once the rows have run out.
   */
  predicate InStep(ds: DataSet) {
    && HasCursor(ds)
    && (ds.current.Some? ==>
          0 < ds.cursor.value && ds.current.value == ds.data.rows[ds.cursor.value - 1])
    && (ds.current.None? ==> ds.cursor.value == |ds.data.rows|)
  }

  /** The column checks of `__start`, in the order the source makes them. */
  function CheckColumns(data: Frame, repr: TickRepr): (r: Option<DataError>)
    ensures r.None? <==>
              && repr.time in data.columns
              && repr.ask in data.columns
              && repr.bid in data.columns
              && (repr.volume != "" ==> repr.volume in data.columns)
    ensures r.Some? && r.value.role == TimeRole ==> r.value.name == repr.time && repr.time !in data.columns
    ensures r.Some? && r.value.role == AskRole ==> r.value.name == repr.ask && repr.time in data.columns && repr.ask !in data.columns
    ensures r.Some? && r.value.role == BidRole ==>
              r.value.name == repr.bid && repr.time in data.columns && repr.ask in data.columns && repr.bid !in data.columns
    ensures r.Some? && r.value.role == VolumeRole ==>
              && r.value.name == repr.volume
              && repr.time in data.columns && repr.ask in data.columns && repr.bid in data.columns
              && repr.volume != "" && repr.volume !in data.columns
  {
    if repr.time !in data.columns then Some(MissingColumn(TimeRole, repr.time))
    else if repr.ask !in data.columns then Some(MissingColumn(AskRole, repr.ask))
    else if repr.bid !in data.columns then Some(MissingColumn(BidRole, repr.bid))
    else if repr.volume != "" && repr.volume !in data.columns then Some(MissingColumn(VolumeRole, repr.volume))
    else None
  }

  /** `next_data`: yields the row under the cursor and stores it, or stores `None` once the rows are used up. */
  function NextData(ds: DataSet): (r: (Option<Row>, DataSet))
    requires HasCursor(ds)
    ensures r.0 == r.1.current
    ensures r.0.Some? <==> ds.cursor.value < |ds.data.rows|
    ensures r.0.Some? ==> r.0.value == ds.data.rows[ds.cursor.value]
    ensures r.1.cursor == Some(if r.0.Some? then ds.cursor.value + 1 else |ds.data.rows|)
    ensures r.1.data == ds.data && r.1.repr == ds.repr && r.1.kind == ds.kind
    ensures InStep(r.1)
  {
    var i := ds.cursor.value;
    if i < |ds.data.rows| then
      var row := ds.data.rows[i];
      (Some(row), ds.(cursor := Some(i + 1), current := Some(row)))
    else
      (None, ds.(current := None))
  }

  /** `__start` after the checks: a fresh generator, then the first `next_data`. */
  function Begin(data: Frame, repr: TickRepr, kind: DataType): (ds: DataSet)
    ensures ds.data == data && ds.repr == repr && ds.kind == kind
    ensures InStep(ds)
    ensures ds.cursor == Some(if |data.rows| == 0 then 0 else 1)
    ensures ds.current == (if |data.rows| == 0 then None else Some(data.rows[0]))
  {
    NextData(DataSet(data, repr, kind, Some(0), None)).1
  }

  /**
   * Construction (`__post_init__` calling `__start`): fails on the first configured
   * column missing from the table, otherwise positions the cursor on the first row.
   */
  function Start(data: Frame, repr: TickRepr, kind: DataType): (r: Result<DataSet, DataError>)
    ensures r.Success? <==>
              && repr.time in data.columns
              && repr.ask in data.columns
              && repr.bid in data.columns
              && (repr.volume != "" ==> repr.volume in data.columns)
    ensures r.Failure? ==> r.error.name in {repr.time, repr.ask, repr.bid, repr.volume}
                           && r.error.name !in data.columns
    ensures r.Failure? ==> CheckColumns(data, repr) == Some(r.error)
    ensures r.Success? ==> r.value.data == data && r.value.repr == repr && r.value.kind == kind
    ensures r.Success? ==> InStep(r.value)
    ensures r.Success? ==> r.value.cursor == Some(if |data.rows| == 0 then 0 else 1)
    ensures r.Success? ==> r.value.current == (if |data.rows| == 0 then None else Some(data.rows[0]))
  {
    match CheckColumns(data, repr)
    case Some(e) => Failure(e)
    case None => Success(Begin(data, repr, kind))
  }

  /** `reset_iterator`: a new generator from the first row; `current_data` is left as it was. */
  function ResetIterator(ds: DataSet): (r: DataSet)
    ensures r.cursor == Some(0) && HasCursor(r)
    ensures r.current == ds.current
    ensures r.data == ds.data && r.repr == ds.repr && r.kind == ds.kind
  {
    ds.(cursor := Some(0))
  }

  /** `set_data`: rebinds the table and the column mapping, then starts again. */
  function SetData(ds: DataSet, data: Frame, repr: TickRepr): (r: Result<DataSet, DataError>)
    ensures r.Success? <==>
              && repr.time in data.columns
              && repr.ask in data.columns
              && repr.bid in data.columns
              && (repr.volume != "" ==> repr.volume in data.columns)
    ensures r.Failure? ==> CheckColumns(data, repr) == Some(r.error)
    ensures r.Success? ==> r.value.data == data && r.value.repr == repr && r.value.kind == ds.kind
    ensures r.Success? ==> r.value.current == (if |data.rows| == 0 then None else Some(data.rows[0]))
    ensures r.Success? ==> r.value.cursor == Some(if |data.rows| == 0 then 0 else 1)
  {
    Start(data, repr, ds.kind)
  }

  /** `is_active`, literally: whether no generator exists. */
  predicate IsActive(ds: DataSet) {
    ds.cursor == None
  }

  /** `get_current_data`. */
  function CurrentData(ds: DataSet): (r: Option<Row>) {
    ds.current
  }

  /** `get_current_field`: a field of the current row. */
  function CurrentField(ds: DataSet, field: string): (r: Result<Value, FieldError>)
    ensures r.Success? <==> ds.current.Some? && field in ds.current.value
    ensures r.Success? ==> r.value == ds.current.value[field]
    ensures ds.current.None? ==> r == Failure(NoCurrentRow)
    ensures ds.current.Some? && field !in ds.current.value ==> r == Failure(FieldNotFound(field))
  {
    match ds.current
    case None => Failure(NoCurrentRow)
    case Some(row) => if field in row then Success(row[field]) else Failure(FieldNotFound(field))
  }

  /** `current_time`: the time field of the current row. */
  function CurrentTime(ds: DataSet): (r: Result<Value, FieldError>) {
    CurrentField(ds, ds.repr.time)
  }

  /** The state after `k` further calls of `next_data`. */
  function Advance(ds: DataSet, k: nat): (r: DataSet)
    requires HasCursor(ds)
    ensures HasCursor(r)
    ensures r.data == ds.data && r.repr == ds.repr && r.kind == ds.kind
    decreases k
  {
    if k == 0 then ds else Advance(NextData(ds).1, k - 1)
  }

  /**
   * The walk: after `k >= 1` calls from cursor `i`, the cursor stands at `min(i + k, N)`
   * and the current row is row `i + k - 1`, or absent once that index passes the end.
   */
  lemma {:induction false} AdvanceWalk(ds: DataSet, k: nat)
    requires HasCursor(ds) && k >= 1
    ensures var i, n := ds.cursor.value, |ds.data.rows|;
            && Advance(ds, k).cursor == Some(if i + k <= n then i + k else n)
            && Advance(ds, k).current == (if i + k - 1 < n then Some(ds.data.rows[i + k - 1]) else None)
    decreases k
  {
    var next := NextData(ds).1;
    if k > 1 {
      AdvanceWalk(next, k - 1);
    }
  }

  /**
   * From a freshly constructed data set the `k`-th call of `next_data` (with the row
   * loaded at construction as call 0) shows row `k` while rows remain and `None` from
   * then on: exactly `N` rows are ever shown.
   */
  lemma FreshWalk(data: Frame, repr: TickRepr, kind: DataType, k: nat)
    requires Start(data, repr, kind).Success?
    ensures Advance(Start(data, repr, kind).value, k).current ==
              (if k < |data.rows| then Some(data.rows[k]) else None)
  {
    var ds := Start(data, repr, kind).value;
    if k >= 1 {
      AdvanceWalk(ds, k);
    }
  }

  /** Once the rows are used up, `next_data` returns `None` and changes nothing, however often it is called. */
  lemma {:induction false} ExhaustedStaysExhausted(ds: DataSet, k: nat)
    requires HasCursor(ds) && ds.cursor.value == |ds.data.rows| && ds.current.None?
    ensures Advance(ds, k) == ds
    ensures NextData(ds) == (None, ds)
    decreases k
  {
    if k > 0 {
      ExhaustedStaysExhausted(NextData(ds).1, k - 1);
    }
  }

  /**
   * After `reset_iterator` the walk starts over: the `k + 1`-th call of `next_data`
   * shows row `k` while rows remain, whatever the state before the reset.
   */
  lemma ResetRestartsWalk(ds: DataSet, k: nat)
    requires HasCursor(ds)
    ensures ResetIterator(ds).current == ds.current
    ensures Advance(ResetIterator(ds), k + 1).current ==
              (if k < |ds.data.rows| then Some(ds.data.rows[k]) else None)
  {
    AdvanceWalk(ResetIterator(ds), k + 1);
  }

  /** A constructed data set is never "active": it always holds a generator, whatever calls follow. */
  lemma NeverActive(data: Frame, repr: TickRepr, kind: DataType, k: nat)
    requires Start(data, repr, kind).Success?
    ensures !IsActive(Start(data, repr, kind).value)
    ensures !IsActive(Advance(Start(data, repr, kind).value, k))
    ensures !IsActive(ResetIterator(Advance(Start(data, repr, kind).value, k)))
  {
  }

  /**
   * Every row carries every column of the table under its own name, as `itertuples`
   * yields it when no column needs renaming.
   */
  predicate RowsComplete(data: Frame) {
    forall i :: 0 <= i < |data.rows| ==> data.columns <= data.rows[i].Keys
  }

  /** Right after construction `current_time` is the first row's time, or fails when the table is empty. */
  lemma StartCurrentTime(data: Frame, repr: TickRepr, kind: DataType)
    requires Start(data, repr, kind).Success? && RowsComplete(data)
    ensures |data.rows| == 0 ==> CurrentTime(Start(data, repr, kind).value) == Failure(NoCurrentRow)
    ensures |data.rows| > 0 ==> CurrentTime(Start(data, repr, kind).value) == Success(data.rows[0][repr.time])
  {
    if |data.rows| > 0 {
      assert repr.time in data.rows[0];
    }
  }

  /**
   * The consumer loop of the tests: read `current_data`, then call `next_data`
   * until it stores `None`; `last` is the last row seen.
   */
  method LastRow(ds: DataSet) returns (last: Option<Row>, done: DataSet)
    requires InStep(ds)
    ensures done.current.None? && done.cursor == Some(|ds.data.rows|)
    ensures done.data == ds.data && done.repr == ds.repr && done.kind == ds.kind
    ensures ds.current.Some? ==> last == Some(ds.data.rows[|ds.data.rows| - 1])
    ensures ds.current.None? ==> last.None?
  {
    var n := |ds.data.rows|;
    last := ds.current;
    var step := NextData(ds);
    done := step.1;
    while done.current.Some?
      invariant InStep(done)
      invariant done.data == ds.data && done.repr == ds.repr && done.kind == ds.kind
      invariant done.current.Some? ==> 2 <= done.cursor.value && last == Some(ds.data.rows[done.cursor.value - 2])
      invariant done.current.None? && ds.current.Some? ==> last == Some(ds.data.rows[n - 1])
      invariant ds.current.None? ==> last.None?
      decreases n - done.cursor.value, if done.current.Some? then 1 else 0
    {
      last := done.current;
      step := NextData(done);
      done := step.1;
    }
  }
}
