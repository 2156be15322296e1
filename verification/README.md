# backtrategy core in Dafny

A model of the nucleus of the `backtrategy` backtesting library: the market clock
that replays a price table one row at a time (`DataSet`), and the state machines of
orders (`Order`) and positions (`Position`). Everything is an immutable datatype with
pure transition functions; a Python method that mutates its object and returns a
flag becomes a function returning the pair `(flag, new value)`.

- `wrappers.dfy` — `Option` and `Result` (a Python exception becomes a `Failure`).
- `enums.dfy` — the enumerations, and `Timestamp` (`NaT` or an instant) for numpy's `datetime64`.
- `dataset.dfy` — module `DataSets`: `TickRepr`, the table as a set of column names plus a
  sequence of rows (each row a map from column name to an opaque value), and the cursor.
  The Python generator is an explicit cursor: the index of the next row to yield.
- `order.dfy` — module `Orders`: construction, `total_money`, `cancel_order`, `execute_order`
  and the `is_*_order` predicates.
- `position.dfy` — module `Positions`: opening a position, the validator, `partial_close`, `close`.

Behaviour the model keeps exactly as the code has it, though names or messages in the
source suggest otherwise:

- A `partial_closed` position accepts no further `close` or `partial_close`: both reject
  unless the position is `open`. So "partial close 4 of 10, then close the other 6" ends
  with the second call refused (`Positions.PartialThenCloseScenario`), although the
  `partial_closed` state name suggests a position that can still be closed.
- The remaining quantity is not kept non-negative: `partial_close` bounds only orders
  whose effect is `partial_close`, so a close-effect order can overdraw it
  (`Positions.CloseEffectOverdraws`).
- `close` runs the same validator, so it too refuses a partial-close-effect order larger
  than the remaining quantity. Orders of any other effect are accepted whatever their quantity.
- `execute_order` and `cancel_order` assign `np.datetime64()`, which is "not a time", so the
  executed and cancel times stay `NaT`, although the `executed_time` and `cancel_time` field
  names suggest the moment of the transition.
- `is_active` returns `iterator == None`, so it is false for every constructed data set
  (`DataSets.NeverActive`). The model keeps that literal meaning.
- `is_closed_order` tests for the order state `close`, which no operation produces
  (`Orders.OneTransition`). It is not a test of the order's effect.

The opening-order check of `Position` sits in `__post__init__`, which dataclasses never
call, and as written it rejects only when the effect is not `open` AND the order is
not executed. The model enforces the evidently intended check, effect `open` and state
`executed`, in `Positions.OpenPosition` (see Findings).

The source's `current_quantity` reads the opening order's quantity through the
`quantity` property. The model stores one counter, `remaining`. The two agree wherever
the validator reads the value, because that only happens while the position is `open`
(`Positions.CurrentQuantityWhileOpen`).

## Model

| member | source | states |
|---|---|---|
| DataSets.CheckColumns | backtrategy/backtrategy.py:63-74 | the time, ask and bid names must be columns, and the volume name must be empty or a column; the error names the first missing role in the order time, ask, bid, volume, together with that role's configured column name |
| DataSets.Start | backtrategy/backtrategy.py:59-83 | construction succeeds iff every configured column exists; a failure carries `CheckColumns`' error: the first missing role and its configured name; on success the data set holds the given table, exactly one row has been consumed (none for an empty table) and its current row is the first row (absent for an empty table) |
| DataSets.Begin | backtrategy/backtrategy.py:82-83 | a fresh generator followed by one `next_data` consumes exactly one row (none for an empty table) and leaves the first row current, with the cursor in step with it |
| DataSets.NextData | backtrategy/backtrategy.py:98-104 | returns exactly the row it stores as current; a row is returned iff the cursor is before the end, and it is the row under the cursor; the cursor moves one row on and stops at the end; the table is untouched |
| DataSets.ResetIterator | backtrategy/backtrategy.py:85-86 | the cursor goes back to the first row while the current row and the table stay as they were |
| DataSets.SetData | backtrategy/backtrategy.py:109-112 | rebinding succeeds under the same column condition as construction, a failure carries `CheckColumns`' error: the first missing role and its configured name, keeps the classification, and restarts on the new table's first row |
| DataSets.CurrentField | backtrategy/backtrategy.py:91-92 | a field read succeeds iff there is a current row (`DataSets.CurrentData`, `get_current_data`) holding that field; otherwise it fails with no-current-row or field-not-found |
| DataSets.AdvanceWalk | backtrategy/backtrategy.py:94-104 | after k calls from cursor i the cursor is at min(i+k, N) and the current row is row i+k-1, or absent past the end |
| DataSets.FreshWalk | backtrategy/test/backtrategy_test.py:17-45 | from construction, the k-th call (construction being call 0) shows row k while k < N and nothing afterwards: exactly N rows are shown |
| DataSets.ExhaustedStaysExhausted | backtrategy/backtrategy.py:98-104 | once exhausted, any number of further calls return none and change nothing |
| DataSets.ResetRestartsWalk | backtrategy/backtrategy.py:85-96 | after a reset the current row is unchanged, and the (k+1)-th call shows row k again, whatever the state before |
| DataSets.NeverActive | backtrategy/backtrategy.py:114-115 | `DataSets.IsActive` (`is_active`) is false after construction and after any calls of `next_data` and `reset_iterator` |
| DataSets.StartCurrentTime | backtrategy/backtrategy.py:106-107 | right after construction, `DataSets.CurrentTime` (`current_time`) is the first row's time column, or a no-current-row failure for an empty table |
| DataSets.LastRow | backtrategy/test/backtrategy_test.py:28-45 | consuming rows until none is current leaves the cursor at the end and the current row absent, with the last row seen being the table's last row |
| Orders.Request | backtrategy/backtrategy.py:166-173 | an order built from the defaults keeps every given argument as its field (the creation time and id standing for the shared class-level defaults) and starts `open` with zero take-profit and stop-loss and no executed or cancel time |
| Orders.NewOrder | backtrategy/backtrategy.py:175-178 | construction fails iff the effect is close or partial_close and the parent id is empty; otherwise the fields are kept as given |
| Orders.RequestStartsOpen | backtrategy/backtrategy.py:166-178 | a defaults-built order is accepted iff its effect is `open` or it has a parent id, and an accepted one is `open` and not in the `close` state |
| Orders.TotalMoney | backtrategy/backtrategy.py:180-181 | the notional value divided by a non-zero price gives back the quantity; it is zero when either factor is zero and non-negative when both are |
| Orders.CancelOrder | backtrategy/backtrategy.py:183-188 | succeeds iff the order is open; success moves it to canceled, changes only the state and cancel time, and stores NaT as the cancel time; failure changes nothing |
| Orders.ExecuteOrder | backtrategy/backtrategy.py:190-195 | succeeds iff the order is open; success moves it to executed, changes only the state and executed time, and stores NaT as the executed time; failure changes nothing |
| Orders.TerminalStates | backtrategy/backtrategy.py:183-195 | from executed or canceled, every sequence of cancel/execute calls succeeds zero times and leaves the order unchanged |
| Orders.OneTransition | backtrategy/backtrategy.py:183-207 | from open, the first call succeeds and is the only success; the final state is executed or canceled according to that call, so `Orders.IsExecutedOrder`/`Orders.IsCanceledOrder` follow that call and `Orders.IsOpenOrder` and `Orders.IsClosedOrder` are false |
| Positions.AsWrittenAdmitsInvalidOpening | backtrategy/backtrategy.py:219-221 | the written guard admits an invalid opening order exactly when one of "effect is open" and "state is executed" holds without the other; it admits every valid one |
| Positions.OpenPosition | backtrategy/backtrategy.py:219-223 | a position opens iff the order is executed with effect `open`; it starts `open` with remaining equal to the order's quantity, no closing orders, the order's id as its id, and (through `Position.OpenPrice`) the order's price as its opening price |
| Positions.PartialClose | backtrategy/backtrategy.py:257-279 | accepts iff the position is open and `Positions.ValidateOrder` (`__validate_order`) passes: asset id and type match, the side is opposite, the order is executed, and a partial-close-effect order does not exceed the remaining quantity; acceptance appends the order, subtracts its quantity, and leaves the position closed iff nothing remains, else partial_closed; rejection changes nothing |
| Positions.Close | backtrategy/backtrategy.py:257-291 | accepts under exactly the same conditions as `partial_close`, the position being open and `Positions.ValidateOrder` passing; acceptance appends the order, sets remaining to zero and closes the position whatever the order's quantity; rejection changes nothing |
| Positions.NotOpenIsFrozen | backtrategy/backtrategy.py:266-291 | a closed or partial_closed position rejects every further sequence of close calls and does not change |
| Positions.AtMostOneClose | backtrategy/backtrategy.py:266-291 | on an open position any sequence of calls accepts at most one closing order; before it nothing changes; after it the position is no longer open, has one more closing order, and is closed iff nothing remains |
| Positions.OpenTimeIsNaT | backtrategy/backtrategy.py:253-255 | a position opened from an order that `execute_order` executed reports NaT as its opening time (`Position.OpenTime`), since the executed time stored is `np.datetime64()` |
| Positions.CurrentQuantityWhileOpen | backtrategy/backtrategy.py:241-247 | while a position opened from an order is still open, its current quantity equals the opening order's quantity, whatever calls were made |
| Positions.CloseEffectOverdraws | backtrategy/backtrategy.py:261-279 | a valid close-effect order larger than the remaining quantity is accepted by `partial_close`, leaving a negative remaining quantity and the state partial_closed |
| Positions.PartialThenCloseScenario | backtrategy/backtrategy.py:266-291 | long 10 opened, short 4 partially closed leaves 6 and partial_closed; a following close of 6 is refused and changes nothing |

## Left out

- Tick: the `Tick` record and `DataStats` are never used by any operation.
- pandas mechanics: the `Index` key that `itertuples()._asdict()` adds to each row, the renaming of columns that are not identifiers, start with `_` or repeat, and the coercion of the time column with `pd.to_datetime` (foreign date parsing), including the `timefmt` argument. A row of the model is a map from column name to value, taken from the table after coercion.
- DataSets.Start: (and `DataSets.SetData`) "succeeds iff every configured column exists" assumes the time column parses; `pd.to_datetime` raises on an unparseable time column (backtrategy/backtrategy.py:76-80), a failure the model does not have. The coercion also writes the parsed column back into the caller's table; the model's table is the one after that write.
- DataSets.StartCurrentTime: requires every row to hold every column under its own name (`RowsComplete`). `itertuples` renames columns that are not identifiers, start with `_` or repeat, and for those `get_current_field` and `current_time` by the configured name raise `KeyError`; the lemma says nothing about such tables.
- The text of the `ValueError` messages. The volume check's message labels the column "bid"; the model records the role instead.
- DataSets.NextData: requires a live generator. Python raises `TypeError` on `next(None)`, but no constructed data set lacks a generator (`DataSets.NeverActive`).
- SetData: a `set_data` that raises has already rebound `data` and `repr` on the object; the model returns only the error, not that half-updated object.
- Timestamps and ids: `np.datetime64('now')` and `Ksuid()` are clock and random-id calls, evaluated once as class-level defaults. They are parameters of `Orders.Request`.
- `Decimal` arithmetic is modelled with exact reals; the floats of the tests are not modelled.
- The Python crashes of `Position`: the `quantity` field shadowed by a read-only property, the `close_order` list defaulting to `None` and then appended to, and the misspelled `__post__init__`. The model follows the evident logic: one remaining counter, an empty closing-order sequence, and the opening check at construction.
- Take-profit and stop-loss values are stored and never read by any operation.
- The duplicated `DataType` enum collapses to its second definition, kept as an opaque classification tag; the unused `talipp`, `PriorityQueue` and `ABCMeta` imports are not modelled.

## Findings

| source | as written | input that shows it | evidently intended | confidence | as-written member | corrected member |
|---|---|---|---|---|---|---|
| backtrategy/backtrategy.py:219-221 | the opening-order guard rejects only when the effect is not `open` and the order is not executed, and it sits in `__post__init__`, which is never called | an opening order of effect `open` still in state `open` (never executed) passes the guard | reject unless the effect is `open` and the order is executed, as the message "open_order must be an executed trade" says | medium, not executed | Positions.AsWrittenAdmitsInvalidOpening | Positions.OpenPosition |
