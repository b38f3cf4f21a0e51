# ReadingFetcher — a verified model of the reading-fetch control flow

`celeste::resource::ReadingFetcher` answers read requests for solar-plant
devices.  There is one `fetch` per request kind:

- Last, Range, Yesterday, Today, Day, Month, Year, Accumulated and Average.

Each kind runs prepared SOCI statements against MySQL.  The fetcher
itself decides how every kind behaves:

- **Fan-out.** It rebinds one device id per loop pass and re-executes the
  same statement.  Each pass's result goes into a `std::map` with
  `insert`, so the first insert wins.
- **The do/while drain.** `do { … } while (stmt.fetch())` collects the rows
  of each execute.
- **Null aggregates.** An aggregate whose indicator is not `i_ok` is
  replaced by `0`.
- **Range decoding.** Rows whose value does not decode are dropped.
- **Last.** It fails with "No Reading found!".
- **Session recovery.**
  - Last pings the member session first.  A `mysql_soci_error` leads to a
    reconnect, and any other exception reopens the session from the stored
    settings.
  - Range and Today catch a `mysql_soci_error` on execute and reconnect
    without executing again.
- **Copying.** The copy constructor opens a fresh session from the other
  fetcher's settings.

This model has four parts:

- **`Readings`** holds the values, requests and the backing store.
  - The SQL runs inside MySQL, so the store is an oracle.  For each fully
    bound statement (`Query`) it says whether executing it raises, and
    what a successful execute delivers.  That is the latest row, the rows,
    the `(bucket, average)` pairs, or an aggregate that may be null.
  - Table `Point` is a map.
  - `string2point` and the default-constructed `Reading` are not part of
    this model, so they are inputs (`Codec`).
- **`FanOut`** holds the per-device loop as one function, `Fold`, over the
  step one loop pass performs.  Its properties are proved once, for every
  kind:
  - the map's key set;
  - first insert wins;
  - the first failing device decides the error;
  - the entries.
- **`Strategies`** says what each kind computes, as functions of the store:
  - `LastSpec` and `PingRecovery`;
  - `RangeSpec` and `Keep`;
  - the grouped and scalar passes that are plugged into `Fold`.

  It also holds the lemmas that state what the source promises about them.
- **`Fetcher`** holds the class `ReadingFetcher`.
  - `sessionLog` records everything that happens to the member session
    `m_sql`.
  - The fetch methods are written imperatively: `while` loops, in-place
    decoding, a map built by insert.  Each is proved equal to its
    `Strategies` function.
  - The kinds other than Last use a session of their own that dies with
    the call.  What happens to it is returned as a ghost trace.

The session's `got_data()` flag is set by every statement that completes
on the session.  A one-time query, `execute(true)` and `stmt.fetch()` each
set it to whether they delivered a row.  A statement whose execute raised
leaves the flag as it was.  Two behaviours of the code follow from this:

- In Range, the guard `sql.got_data()` is tested after the Point-type
  lookup (lines 119-125).  It therefore says whether the Point row exists,
  not whether the range statement delivered rows.  With a Point row and no
  delivered rows, the do/while still runs once, on the default `Reading`
  (`RangeNothingDelivered`; see "## Findings").
- In a grouped loop, every pass that completes leaves the flag false.
  Either `got_data()` was false and the do/while never started, or the
  do/while ended because `stmt.fetch()` delivered no row.  In Today, a
  caught `mysql_soci_error` is not followed by a new execute, so the drain
  reads that false flag.  A recovered device therefore gets an empty
  entry, whatever the devices before it delivered (`TodayEntries`).

Only Range and Today catch an execute error (lines 111-117, 208-214).
Yesterday, Day, Month, Year, Accumulated and Average let a
`mysql_soci_error` propagate (lines 166, 333, 375, 416, 260, 297).  In
every fan-out, an exception the kind does not catch leaves the loop and
the whole call, so no partial map is returned (`GroupedFails`,
`ScalarResult`).

## Model

All source paths are `src/srv/service/Reading/ReadingFetcher.cpp`.

| member | source | states |
|---|---|---|
| Readings.TypeLookup | src/srv/service/Reading/ReadingFetcher.cpp:119-121 | definition: `select type from Point where id = :PointId and Model_id = :ModelId`, the row's type or none when table Point has no such row |
| Readings.DecodeRow | src/srv/service/Reading/ReadingFetcher.cpp:129-134 | definition: `string2point(type, boost::get<string>(read.value), read.value)`, the row with its value decoded in place, or none on bad_get (value not text, or rejected by the decoder) |
| FanOut.Insert | src/srv/service/Reading/ReadingFetcher.cpp:176 | std::map::insert adds the key; an existing key keeps its value; a new key gets the inserted value; no other entry changes |
| FanOut.Fold | src/srv/service/Reading/ReadingFetcher.cpp:163-177 | definition of the loop `for (id : DeviceIds) { deviceId = id; …; devMap.insert(…); }` over the step one pass performs: an exception leaves the loop and the call, otherwise the pass's value is inserted and the next pass starts from the state it left; its properties are the Fold lemmas below |
| FanOut.FoldAdvance | src/srv/service/Reading/ReadingFetcher.cpp:163-177 | one loop pass: a pass that raises ends the fan-out with its error; otherwise its value is inserted and the loop goes on from the state the pass leaves |
| FanOut.FirstFaultNone | src/srv/service/Reading/ReadingFetcher.cpp:163-166 | no device's pass raises exactly when no first fault is found |
| FanOut.FirstFaultIsFirst | src/srv/service/Reading/ReadingFetcher.cpp:163-166 | the reported fault belongs to some requested device, and every device before it passed |
| FanOut.FoldKeys | src/srv/service/Reading/ReadingFetcher.cpp:163-177 | a completed fan-out has exactly one key per distinct requested id, on top of what the map held |
| FanOut.FoldKeepsEarlier | src/srv/service/Reading/ReadingFetcher.cpp:176 | insert never overwrites: a key already present keeps its value to the end of the loop |
| FanOut.FoldFirstWins | src/srv/service/Reading/ReadingFetcher.cpp:163-177 | for a repeated id, the entry is what that id's first pass produced |
| FanOut.FoldError | src/srv/service/Reading/ReadingFetcher.cpp:163-177 | when whether a pass raises depends only on the device, the fan-out fails exactly with the first requested device's fault |
| FanOut.FoldEntries | src/srv/service/Reading/ReadingFetcher.cpp:163-177 | when every pass from a loop state satisfying an invariant delivers want(id) and keeps the invariant, the fan-out from such a state completes; its keys are the earlier keys plus the requested ids, each new id mapped to want(id) |
| Strategies.Drain | src/srv/service/Reading/ReadingFetcher.cpp:220-223 | definition: the values `do { … } while (stmt.fetch())` under `if (got_data())` runs its body on, the bound value and then each further fetched row, or none |
| Strategies.DrainDelivered | src/srv/service/Reading/ReadingFetcher.cpp:166-174 | after execute(true), the drain sees each delivered row exactly once, in delivery order |
| Strategies.Bound | src/srv/service/Reading/ReadingFetcher.cpp:166 | definition: after `execute(true)` the bound variable holds the first delivered row, or keeps what it held when nothing came |
| Strategies.Rest | src/srv/service/Reading/ReadingFetcher.cpp:171-174 | definition: what `stmt.fetch()` still delivers after `execute(true)`, all rows but the first |
| Strategies.LastOf | src/srv/service/Reading/ReadingFetcher.cpp:171-174 | definition: the bound variable after the do/while, the last row fetched or what it held |
| Strategies.PingRecovery | src/srv/service/Reading/ReadingFetcher.cpp:41-51 | the ping runs once and is never retried; success leaves the session alone; mysql_soci_error leads to reconnect; any other exception reopens from the settings |
| Strategies.LastSpec | src/srv/service/Reading/ReadingFetcher.cpp:36-83 | Last succeeds exactly when the select succeeds with a row whose value is text and decodes, returning sf and t with the decoded value. "No Reading found!" is returned exactly when the select succeeds and that fails. A select exception propagates unchanged. The session ops start with the ping recovery, and no ping follows |
| Strategies.Keep | src/srv/service/Reading/ReadingFetcher.cpp:127-135 | the readings kept are never more than the rows given |
| Strategies.KeepAppend | src/srv/service/Reading/ReadingFetcher.cpp:127-135 | decode-and-drop works row by row: over any split of the rows, it is the concatenation of both parts' results, so order is kept |
| Strategies.KeepMember | src/srv/service/Reading/ReadingFetcher.cpp:127-135 | a reading is in the result exactly when some delivered row decodes to it |
| Strategies.KeepAllDecode | src/srv/service/Reading/ReadingFetcher.cpp:127-135 | when every row decodes, nothing is dropped and the i-th result is the i-th row decoded |
| Strategies.RangeGuarded | src/srv/service/Reading/ReadingFetcher.cpp:111-137 | definition of the Range steps for a given do/while guard: execute with reconnect on mysql_soci_error, type lookup, the reserve error for a negative limit, and decode-and-drop over what the do/while sees; RangeSpec passes the lookup's got_data(), RangeOwnData the statement's own |
| Strategies.RangeSpec | src/srv/service/Reading/ReadingFetcher.cpp:86-138 | Range fails exactly when execute raises something other than mysql_soci_error, or the limit is negative so that `reserve` throws, and then with that std::exception; without a Point row the result is empty |
| Strategies.RangeDelivered | src/srv/service/Reading/ReadingFetcher.cpp:111-137 | with a Point row and delivered rows, Range returns exactly the delivered rows that decode, in delivered order, after open, select and type lookup |
| Strategies.RangeNothingDelivered | src/srv/service/Reading/ReadingFetcher.cpp:111-137 | with a Point row but nothing delivered (no rows, or a caught mysql_soci_error), the body runs once, on the default Reading; after the error the session is reconnected and the execute is not repeated |
| Strategies.RangeLongerThanDelivered | src/srv/service/Reading/ReadingFetcher.cpp:119-135 | as written, with no rows delivered but a Point row and a default Reading that decodes, Range returns one reading, more than were delivered |
| Strategies.RangeOwnDataKeepsDelivered | src/srv/service/Reading/ReadingFetcher.cpp:123-137 | with the do/while guarded by the range statement's own data, Range fails exactly as the code does and otherwise returns exactly the delivered rows that decode, in order, never more than were delivered |
| Strategies.GroupedKeys | src/srv/service/Reading/ReadingFetcher.cpp:163-177 | a completed grouped fan-out has exactly one entry per distinct requested device |
| Strategies.GroupedStep | src/srv/service/Reading/ReadingFetcher.cpp:206-225 | definition of one grouped pass: execute and, on success, drain the delivered buckets; with recovery, a mysql_soci_error leads to a reconnect and the drain sees the flag and `avg` the previous pass left; any other exception propagates; a completed pass leaves got_data() false (the last fetch() delivered no row) and `avg` on the last bucket |
| Strategies.GroupedFanOut | src/srv/service/Reading/ReadingFetcher.cpp:163-177 | definition: the grouped loop from a session just opened (got_data() false, avg value-initialised) and an empty map |
| Strategies.GroupedFails | src/srv/service/Reading/ReadingFetcher.cpp:204-214 | a grouped fan-out fails exactly when some device's execute raises something the kind does not catch (for Today, anything but mysql_soci_error; otherwise anything), and then with the first such device's exception |
| Strategies.GroupedEntries | src/srv/service/Reading/ReadingFetcher.cpp:163-177 | when every execute succeeds, each device's entry is exactly the buckets it delivered, in order; a device with no data gets an empty sequence |
| Strategies.TodayFirstRecoveredEmpty | src/srv/service/Reading/ReadingFetcher.cpp:204-225 | in Today, a caught mysql_soci_error on the first device of a fresh session gives that device an empty entry |
| Strategies.TodayEntries | src/srv/service/Reading/ReadingFetcher.cpp:204-225 | when no execute raises anything but mysql_soci_error, Today completes with one entry per distinct requested device: the buckets it delivered, in order, or empty for a device whose execute was recovered, whatever the devices before it delivered |
| Strategies.ScalarResult | src/srv/service/Reading/ReadingFetcher.cpp:257-264 | Accumulated/Average fail exactly when some device's execute raises, with the first such; otherwise there is one entry per distinct device: 0 for a null aggregate, the fetched value otherwise |
| Strategies.OrZero | src/srv/service/Reading/ReadingFetcher.cpp:261-262 | definition: `if (ind != i_ok) total = 0;`, a null aggregate reads as 0 |
| Strategies.ScalarEntries | src/srv/service/Reading/ReadingFetcher.cpp:257-264 | when every execute succeeds, Accumulated/Average complete with one entry per distinct device: the aggregate, or 0 when it is null |
| Strategies.ScalarStep | src/srv/service/Reading/ReadingFetcher.cpp:259-263 | definition of one scalar pass: execute; on success the aggregate, 0 when the indicator is not i_ok; any exception propagates |
| Strategies.ScalarFanOut | src/srv/service/Reading/ReadingFetcher.cpp:257-264 | definition: the scalar loop from an empty map |
| Fetcher.ReadingFetcher.constructor | src/srv/service/Reading/ReadingFetcher.cpp:26-29 | keeps the settings and opens the member session from them |
| Fetcher.ReadingFetcher.Copy | src/srv/service/Reading/ReadingFetcher.cpp:31-33 | a copy keeps the other's settings and opens a fresh session of its own from them |
| Fetcher.ReadingFetcher.FetchLast | src/srv/service/Reading/ReadingFetcher.cpp:36-83 | returns LastSpec's result and appends exactly LastSpec's session ops to the member session |
| Fetcher.ReadingFetcher.FetchRange | src/srv/service/Reading/ReadingFetcher.cpp:86-138 | execute, type lookup, the reserve error and the do/while decode loop return RangeSpec's result and session ops; with rows delivered, the result is no longer than them |
| Fetcher.ReadingFetcher.FanOutGrouped | src/srv/service/Reading/ReadingFetcher.cpp:163-177 | the per-device loop returns the grouped fan-out's map or error; the local session sees an open and then the fan-out's ops |
| Fetcher.ReadingFetcher.FanOutScalar | src/srv/service/Reading/ReadingFetcher.cpp:257-264 | the per-device loop, with null read as 0, returns the scalar fan-out's map or error and its session ops |
| Fetcher.ReadingFetcher.FetchYesterday | src/srv/service/Reading/ReadingFetcher.cpp:141-179 | the grouped fan-out with nothing caught; when it completes, its keys are the requested ids |
| Fetcher.ReadingFetcher.FetchToday | src/srv/service/Reading/ReadingFetcher.cpp:182-228 | the grouped fan-out where a mysql_soci_error leads to reconnect; when it completes, its keys are the requested ids and each entry is its device's delivered buckets, or empty when that device's execute was recovered |
| Fetcher.ReadingFetcher.FetchDay | src/srv/service/Reading/ReadingFetcher.cpp:307-346 | the grouped fan-out with nothing caught; when it completes, its keys are the requested ids |
| Fetcher.ReadingFetcher.FetchMonth | src/srv/service/Reading/ReadingFetcher.cpp:349-388 | the grouped fan-out with nothing caught; when it completes, its keys are the requested ids |
| Fetcher.ReadingFetcher.FetchYear | src/srv/service/Reading/ReadingFetcher.cpp:391-429 | the grouped fan-out with nothing caught; when it completes, its keys are the requested ids |
| Fetcher.ReadingFetcher.FetchAccumulated | src/srv/service/Reading/ReadingFetcher.cpp:231-266 | the scalar fan-out of sums; when it completes, its keys are the requested ids |
| Fetcher.ReadingFetcher.FetchAverage | src/srv/service/Reading/ReadingFetcher.cpp:269-304 | the scalar fan-out of averages; when it completes, its keys are the requested ids |
| Fetcher.CopyIsIndependent | src/srv/service/Reading/ReadingFetcher.cpp:31-33 | a Last fetch on the original leaves the copy's session exactly as the copy constructor opened it |
| Fetcher.GroupedPass | src/srv/service/Reading/ReadingFetcher.cpp:206-225 | one device's pass (execute, optional reconnect, drain) produces the grouped step's value, state and ops; it leaves got_data() false, as the last fetch() does |
| Fetcher.DrainBuckets | src/srv/service/Reading/ReadingFetcher.cpp:217-224 | the do/while pushes exactly the drained buckets, and leaves the bound avg on the last one |

## Left out

- **Query semantics.** The SQL is evaluated by MySQL, and the model has
  only the store oracle.  This covers time windows, `curdate()`, grouping,
  `sum`/`avg`, ordering and `limit`.  The model proves nothing about bucket
  keys, order by time or row counts.
- **Floating point.** `double` values are modelled as `real`.  The fetcher
  only passes them through or assigns `0`.
- **`string2point` and the `Reading` layout.** Neither is part of this
  model, so the decoder is a partial function given as input and the
  default `Reading` is an input.  A `boost::bad_get` from `boost::get` or
  from the decoder is a decode that yields nothing.
- **SOCI internals.**
  - An execute is either `Succeeds` with delivered rows or
    `Raises(MysqlSociError | OtherError)`.
  - `reconnect()` and `open()` are recorded as session ops and always
    succeed.  A failure of recovery itself is not modelled.
  - After a caught execute error, `stmt.fetch()` is assumed to deliver
    nothing more.
  - `got_data()` follows the statements as described above.  The SOCI
    source is not part of this model.
- **The type lookup.** `select type from Point` is assumed never to raise.
  An exception from it in Last or Range would propagate, and the model
  does not represent it.  When table Point has no row, `type` is
  uninitialised in the code.  The model then passes "no type" to the
  decoder.
- **Day without an indicator.** Day binds `into(avg)` with no indicator, so
  SOCI throws for a null average.  That case is folded into the oracle's
  `Raises(OtherError)` for the Day statement.
- **Pre-allocation.** The declared type of `limit` is not part of this
  model; it is an `int`.  A negative limit converts to a size above
  `max_size()`, so `readings.reserve(limit)` throws `std::length_error`,
  and the model returns that error.  A non-negative limit too large to
  allocate (`std::bad_alloc`) is not modelled.  The other `reserve` calls
  affect capacity only.
- **Session lifetime.** The local sessions of the non-Last kinds are closed
  when the call returns.  Their ops are returned as a ghost trace rather
  than kept as state.
- **Thread safety.** Sharing `m_sql` between threads is a concurrency
  matter and is not modelled.
- **Request fields.** Device ids are strings.  Model ids, point ids,
  timestamps, days, months, years and limits are `int`.
- **source/server/db/dao/DeviceRecordDAO.cpp** is not part of this model.
  It is a thin wrapper over MySQL Connector/C++.  Its string logic lives
  in `quote`, `as_comma_list`, `as_quote_vector` and `static_for`, from
  `db/util.hpp` (namespace `solarplant::db::util`), and in the constants
  `pk_columns`, `columns` and `TABLE_NAME` of `DeviceRecordDAO.hpp`.
  Neither header is part of this model.

## Findings

| source | as written | input that shows it | evidently intended | confidence | as-written member | corrected member |
|---|---|---|---|---|---|---|
| src/srv/service/Reading/ReadingFetcher.cpp:119-135 | `sql.got_data()` is tested after the type lookup, so it reports the Point row; the do/while then runs once on the default Reading even when the range statement delivered nothing | range statement succeeds with no rows, table Point has the row, the default Reading's value decodes: one reading is returned for zero delivered | the guard is the range statement's own data, so the result is the delivered rows that decode and is never longer than them | not executed; medium | Strategies.RangeLongerThanDelivered | Strategies.RangeOwnDataKeepsDelivered |

`FetchRange` models the code as written.  The corrected definition
`RangeOwnData` differs from it only in the do/while guard.
