/**
  Values, requests and the abstract backing store of the reading-fetch
  subsystem.

  The SQL that the fetcher sends is evaluated by MySQL, so the store is an
  oracle: for every bound statement (a `Query`) it says whether executing it
  raises, and what it delivers.  The decoder of raw stored text and the
  default-constructed Reading are defined outside the fetcher, so they are
  inputs too (`Codec`).
 */
module Readings {

  datatype Option<T> = None | Some(value: T)

  datatype Result<T, E> = Ok(value: T) | Err(error: E)

  type DeviceId = string

  /** Key of a row of table Point: (Point id, Model id). */
  type PointKey = (int, int)

  /** A point's value: the raw stored text, or a decoded typed value. */
  datatype PointValue =
    | Text(raw: string)
    | Integer(i: int)
    | Floating(x: real)
    | Boolean(b: bool)

  /** One sample: sample flag, timestamp, value. */
  datatype Reading = Reading(sf: int, t: int, value: PointValue)

  /** One `(bucket, average)` row of a grouped query. */
  type Bucket = (int, real)

  /** The exceptions the fetcher distinguishes. */
  datatype Fault =
    | MysqlSociError  // soci's mysql_soci_error: the session is stale or unreachable
    | OtherError      // any other std::exception

  datatype Outcome = Succeeds | Raises(fault: Fault)

  /** What a fetch reports instead of a result. */
  datatype FetchError =
    | NoReadingFound            // DatabaseError("No Reading found!")
    | Propagated(fault: Fault)  // an exception the fetcher does not catch

  /** The statement prepared by each fetch kind, with its kind-specific parameters. */
  datatype QueryKind =
    | LastRow                                  // order by t desc limit 1
    | RangeRows(start: int, stop: int, limit: int)
    | YesterdayHours                           // group by hour(t), yesterday
    | TodayHours                               // group by hour(t), today
    | DayHours(day: int)                       // group by hour(t)
    | MonthDays(month: int)                    // group by day(t)
    | YearMonths(year: int)                    // group by month(t)
    | Sum(start: int, stop: int)
    | Mean(start: int, stop: int)

  /** A statement with every parameter bound, for one device. */
  datatype Query = Query(kind: QueryKind, deviceId: DeviceId, modelId: int, pointId: int)

  /**
    The database as the fetcher sees it.  `outcome(q)` says whether executing
    `q` raises; `latest`, `rows`, `buckets` and `aggregate` are what an
    execution that succeeds delivers, in delivery order (`aggregate` is None
    when the indicator is not i_ok); `pointTypes` is table Point.
   */
  datatype Store = Store(
    ping: Outcome,
    outcome: Query -> Outcome,
    latest: Query -> Option<Reading>,
    rows: Query -> seq<Reading>,
    buckets: Query -> seq<Bucket>,
    aggregate: Query -> Option<real>,
    pointTypes: map<PointKey, int>)

  /**
    `decode(ty, raw)` is string2point: the typed value for raw text given the
    point type the lookup produced (None when table Point has no row), or
    None when it raises bad_get.  `blank` is a default-constructed Reading.
   */
  datatype Codec = Codec(decode: (Option<int>, string) -> Option<PointValue>, blank: Reading)

  /** The statements a session runs. */
  datatype Stmt = Ping | Select(q: Query) | TypeOf(key: PointKey)

  /** What happens to a session, in order. */
  datatype SessionOp = Open(settings: string) | Reconnect | Run(stmt: Stmt)

  /** The result of a fetch and what it did to the session it used. */
  datatype Traced<T> = Traced(result: Result<T, FetchError>, ops: seq<SessionOp>)

  datatype LastReadRequest = LastReadRequest(deviceId: DeviceId, modelId: int, pointId: int)
  datatype RangeReadRequest =
    RangeReadRequest(deviceId: DeviceId, modelId: int, pointId: int, start: int, stop: int, limit: int)
  datatype YesterdayReadRequest = YesterdayReadRequest(deviceIds: seq<DeviceId>, modelId: int, pointId: int)
  datatype TodayReadRequest = TodayReadRequest(deviceIds: seq<DeviceId>, modelId: int, pointId: int)
  datatype DayReadRequest = DayReadRequest(deviceIds: seq<DeviceId>, modelId: int, pointId: int, day: int)
  datatype MonthReadRequest = MonthReadRequest(deviceIds: seq<DeviceId>, modelId: int, pointId: int, month: int)
  datatype YearReadRequest = YearReadRequest(deviceIds: seq<DeviceId>, modelId: int, pointId: int, year: int)
  datatype AccumulatedReadRequest =
    AccumulatedReadRequest(deviceIds: seq<DeviceId>, modelId: int, pointId: int, start: int, stop: int)
  datatype AverageReadRequest =
    AverageReadRequest(deviceIds: seq<DeviceId>, modelId: int, pointId: int, start: int, stop: int)

  /** `select type from Point where id = :PointId and Model_id = :ModelId`. */
  function TypeLookup(store: Store, key: PointKey): Option<int>
  {
    if key in store.pointTypes then Some(store.pointTypes[key]) else None
  }

  /**
    `string2point(type, boost::get<string>(row.value), row.value)`: the row
    with its value decoded in place, or None when the raw value is not text
    or the decoder rejects it (both are bad_get).
   */
  function DecodeRow(codec: Codec, ty: Option<int>, row: Reading): Option<Reading>
  {
    match row.value
    case Text(raw) =>
      (match codec.decode(ty, raw)
       case Some(v) => Some(row.(value := v))
       case None => None)
    case _ => None
  }
}
