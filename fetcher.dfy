/**
  The reading fetcher: one object per connection-settings string, holding
  the member session used by Last fetches.  Every other fetch kind opens a
  session of its own from the settings, prepares one statement, and (for the
  multi-device kinds) rebinds the device id and re-executes it per device.

  Each fetch method is proved against the function of `Strategies` that says
  what its kind computes.  The local sessions of the non-Last kinds are gone
  when the call returns, so what happens to them is returned as a ghost trace.
 */
module Fetcher {
  import opened Readings
  import opened FanOut
  import opened Strategies

  class ReadingFetcher {
    /** m_dbSettings: the connection settings every session is opened from. */
    const dbSettings: string
    /** Everything that has happened to the member session m_sql, in order. */
    var sessionLog: seq<SessionOp>

    /** Opens the member session from the settings. */
    constructor (dbSettings: string)
      ensures this.dbSettings == dbSettings
      ensures sessionLog == [Open(dbSettings)]
    {
      this.dbSettings := dbSettings;
      sessionLog := [Open(dbSettings)];
    }

    /**
      The copy constructor delegates to the settings constructor: the copy
      opens a session of its own from the other's settings, and takes nothing
      of the other's session.
     */
    constructor Copy(other: ReadingFetcher)
      ensures dbSettings == other.dbSettings
      ensures sessionLog == [Open(other.dbSettings)]
    {
      dbSettings := other.dbSettings;
      sessionLog := [Open(other.dbSettings)];
    }

    /**
      fetch(LastReadRequest): ping m_sql and recover it (reconnect on a
      mysql_soci_error, reopen from the settings on any other exception), then
      select the latest row and decode its value in place.
     */
    method FetchLast(store: Store, codec: Codec, req: LastReadRequest) returns (r: Result<Reading, FetchError>)
      modifies this
      ensures r == LastSpec(store, codec, dbSettings, req).result
      ensures sessionLog == old(sessionLog) + LastSpec(store, codec, dbSettings, req).ops
    {
      sessionLog := sessionLog + [Run(Ping)];
      match store.ping {
        case Succeeds =>
        case Raises(MysqlSociError) =>
          sessionLog := sessionLog + [Reconnect];
        case Raises(OtherError) =>
          sessionLog := sessionLog + [Open(dbSettings)];
      }

      var q := LastQuery(req);
      sessionLog := sessionLog + [Run(Select(q))];
      if store.outcome(q).Raises? {
        return Err(Propagated(store.outcome(q).fault));
      }
      var got := store.latest(q);
      if got.None? {
        return Err(NoReadingFound);
      }
      var out := got.value;

      var key := (req.pointId, req.modelId);
      sessionLog := sessionLog + [Run(TypeOf(key))];
      var ty := TypeLookup(store, key);
      if !out.value.Text? {
        return Err(NoReadingFound);  // boost::bad_get
      }
      var decoded := codec.decode(ty, out.value.raw);
      if decoded.None? {
        return Err(NoReadingFound);  // boost::bad_get
      }
      out := out.(value := decoded.value);
      r := Ok(out);
    }

    /**
      fetch(RangeReadRequest): the delivered rows whose value decodes, in
      delivered order; rows that raise bad_get are skipped.
     */
    method FetchRange(store: Store, codec: Codec, req: RangeReadRequest)
      returns (r: Result<seq<Reading>, FetchError>, ghost trace: seq<SessionOp>)
      ensures r == RangeSpec(store, codec, dbSettings, req).result
      ensures trace == RangeSpec(store, codec, dbSettings, req).ops
      ensures r.Ok? && store.outcome(RangeQuery(req)) == Succeeds && store.rows(RangeQuery(req)) != [] ==>
        |r.value| <= |store.rows(RangeQuery(req))|
    {
      var q := RangeQuery(req);
      trace := [Open(dbSettings), Run(Select(q))];
      var read := codec.blank;
      var pending: seq<Reading> := [];
      match store.outcome(q) {
        case Raises(OtherError) =>
          return Err(Propagated(OtherError)), trace;
        case Raises(MysqlSociError) =>
          trace := trace + [Reconnect];
        case Succeeds =>
          var rows := store.rows(q);
          if rows != [] {
            read, pending := rows[0], rows[1..];
          }
      }

      var key := (req.pointId, req.modelId);
      trace := trace + [Run(TypeOf(key))];
      var ty := TypeLookup(store, key);
      if req.limit < 0 {
        return Err(Propagated(OtherError)), trace;  // readings.reserve(limit): std::length_error
      }
      var gotData := key in store.pointTypes;  // got_data() of the type lookup

      var readings: seq<Reading> := [];
      if gotData {
        ghost var seen := [read] + pending;
        var i, more := 0, true;
        while more
          invariant 0 <= i <= |seen|
          invariant more <==> i < |seen|
          invariant more ==> read == seen[i]
          invariant readings == Keep(codec, ty, seen[..i])
          decreases |seen| - i
        {
          assert seen[..i + 1][..i] == seen[..i];
          if read.value.Text? {
            var v := codec.decode(ty, read.value.raw);
            if v.Some? {
              read := read.(value := v.value);
              readings := readings + [read];
            }
          }
          i := i + 1;
          // stmt.fetch()
          if i - 1 < |pending| {
            read := pending[i - 1];
          } else {
            more := false;
          }
        }
        assert seen[..i] == seen;
      }
      r := Ok(readings);
    }

    /**
      The grouped loop shared by Yesterday, Today, Day, Month and Year, on a
      session of its own: per device, rebind, execute (with `recover`, a
      mysql_soci_error is answered by a reconnect), drain the buckets with the
      do/while, insert.
     */
    method FanOutGrouped(store: Store, kind: QueryKind, modelId: int, pointId: int, recover: bool,
                         ids: seq<DeviceId>)
      returns (r: Result<map<DeviceId, seq<Bucket>>, FetchError>, ghost trace: seq<SessionOp>)
      ensures r == GroupedFanOut(store, kind, modelId, pointId, recover, ids).result
      ensures trace == [Open(dbSettings)] + GroupedFanOut(store, kind, modelId, pointId, recover, ids).ops
    {
      ghost var step := GroupedStepper(store, kind, modelId, pointId, recover);
      ghost var full := GroupedFanOut(store, kind, modelId, pointId, recover, ids);
      ghost var done: seq<SessionOp> := [];
      var gotData := false;            // a session just opened has no data
      var avg: Bucket := (0, 0.0);     // pair<int, double> avg;
      var devMap: map<DeviceId, seq<Bucket>> := map[];
      var i := 0;
      while i < |ids|
        invariant 0 <= i <= |ids|
        invariant full == Resume(done, Fold(step, Cursor(gotData, avg), ids[i..], devMap))
      {
        var deviceId := ids[i];
        FoldAdvance(step, Cursor(gotData, avg), ids, i, devMap, done);
        GroupedStepperApplies(store, kind, modelId, pointId, recover, Cursor(gotData, avg), deviceId);
        var avgs;
        ghost var ops;
        avgs, gotData, avg, ops := GroupedPass(store, kind, modelId, pointId, recover, gotData, avg, deviceId);
        done := done + ops;
        if avgs.Err? {
          return Err(avgs.error), [Open(dbSettings)] + done;
        }
        devMap := Insert(devMap, deviceId, avgs.value);
        i := i + 1;
      }
      r, trace := Ok(devMap), [Open(dbSettings)] + done;
    }

    /** The scalar loop shared by Accumulated and Average, on a session of its own. */
    method FanOutScalar(store: Store, kind: QueryKind, modelId: int, pointId: int, ids: seq<DeviceId>)
      returns (r: Result<map<DeviceId, real>, FetchError>, ghost trace: seq<SessionOp>)
      ensures r == ScalarFanOut(store, kind, modelId, pointId, ids).result
      ensures trace == [Open(dbSettings)] + ScalarFanOut(store, kind, modelId, pointId, ids).ops
    {
      ghost var step := ScalarStepper(store, kind, modelId, pointId);
      ghost var full := ScalarFanOut(store, kind, modelId, pointId, ids);
      ghost var done: seq<SessionOp> := [];
      var total: real := 0.0;
      var devMap: map<DeviceId, real> := map[];
      var i := 0;
      while i < |ids|
        invariant 0 <= i <= |ids|
        invariant full == Resume(done, Fold(step, (), ids[i..], devMap))
      {
        var deviceId := ids[i];
        FoldAdvance(step, (), ids, i, devMap, done);
        var q := Query(kind, deviceId, modelId, pointId);
        done := done + [Run(Select(q))];
        if store.outcome(q).Raises? {
          return Err(Propagated(store.outcome(q).fault)), [Open(dbSettings)] + done;
        }
        var fetched := store.aggregate(q);
        if fetched.None? {  // ind != i_ok
          total := 0.0;
        } else {
          total := fetched.value;
        }
        devMap := Insert(devMap, deviceId, total);
        i := i + 1;
      }
      r, trace := Ok(devMap), [Open(dbSettings)] + done;
    }

    /** fetch(YesterdayReadRequest): hourly averages of yesterday per device; nothing is caught. */
    method FetchYesterday(store: Store, req: YesterdayReadRequest)
      returns (r: Result<map<DeviceId, seq<Bucket>>, FetchError>, ghost trace: seq<SessionOp>)
      ensures r == GroupedFanOut(store, YesterdayHours, req.modelId, req.pointId, false, req.deviceIds).result
      ensures trace == [Open(dbSettings)] +
        GroupedFanOut(store, YesterdayHours, req.modelId, req.pointId, false, req.deviceIds).ops
      ensures r.Ok? ==> r.value.Keys == IdSet(req.deviceIds)
    {
      r, trace := FanOutGrouped(store, YesterdayHours, req.modelId, req.pointId, false, req.deviceIds);
      GroupedKeys(store, YesterdayHours, req.modelId, req.pointId, false, req.deviceIds);
    }

    /** fetch(TodayReadRequest): hourly averages of today per device; a mysql_soci_error is recovered. */
    method FetchToday(store: Store, req: TodayReadRequest)
      returns (r: Result<map<DeviceId, seq<Bucket>>, FetchError>, ghost trace: seq<SessionOp>)
      ensures r == GroupedFanOut(store, TodayHours, req.modelId, req.pointId, true, req.deviceIds).result
      ensures trace == [Open(dbSettings)] +
        GroupedFanOut(store, TodayHours, req.modelId, req.pointId, true, req.deviceIds).ops
      ensures r.Ok? ==> r.value.Keys == IdSet(req.deviceIds)
      ensures r.Ok? ==> forall k :: k in r.value ==>
        r.value[k] == if store.outcome(Query(TodayHours, k, req.modelId, req.pointId)) == Succeeds
                      then store.buckets(Query(TodayHours, k, req.modelId, req.pointId)) else []
    {
      r, trace := FanOutGrouped(store, TodayHours, req.modelId, req.pointId, true, req.deviceIds);
      GroupedKeys(store, TodayHours, req.modelId, req.pointId, true, req.deviceIds);
      if r.Ok? {
        GroupedFails(store, TodayHours, req.modelId, req.pointId, true, req.deviceIds);
        forall i | 0 <= i < |req.deviceIds|
          ensures store.outcome(Query(TodayHours, req.deviceIds[i], req.modelId, req.pointId)) != Raises(OtherError)
        {
          assert GroupedFault(store, TodayHours, req.modelId, req.pointId, true, req.deviceIds[i]).None?;
        }
        TodayEntries(store, req.modelId, req.pointId, req.deviceIds);
      }
    }

    /** fetch(DayReadRequest): hourly averages of the given day per device; nothing is caught. */
    method FetchDay(store: Store, req: DayReadRequest)
      returns (r: Result<map<DeviceId, seq<Bucket>>, FetchError>, ghost trace: seq<SessionOp>)
      ensures r == GroupedFanOut(store, DayHours(req.day), req.modelId, req.pointId, false, req.deviceIds).result
      ensures trace == [Open(dbSettings)] +
        GroupedFanOut(store, DayHours(req.day), req.modelId, req.pointId, false, req.deviceIds).ops
      ensures r.Ok? ==> r.value.Keys == IdSet(req.deviceIds)
    {
      r, trace := FanOutGrouped(store, DayHours(req.day), req.modelId, req.pointId, false, req.deviceIds);
      GroupedKeys(store, DayHours(req.day), req.modelId, req.pointId, false, req.deviceIds);
    }

    /** fetch(MonthReadRequest): daily averages of the given month per device; nothing is caught. */
    method FetchMonth(store: Store, req: MonthReadRequest)
      returns (r: Result<map<DeviceId, seq<Bucket>>, FetchError>, ghost trace: seq<SessionOp>)
      ensures r == GroupedFanOut(store, MonthDays(req.month), req.modelId, req.pointId, false, req.deviceIds).result
      ensures trace == [Open(dbSettings)] +
        GroupedFanOut(store, MonthDays(req.month), req.modelId, req.pointId, false, req.deviceIds).ops
      ensures r.Ok? ==> r.value.Keys == IdSet(req.deviceIds)
    {
      r, trace := FanOutGrouped(store, MonthDays(req.month), req.modelId, req.pointId, false, req.deviceIds);
      GroupedKeys(store, MonthDays(req.month), req.modelId, req.pointId, false, req.deviceIds);
    }

    /** fetch(YearReadRequest): monthly averages of the given year per device; nothing is caught. */
    method FetchYear(store: Store, req: YearReadRequest)
      returns (r: Result<map<DeviceId, seq<Bucket>>, FetchError>, ghost trace: seq<SessionOp>)
      ensures r == GroupedFanOut(store, YearMonths(req.year), req.modelId, req.pointId, false, req.deviceIds).result
      ensures trace == [Open(dbSettings)] +
        GroupedFanOut(store, YearMonths(req.year), req.modelId, req.pointId, false, req.deviceIds).ops
      ensures r.Ok? ==> r.value.Keys == IdSet(req.deviceIds)
    {
      r, trace := FanOutGrouped(store, YearMonths(req.year), req.modelId, req.pointId, false, req.deviceIds);
      GroupedKeys(store, YearMonths(req.year), req.modelId, req.pointId, false, req.deviceIds);
    }

    /** fetch(AccumulatedReadRequest): the sum over the window per device, 0 when null. */
    method FetchAccumulated(store: Store, req: AccumulatedReadRequest)
      returns (r: Result<map<DeviceId, real>, FetchError>, ghost trace: seq<SessionOp>)
      ensures r == ScalarFanOut(store, Sum(req.start, req.stop), req.modelId, req.pointId, req.deviceIds).result
      ensures trace == [Open(dbSettings)] +
        ScalarFanOut(store, Sum(req.start, req.stop), req.modelId, req.pointId, req.deviceIds).ops
      ensures r.Ok? ==> r.value.Keys == IdSet(req.deviceIds)
    {
      r, trace := FanOutScalar(store, Sum(req.start, req.stop), req.modelId, req.pointId, req.deviceIds);
      ScalarResult(store, Sum(req.start, req.stop), req.modelId, req.pointId, req.deviceIds);
    }

    /** fetch(AverageReadRequest): the average over the window per device, 0 when null. */
    method FetchAverage(store: Store, req: AverageReadRequest)
      returns (r: Result<map<DeviceId, real>, FetchError>, ghost trace: seq<SessionOp>)
      ensures r == ScalarFanOut(store, Mean(req.start, req.stop), req.modelId, req.pointId, req.deviceIds).result
      ensures trace == [Open(dbSettings)] +
        ScalarFanOut(store, Mean(req.start, req.stop), req.modelId, req.pointId, req.deviceIds).ops
      ensures r.Ok? ==> r.value.Keys == IdSet(req.deviceIds)
    {
      r, trace := FanOutScalar(store, Mean(req.start, req.stop), req.modelId, req.pointId, req.deviceIds);
      ScalarResult(store, Mean(req.start, req.stop), req.modelId, req.pointId, req.deviceIds);
    }
  }

  /**
    Two fetchers, one copied from the other: a Last fetch on the original
    leaves the copy's session as the copy constructor opened it.
   */
  method CopyIsIndependent(store: Store, codec: Codec, settings: string, req: LastReadRequest)
    returns (copyLog: seq<SessionOp>)
    ensures copyLog == [Open(settings)]
  {
    var original := new ReadingFetcher(settings);
    var copy := new ReadingFetcher.Copy(original);
    var _ := original.FetchLast(store, codec, req);
    copyLog := copy.sessionLog;
  }

  /**
    The body of a grouped loop for one device: execute the bound statement
    (with `recover`, a mysql_soci_error is answered by a reconnect and the
    statement is not executed again), then drain it.  `gotData` and `avg` are
    the session's got_data() flag and the bound variable, which carry over.
   */
  method GroupedPass(store: Store, kind: QueryKind, modelId: int, pointId: int, recover: bool,
                     gotData: bool, avg: Bucket, deviceId: DeviceId)
    returns (avgs: Result<seq<Bucket>, FetchError>, gotData': bool, avg': Bucket, ghost ops: seq<SessionOp>)
    ensures avgs == GroupedStep(store, kind, modelId, pointId, recover, Cursor(gotData, avg), deviceId).outcome
    ensures Cursor(gotData', avg') ==
            GroupedStep(store, kind, modelId, pointId, recover, Cursor(gotData, avg), deviceId).state
    ensures ops == GroupedStep(store, kind, modelId, pointId, recover, Cursor(gotData, avg), deviceId).ops
  {
    var q := Query(kind, deviceId, modelId, pointId);
    ops := [Run(Select(q))];
    gotData', avg' := gotData, avg;
    var pending: seq<Bucket> := [];
    match store.outcome(q) {
      case Succeeds =>
        var rows := store.buckets(q);
        gotData' := rows != [];
        if gotData' {
          avg', pending := rows[0], rows[1..];
        }
      case Raises(f) =>
        if recover && f == MysqlSociError {
          ops := ops + [Reconnect];
        } else {
          return Err(Propagated(f)), gotData', avg', ops;
        }
    }
    var drained;
    drained, avg' := DrainBuckets(gotData', avg', pending);
    gotData' := false;  // the last stmt.fetch() reported no row, or the drain never started
    avgs := Ok(drained);
  }

  /** `if (got_data()) do { avgs.push_back(avg); } while (stmt.fetch());` */
  method DrainBuckets(gotData: bool, avg: Bucket, pending: seq<Bucket>) returns (avgs: seq<Bucket>, avg': Bucket)
    ensures avgs == Drain(gotData, avg, pending)
    ensures avg' == if gotData then LastOf(avg, pending) else avg
  {
    avgs, avg' := [], avg;
    if gotData {
      avgs := avgs + [avg'];
      var j := 0;
      while j < |pending|  // while (stmt.fetch())
        invariant 0 <= j <= |pending|
        invariant avgs == [avg] + pending[..j]
        invariant avg' == LastOf(avg, pending[..j])
      {
        avg' := pending[j];
        avgs := avgs + [avg'];
        j := j + 1;
        assert pending[..j] == pending[..j - 1] + [pending[j - 1]];
      }
      assert pending[..j] == pending;
    }
  }
}
