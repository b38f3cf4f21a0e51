/**
  What each fetch kind computes, as functions of the store: the recovery of
  the member session before a Last fetch, the decode-and-drop pipeline of a
  Range fetch, and the per-device passes of the grouped and scalar fan-outs.
  The methods of `Fetcher.ReadingFetcher` are proved against these.
 */
module Strategies {
  import opened Readings
  import opened FanOut

  // ---- the do { ... } while (stmt.fetch()) shape -------------------------

  /**
    `if (got_data()) do { body(cur) } while (stmt.fetch())` runs the body on
    the bound variable `cur` and then on every row fetch() still delivers;
    these are the values the body sees.
   */
  function Drain<T>(gotData: bool, cur: T, pending: seq<T>): seq<T>
  {
    if gotData then [cur] + pending else []
  }

  /** The bound variable after `execute(true)`: the first delivered row, or what it held. */
  function Bound<T>(rows: seq<T>, prev: T): T
  {
    if rows == [] then prev else rows[0]
  }

  /** What fetch() still delivers after `execute(true)`. */
  function Rest<T>(rows: seq<T>): seq<T>
  {
    if rows == [] then [] else rows[1..]
  }

  /** The bound variable after the drain: the last row fetched, or what it held. */
  function LastOf<T>(cur: T, pending: seq<T>): T
  {
    if pending == [] then cur else pending[|pending| - 1]
  }

  /**
    After `execute(true)` on a statement that delivers `rows`, got_data() is
    true iff a row came, the bound variable holds the first row (or keeps
    `prev`), and fetch() delivers the rest: the drain sees each row exactly
    once, in delivery order.
   */
  lemma DrainDelivered<T>(rows: seq<T>, prev: T)
    ensures Drain(rows != [], Bound(rows, prev), Rest(rows)) == rows
  {
  }

  // ---- Last: ping, recover, select, decode --------------------------------

  /** The ping of the member session and the recovery it triggers; never retried. */
  function PingRecovery(ping: Outcome, settings: string): (ops: seq<SessionOp>)
    ensures |ops| >= 1 && ops[0] == Run(Ping)
    ensures forall i :: 1 <= i < |ops| ==> ops[i] != Run(Ping)
    ensures ping == Succeeds <==> ops == [Run(Ping)]
    ensures ping == Raises(MysqlSociError) <==> ops == [Run(Ping), Reconnect]
    ensures ping == Raises(OtherError) <==> ops == [Run(Ping), Open(settings)]
  {
    match ping
    case Succeeds => [Run(Ping)]
    case Raises(MysqlSociError) => [Run(Ping), Reconnect]
    case Raises(OtherError) => [Run(Ping), Open(settings)]
  }

  function LastQuery(req: LastReadRequest): Query
  {
    Query(LastRow, req.deviceId, req.modelId, req.pointId)
  }

  /**
    fetch(LastReadRequest): the latest row with its value decoded in place;
    "No Reading found!" when the query got no data or the value does not
    decode; an exception of the select itself propagates.
   */
  function LastSpec(store: Store, codec: Codec, settings: string, req: LastReadRequest): (r: Traced<Reading>)
    ensures r.result.Ok? <==>
      store.outcome(LastQuery(req)) == Succeeds && store.latest(LastQuery(req)).Some? &&
      DecodeRow(codec, TypeLookup(store, (req.pointId, req.modelId)), store.latest(LastQuery(req)).value).Some?
    ensures r.result.Ok? ==>
      var row := store.latest(LastQuery(req)).value;
      r.result.value.sf == row.sf && r.result.value.t == row.t && row.value.Text? &&
      Some(r.result.value.value) == codec.decode(TypeLookup(store, (req.pointId, req.modelId)), row.value.raw)
    ensures r.result == Err(NoReadingFound) <==>
      store.outcome(LastQuery(req)) == Succeeds && !r.result.Ok?
    ensures forall f :: r.result == Err(Propagated(f)) <==> store.outcome(LastQuery(req)) == Raises(f)
    ensures |r.ops| > |PingRecovery(store.ping, settings)|
    ensures r.ops[..|PingRecovery(store.ping, settings)|] == PingRecovery(store.ping, settings)
    ensures forall i :: |PingRecovery(store.ping, settings)| <= i < |r.ops| ==> r.ops[i] != Run(Ping)
  {
    var q := LastQuery(req);
    var key := (req.pointId, req.modelId);
    var probed := PingRecovery(store.ping, settings) + [Run(Select(q))];
    match store.outcome(q)
    case Raises(f) => Traced(Err(Propagated(f)), probed)
    case Succeeds =>
      match store.latest(q)
      case None => Traced(Err(NoReadingFound), probed)
      case Some(row) =>
        var ops := probed + [Run(TypeOf(key))];
        match DecodeRow(codec, TypeLookup(store, key), row)
        case Some(decoded) => Traced(Ok(decoded), ops)
        case None => Traced(Err(NoReadingFound), ops)
  }

  // ---- Range: decode each row, drop the ones that do not decode ----------

  /** The rows that decode, decoded, in the order given. */
  function Keep(codec: Codec, ty: Option<int>, rows: seq<Reading>): (r: seq<Reading>)
    ensures |r| <= |rows|
    decreases |rows|
  {
    if rows == [] then []
    else
      var init := Keep(codec, ty, rows[..|rows| - 1]);
      match DecodeRow(codec, ty, rows[|rows| - 1])
      case Some(d) => init + [d]
      case None => init
  }

  /** Keep preserves order: it works row by row over any split of its input. */
  lemma {:induction false} KeepAppend(codec: Codec, ty: Option<int>, a: seq<Reading>, b: seq<Reading>)
    ensures Keep(codec, ty, a + b) == Keep(codec, ty, a) + Keep(codec, ty, b)
    decreases |b|
  {
    if b == [] {
      assert a + b == a;
    } else {
      var b' := b[..|b| - 1];
      assert (a + b)[..|a + b| - 1] == a + b';
      assert (a + b)[|a + b| - 1] == b[|b| - 1];
      KeepAppend(codec, ty, a, b');
    }
  }

  /** A reading is kept exactly when some given row decodes to it. */
  lemma {:induction false} KeepMember(codec: Codec, ty: Option<int>, rows: seq<Reading>, d: Reading)
    ensures d in Keep(codec, ty, rows) <==>
      exists i :: 0 <= i < |rows| && DecodeRow(codec, ty, rows[i]) == Some(d)
    decreases |rows|
  {
    if rows != [] {
      var init := rows[..|rows| - 1];
      KeepMember(codec, ty, init, d);
      if exists i :: 0 <= i < |rows| && DecodeRow(codec, ty, rows[i]) == Some(d) {
        var i :| 0 <= i < |rows| && DecodeRow(codec, ty, rows[i]) == Some(d);
        if i < |rows| - 1 { assert init[i] == rows[i]; }
      }
      if d in Keep(codec, ty, init) {
        var i :| 0 <= i < |init| && DecodeRow(codec, ty, init[i]) == Some(d);
        assert rows[i] == init[i];
      }
    }
  }

  /** When every row decodes, nothing is dropped: the i-th result is the i-th row decoded. */
  lemma {:induction false} KeepAllDecode(codec: Codec, ty: Option<int>, rows: seq<Reading>)
    requires forall i :: 0 <= i < |rows| ==> DecodeRow(codec, ty, rows[i]).Some?
    ensures |Keep(codec, ty, rows)| == |rows|
    ensures forall i :: 0 <= i < |rows| ==> Some(Keep(codec, ty, rows)[i]) == DecodeRow(codec, ty, rows[i])
    decreases |rows|
  {
    if rows != [] {
      var init := rows[..|rows| - 1];
      forall i | 0 <= i < |init| ensures DecodeRow(codec, ty, init[i]).Some? {
        assert init[i] == rows[i];
      }
      KeepAllDecode(codec, ty, init);
    }
  }

  function RangeQuery(req: RangeReadRequest): Query
  {
    Query(RangeRows(req.start, req.stop, req.limit), req.deviceId, req.modelId, req.pointId)
  }

  /** The rows the range statement delivers: none when its execute raised. */
  function Delivered(store: Store, req: RangeReadRequest): seq<Reading>
  {
    if store.outcome(RangeQuery(req)) == Succeeds then store.rows(RangeQuery(req)) else []
  }

  /**
    The steps of fetch(RangeReadRequest) with the do/while guarded by `got`:
    execute (a mysql_soci_error is answered by a reconnect, with no second
    execute), look the point type up, `readings.reserve(limit)` (a negative
    limit converts to a size above max_size(), so it throws
    std::length_error), then decode every row the do/while sees, dropping the
    ones that raise bad_get.
   */
  function RangeGuarded(store: Store, codec: Codec, settings: string, req: RangeReadRequest, got: bool)
    : Traced<seq<Reading>>
  {
    var q := RangeQuery(req);
    var key := (req.pointId, req.modelId);
    var executed := [Open(settings), Run(Select(q))];
    match store.outcome(q)
    case Raises(OtherError) => Traced(Err(Propagated(OtherError)), executed)
    case _ =>
      var recovery := if store.outcome(q) == Succeeds then [] else [Reconnect];
      var looked := executed + recovery + [Run(TypeOf(key))];
      if req.limit < 0 then Traced(Err(Propagated(OtherError)), looked)
      else
        var delivered := Delivered(store, req);
        Traced(Ok(Keep(codec, TypeLookup(store, key), Drain(got, Bound(delivered, codec.blank), Rest(delivered)))),
               looked)
  }

  /**
    fetch(RangeReadRequest) as written: `sql.got_data()` is tested after the
    type lookup ran on the same session, so it says whether the Point row
    exists.
   */
  function RangeSpec(store: Store, codec: Codec, settings: string, req: RangeReadRequest): (r: Traced<seq<Reading>>)
    ensures r.result.Err? <==> store.outcome(RangeQuery(req)) == Raises(OtherError) || req.limit < 0
    ensures r.result.Err? ==> r.result.error == Propagated(OtherError)
    ensures (r.result.Ok? && (req.pointId, req.modelId) !in store.pointTypes) ==> r.result.value == []
  {
    RangeGuarded(store, codec, settings, req, (req.pointId, req.modelId) in store.pointTypes)
  }

  /**
    With a Point row and a statement that delivers rows, Range returns
    exactly the delivered rows that decode, decoded, in delivered order.
   */
  lemma RangeDelivered(store: Store, codec: Codec, settings: string, req: RangeReadRequest)
    requires store.outcome(RangeQuery(req)) == Succeeds
    requires (req.pointId, req.modelId) in store.pointTypes
    requires store.rows(RangeQuery(req)) != []
    requires req.limit >= 0
    ensures RangeSpec(store, codec, settings, req).result ==
      Ok(Keep(codec, Some(store.pointTypes[(req.pointId, req.modelId)]), store.rows(RangeQuery(req))))
    ensures RangeSpec(store, codec, settings, req).ops ==
      [Open(settings), Run(Select(RangeQuery(req))), Run(TypeOf((req.pointId, req.modelId)))]
  {
    DrainDelivered(store.rows(RangeQuery(req)), codec.blank);
  }

  /**
    When the statement delivers nothing (no rows, or a mysql_soci_error that
    was answered by a reconnect) but the Point row exists, the do/while still
    runs its body once, on the default-constructed Reading.
   */
  lemma RangeNothingDelivered(store: Store, codec: Codec, settings: string, req: RangeReadRequest)
    requires store.outcome(RangeQuery(req)) == Raises(MysqlSociError) ||
             (store.outcome(RangeQuery(req)) == Succeeds && store.rows(RangeQuery(req)) == [])
    requires (req.pointId, req.modelId) in store.pointTypes
    requires req.limit >= 0
    ensures RangeSpec(store, codec, settings, req).result ==
      Ok(match DecodeRow(codec, Some(store.pointTypes[(req.pointId, req.modelId)]), codec.blank)
         case Some(d) => [d]
         case None => [])
    ensures store.outcome(RangeQuery(req)) == Raises(MysqlSociError) ==>
      RangeSpec(store, codec, settings, req).ops ==
      [Open(settings), Run(Select(RangeQuery(req))), Reconnect, Run(TypeOf((req.pointId, req.modelId)))]
  {
    var ty := TypeLookup(store, (req.pointId, req.modelId));
    assert Drain(true, codec.blank, []) == [codec.blank];
    assert [codec.blank][..0] == [];
    assert Keep(codec, ty, [codec.blank]) ==
      match DecodeRow(codec, ty, codec.blank) case Some(d) => [d] case None => [];
  }

  /**
    As written, Range can return more readings than the statement delivered:
    with no rows but a Point row and a default Reading that decodes, the
    result has one reading.
   */
  lemma RangeLongerThanDelivered(store: Store, codec: Codec, settings: string, req: RangeReadRequest)
    requires store.outcome(RangeQuery(req)) == Succeeds && store.rows(RangeQuery(req)) == []
    requires (req.pointId, req.modelId) in store.pointTypes
    requires req.limit >= 0
    requires DecodeRow(codec, Some(store.pointTypes[(req.pointId, req.modelId)]), codec.blank).Some?
    ensures RangeSpec(store, codec, settings, req).result.Ok?
    ensures |RangeSpec(store, codec, settings, req).result.value| == 1
    ensures |RangeSpec(store, codec, settings, req).result.value| > |store.rows(RangeQuery(req))|
  {
    RangeNothingDelivered(store, codec, settings, req);
  }

  /**
    Range with the do/while guarded by the range statement's own data, as
    the guard evidently intends.
   */
  function RangeOwnData(store: Store, codec: Codec, settings: string, req: RangeReadRequest): Traced<seq<Reading>>
  {
    RangeGuarded(store, codec, settings, req, Delivered(store, req) != [])
  }

  /**
    Guarded by its own data, Range returns exactly the delivered rows that
    decode, in delivered order, so never more than were delivered, in every
    case; it fails exactly as the code does.
   */
  lemma RangeOwnDataKeepsDelivered(store: Store, codec: Codec, settings: string, req: RangeReadRequest)
    ensures RangeOwnData(store, codec, settings, req).result.Err? <==>
      store.outcome(RangeQuery(req)) == Raises(OtherError) || req.limit < 0
    ensures RangeOwnData(store, codec, settings, req).result.Ok? ==>
      RangeOwnData(store, codec, settings, req).result.value ==
        Keep(codec, TypeLookup(store, (req.pointId, req.modelId)), Delivered(store, req))
    ensures RangeOwnData(store, codec, settings, req).result.Ok? ==>
      |RangeOwnData(store, codec, settings, req).result.value| <= |Delivered(store, req)|
  {
    DrainDelivered(Delivered(store, req), codec.blank);
  }

  // ---- grouped fan-out: Yesterday, Today, Day, Month, Year --------------

  /** What a grouped fan-out carries from one device to the next: got_data() and the bound `avg`. */
  datatype Cursor = Cursor(gotData: bool, avg: Bucket)

  /** A session just opened (got_data() is false) and `pair<int, double> avg;` value-initialised. */
  const FreshCursor := Cursor(false, (0, 0.0))

  /**
    One pass of a grouped loop body for device `id`.  `recover` is true for
    Today, whose execute catches mysql_soci_error and reconnects; the statement
    is not re-executed, so the drain sees only what the previous pass left.
    Every pass that completes leaves got_data() false: the do/while ends
    only when stmt.fetch() reports no row, and without data it never starts.
   */
  function GroupedStep(store: Store, kind: QueryKind, modelId: int, pointId: int, recover: bool,
                       c: Cursor, id: DeviceId): Pass<Cursor, seq<Bucket>>
  {
    var q := Query(kind, id, modelId, pointId);
    match store.outcome(q)
    case Succeeds =>
      var rows := store.buckets(q);
      var cur := Bound(rows, c.avg);
      Pass(Ok(Drain(rows != [], cur, Rest(rows))), Cursor(false, LastOf(cur, Rest(rows))), [Run(Select(q))])
    case Raises(f) =>
      if recover && f == MysqlSociError then
        Pass(Ok(Drain(c.gotData, c.avg, [])), c.(gotData := false), [Run(Select(q)), Reconnect])
      else
        Pass(Err(Propagated(f)), c, [Run(Select(q))])
  }

  function GroupedStepper(store: Store, kind: QueryKind, modelId: int, pointId: int, recover: bool)
    : (Cursor, DeviceId) -> Pass<Cursor, seq<Bucket>>
  {
    (c, id) => GroupedStep(store, kind, modelId, pointId, recover, c, id)
  }

  lemma GroupedStepperApplies(store: Store, kind: QueryKind, modelId: int, pointId: int, recover: bool,
                              c: Cursor, id: DeviceId)
    ensures GroupedStepper(store, kind, modelId, pointId, recover)(c, id) ==
            GroupedStep(store, kind, modelId, pointId, recover, c, id)
  {
  }

  /** The exception a grouped pass lets out for `id`, if any: it does not depend on the loop state. */
  function GroupedFault(store: Store, kind: QueryKind, modelId: int, pointId: int, recover: bool, id: DeviceId)
    : Option<FetchError>
  {
    match store.outcome(Query(kind, id, modelId, pointId))
    case Succeeds => None
    case Raises(f) => if recover && f == MysqlSociError then None else Some(Propagated(f))
  }

  /** The grouped fan-out over `ids`, from a session just opened. */
  function GroupedFanOut(store: Store, kind: QueryKind, modelId: int, pointId: int, recover: bool,
                         ids: seq<DeviceId>): Traced<map<DeviceId, seq<Bucket>>>
  {
    Fold(GroupedStepper(store, kind, modelId, pointId, recover), FreshCursor, ids, map[])
  }

  /** A completed grouped fan-out has exactly one entry per distinct requested device. */
  lemma GroupedKeys(store: Store, kind: QueryKind, modelId: int, pointId: int, recover: bool, ids: seq<DeviceId>)
    ensures GroupedFanOut(store, kind, modelId, pointId, recover, ids).result.Ok? ==>
              GroupedFanOut(store, kind, modelId, pointId, recover, ids).result.value.Keys == IdSet(ids)
  {
    FoldKeys(GroupedStepper(store, kind, modelId, pointId, recover), FreshCursor, ids, map[]);
  }

  /**
    A grouped fan-out fails exactly when some requested device's execute
    raises an exception the kind does not catch, and then with the first such.
   */
  lemma GroupedFails(store: Store, kind: QueryKind, modelId: int, pointId: int, recover: bool, ids: seq<DeviceId>)
    ensures GroupedFanOut(store, kind, modelId, pointId, recover, ids).result.Err? <==>
      exists i :: 0 <= i < |ids| && GroupedFault(store, kind, modelId, pointId, recover, ids[i]).Some?
    ensures GroupedFanOut(store, kind, modelId, pointId, recover, ids).result.Err? ==>
      exists j :: 0 <= j < |ids| &&
        GroupedFault(store, kind, modelId, pointId, recover, ids[j]) ==
          Some(GroupedFanOut(store, kind, modelId, pointId, recover, ids).result.error) &&
        forall i :: 0 <= i < j ==> GroupedFault(store, kind, modelId, pointId, recover, ids[i]) == None
  {
    var step := GroupedStepper(store, kind, modelId, pointId, recover);
    var fault := (id: DeviceId) => GroupedFault(store, kind, modelId, pointId, recover, id);
    FoldError(step, fault, FreshCursor, ids, map[]);
    FirstFaultNone(fault, ids);
    var r := GroupedFanOut(store, kind, modelId, pointId, recover, ids).result;
    if r.Err? {
      FirstFaultIsFirst(fault, ids, r.error);
    }
  }

  /**
    When every requested device's execute succeeds, the fan-out completes and
    each device's entry is exactly the buckets its statement delivered, in
    delivered order; a device with no data gets an empty sequence.
   */
  lemma GroupedEntries(store: Store, kind: QueryKind, modelId: int, pointId: int, recover: bool, ids: seq<DeviceId>)
    requires forall i :: 0 <= i < |ids| ==> store.outcome(Query(kind, ids[i], modelId, pointId)) == Succeeds
    ensures GroupedFanOut(store, kind, modelId, pointId, recover, ids).result.Ok?
    ensures GroupedFanOut(store, kind, modelId, pointId, recover, ids).result.value.Keys == IdSet(ids)
    ensures forall k :: k in GroupedFanOut(store, kind, modelId, pointId, recover, ids).result.value ==>
      GroupedFanOut(store, kind, modelId, pointId, recover, ids).result.value[k] ==
        store.buckets(Query(kind, k, modelId, pointId))
  {
    var step := GroupedStepper(store, kind, modelId, pointId, recover);
    var want := (id: DeviceId) => store.buckets(Query(kind, id, modelId, pointId));
    forall s, i | 0 <= i < |ids| ensures step(s, ids[i]).outcome == Ok(want(ids[i])) {
      var rows := store.buckets(Query(kind, ids[i], modelId, pointId));
      DrainDelivered(rows, s.avg);
    }
    FoldEntries(step, (c: Cursor) => true, want, FreshCursor, ids, map[]);
    FoldKeys(step, FreshCursor, ids, map[]);
  }

  /**
    Today on a session just opened: when the first requested device's execute
    raises mysql_soci_error, got_data() is still false, so that device's
    entry is empty, whatever later passes for the same id deliver.
   */
  lemma TodayFirstRecoveredEmpty(store: Store, modelId: int, pointId: int, ids: seq<DeviceId>)
    requires ids != []
    requires store.outcome(Query(TodayHours, ids[0], modelId, pointId)) == Raises(MysqlSociError)
    requires GroupedFanOut(store, TodayHours, modelId, pointId, true, ids).result.Ok?
    ensures ids[0] in GroupedFanOut(store, TodayHours, modelId, pointId, true, ids).result.value
    ensures GroupedFanOut(store, TodayHours, modelId, pointId, true, ids).result.value[ids[0]] == []
  {
    FoldFirstWins(GroupedStepper(store, TodayHours, modelId, pointId, true), FreshCursor, ids, map[]);
  }

  /**
    Today recovers each device on its own: when no execute raises anything
    but mysql_soci_error, the fan-out completes with one entry per requested
    device, holding the buckets it delivered, in order, or nothing when its
    execute was recovered, whatever the devices before it delivered.
   */
  lemma TodayEntries(store: Store, modelId: int, pointId: int, ids: seq<DeviceId>)
    requires forall i :: 0 <= i < |ids| ==>
      store.outcome(Query(TodayHours, ids[i], modelId, pointId)) != Raises(OtherError)
    ensures GroupedFanOut(store, TodayHours, modelId, pointId, true, ids).result.Ok?
    ensures GroupedFanOut(store, TodayHours, modelId, pointId, true, ids).result.value.Keys == IdSet(ids)
    ensures forall k :: k in GroupedFanOut(store, TodayHours, modelId, pointId, true, ids).result.value ==>
      GroupedFanOut(store, TodayHours, modelId, pointId, true, ids).result.value[k] ==
        if store.outcome(Query(TodayHours, k, modelId, pointId)) == Succeeds
        then store.buckets(Query(TodayHours, k, modelId, pointId)) else []
  {
    var step := GroupedStepper(store, TodayHours, modelId, pointId, true);
    var inv := (c: Cursor) => !c.gotData;
    var want := (id: DeviceId) =>
      if store.outcome(Query(TodayHours, id, modelId, pointId)) == Succeeds
      then store.buckets(Query(TodayHours, id, modelId, pointId)) else [];
    forall s, i | 0 <= i < |ids| && inv(s)
      ensures step(s, ids[i]).outcome == Ok(want(ids[i])) && inv(step(s, ids[i]).state)
    {
      DrainDelivered(store.buckets(Query(TodayHours, ids[i], modelId, pointId)), s.avg);
    }
    FoldEntries(step, inv, want, FreshCursor, ids, map[]);
    FoldKeys(step, FreshCursor, ids, map[]);
  }

  // ---- scalar fan-out: Accumulated, Average -------------------------------

  /** `if (ind != i_ok) total = 0;`: a null aggregate reads as zero. */
  function OrZero(aggregate: Option<real>): real
  {
    match aggregate
    case None => 0.0
    case Some(v) => v
  }

  /** One pass of a scalar loop body; nothing is caught, and nothing carries over. */
  function ScalarStep(store: Store, kind: QueryKind, modelId: int, pointId: int, u: (), id: DeviceId)
    : Pass<(), real>
  {
    var q := Query(kind, id, modelId, pointId);
    match store.outcome(q)
    case Succeeds => Pass(Ok(OrZero(store.aggregate(q))), (), [Run(Select(q))])
    case Raises(f) => Pass(Err(Propagated(f)), (), [Run(Select(q))])
  }

  function ScalarStepper(store: Store, kind: QueryKind, modelId: int, pointId: int): ((), DeviceId) -> Pass<(), real>
  {
    (u, id) => ScalarStep(store, kind, modelId, pointId, u, id)
  }

  function ScalarFault(store: Store, kind: QueryKind, modelId: int, pointId: int, id: DeviceId): Option<FetchError>
  {
    match store.outcome(Query(kind, id, modelId, pointId))
    case Succeeds => None
    case Raises(f) => Some(Propagated(f))
  }

  function ScalarFanOut(store: Store, kind: QueryKind, modelId: int, pointId: int, ids: seq<DeviceId>)
    : Traced<map<DeviceId, real>>
  {
    Fold(ScalarStepper(store, kind, modelId, pointId), (), ids, map[])
  }

  /**
    A scalar fan-out fails exactly when some requested device's execute
    raises, with the first such; otherwise every distinct requested device
    has an entry: the aggregate, or 0 when it is null.
   */
  lemma ScalarResult(store: Store, kind: QueryKind, modelId: int, pointId: int, ids: seq<DeviceId>)
    ensures ScalarFanOut(store, kind, modelId, pointId, ids).result.Err? <==>
      exists i :: 0 <= i < |ids| && store.outcome(Query(kind, ids[i], modelId, pointId)).Raises?
    ensures ScalarFanOut(store, kind, modelId, pointId, ids).result.Err? ==>
      exists j :: 0 <= j < |ids| &&
        ScalarFault(store, kind, modelId, pointId, ids[j]) ==
          Some(ScalarFanOut(store, kind, modelId, pointId, ids).result.error) &&
        forall i :: 0 <= i < j ==> store.outcome(Query(kind, ids[i], modelId, pointId)) == Succeeds
    ensures ScalarFanOut(store, kind, modelId, pointId, ids).result.Ok? ==>
      var m := ScalarFanOut(store, kind, modelId, pointId, ids).result.value;
      m.Keys == IdSet(ids) &&
      forall k :: k in m ==>
        (store.aggregate(Query(kind, k, modelId, pointId)).None? ==> m[k] == 0.0) &&
        (store.aggregate(Query(kind, k, modelId, pointId)).Some? ==>
           m[k] == store.aggregate(Query(kind, k, modelId, pointId)).value)
  {
    var step := ScalarStepper(store, kind, modelId, pointId);
    var fault := (id: DeviceId) => ScalarFault(store, kind, modelId, pointId, id);
    FoldError(step, fault, (), ids, map[]);
    FirstFaultNone(fault, ids);
    var r := ScalarFanOut(store, kind, modelId, pointId, ids).result;
    if r.Err? {
      FirstFaultIsFirst(fault, ids, r.error);
    } else {
      ScalarEntries(store, kind, modelId, pointId, ids);
    }
  }

  /**
    When every requested device's execute succeeds, the scalar fan-out
    completes with one entry per distinct device: its aggregate, or 0 when null.
   */
  lemma ScalarEntries(store: Store, kind: QueryKind, modelId: int, pointId: int, ids: seq<DeviceId>)
    requires forall i :: 0 <= i < |ids| ==> store.outcome(Query(kind, ids[i], modelId, pointId)) == Succeeds
    ensures ScalarFanOut(store, kind, modelId, pointId, ids).result.Ok?
    ensures ScalarFanOut(store, kind, modelId, pointId, ids).result.value.Keys == IdSet(ids)
    ensures forall k :: k in ScalarFanOut(store, kind, modelId, pointId, ids).result.value ==>
      ScalarFanOut(store, kind, modelId, pointId, ids).result.value[k] ==
        OrZero(store.aggregate(Query(kind, k, modelId, pointId)))
  {
    var step := ScalarStepper(store, kind, modelId, pointId);
    var want := (id: DeviceId) => OrZero(store.aggregate(Query(kind, id, modelId, pointId)));
    FoldEntries(step, (u: ()) => true, want, (), ids, map[]);
    FoldKeys(step, (), ids, map[]);
  }
}
