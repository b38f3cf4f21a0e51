/**
  Per-device fan-out: the loop that rebinds one shared device id, re-executes
  one prepared statement per id, and inserts each device's result into a
  `std::map`.  Every multi-device fetch kind is an instance of `Fold`, given
  the step that one pass of its loop body performs.
 */
module FanOut {
  import opened Readings

  /**
    One pass of a loop body for one device: the value to insert (or the
    exception that leaves the loop), the variables the pass leaves behind for
    the next one, and what it did to the session.
   */
  datatype Pass<S, V> = Pass(outcome: Result<V, FetchError>, state: S, ops: seq<SessionOp>)

  /** `std::map::insert`: adds the pair only when the key is not there yet. */
  function Insert<V>(m: map<DeviceId, V>, k: DeviceId, v: V): (r: map<DeviceId, V>)
    ensures r.Keys == m.Keys + {k}
    ensures k in m ==> r[k] == m[k]
    ensures k !in m ==> r[k] == v
    ensures forall j :: j in m ==> r[j] == m[j]
  {
    if k in m then m else m[k := v]
  }

  /** The distinct requested device ids. */
  function IdSet(ids: seq<DeviceId>): set<DeviceId>
  {
    set id | id in ids
  }

  function ErrorOf<V>(r: Result<V, FetchError>): Option<FetchError>
  {
    if r.Err? then Some(r.error) else None
  }

  /**
    The loop `for (id : DeviceIds) { deviceId = id; ...; devMap.insert(...); }`
    run from loop state `st` with map `acc` so far.  An exception leaves the
    loop and the whole call.
   */
  function Fold<S, V>(step: (S, DeviceId) -> Pass<S, V>, st: S, ids: seq<DeviceId>, acc: map<DeviceId, V>)
    : Traced<map<DeviceId, V>>
    decreases |ids|
  {
    if ids == [] then Traced(Ok(acc), [])
    else
      var p := step(st, ids[0]);
      match p.outcome
      case Err(e) => Traced(Err(e), p.ops)
      case Ok(v) =>
        var rest := Fold(step, p.state, ids[1..], Insert(acc, ids[0], v));
        Traced(rest.result, p.ops + rest.ops)
  }

  /** A fan-out resumed after the passes that did `done` to the session. */
  function Resume<V>(done: seq<SessionOp>, rest: Traced<map<DeviceId, V>>): Traced<map<DeviceId, V>>
  {
    Traced(rest.result, done + rest.ops)
  }

  /**
    One turn of the loop at index `i`: a pass that raises ends the fan-out;
    a pass that delivers `v` inserts it and the loop goes on from the state
    the pass leaves.
   */
  lemma FoldAdvance<S, V>(step: (S, DeviceId) -> Pass<S, V>, st: S, ids: seq<DeviceId>, i: nat,
                          acc: map<DeviceId, V>, done: seq<SessionOp>)
    requires i < |ids|
    ensures var p := step(st, ids[i]);
      Resume(done, Fold(step, st, ids[i..], acc)) ==
        if p.outcome.Err? then Traced(Err(p.outcome.error), done + p.ops)
        else Resume(done + p.ops, Fold(step, p.state, ids[i + 1..], Insert(acc, ids[i], p.outcome.value)))
  {
  }

  /** The error of the first device whose pass raises, if any. */
  function FirstFault(fault: DeviceId -> Option<FetchError>, ids: seq<DeviceId>): Option<FetchError>
    decreases |ids|
  {
    if ids == [] then None
    else if fault(ids[0]).Some? then fault(ids[0])
    else FirstFault(fault, ids[1..])
  }

  /** No requested device raises exactly when FirstFault finds none. */
  lemma {:induction false} FirstFaultNone(fault: DeviceId -> Option<FetchError>, ids: seq<DeviceId>)
    ensures FirstFault(fault, ids) == None <==> forall i :: 0 <= i < |ids| ==> fault(ids[i]) == None
  {
    if ids != [] {
      FirstFaultNone(fault, ids[1..]);
      assert forall i :: 1 <= i < |ids| ==> ids[i] == ids[1..][i - 1];
    }
  }

  /** FirstFault reports the fault of a requested device and every device before it passed. */
  lemma {:induction false} FirstFaultIsFirst(fault: DeviceId -> Option<FetchError>, ids: seq<DeviceId>, e: FetchError)
    requires FirstFault(fault, ids) == Some(e)
    ensures exists j :: 0 <= j < |ids| && fault(ids[j]) == Some(e) &&
                        forall i :: 0 <= i < j ==> fault(ids[i]) == None
  {
    if fault(ids[0]).Some? {
      assert fault(ids[0]) == Some(e);
    } else {
      FirstFaultIsFirst(fault, ids[1..], e);
      var j :| 0 <= j < |ids[1..]| && fault(ids[1..][j]) == Some(e) &&
               forall i :: 0 <= i < j ==> fault(ids[1..][i]) == None;
      assert fault(ids[j + 1]) == Some(e);
      forall i | 0 <= i < j + 1 ensures fault(ids[i]) == None {
        if i > 0 { assert ids[i] == ids[1..][i - 1]; }
      }
    }
  }

  /** Key coverage: a fan-out that completes has one key per distinct requested id, and no other. */
  lemma {:induction false} FoldKeys<S, V>(step: (S, DeviceId) -> Pass<S, V>, st: S, ids: seq<DeviceId>,
                                          acc: map<DeviceId, V>)
    ensures Fold(step, st, ids, acc).result.Ok? ==>
              Fold(step, st, ids, acc).result.value.Keys == acc.Keys + IdSet(ids)
    decreases |ids|
  {
    if ids != [] {
      var p := step(st, ids[0]);
      if p.outcome.Ok? {
        FoldKeys(step, p.state, ids[1..], Insert(acc, ids[0], p.outcome.value));
        assert IdSet(ids) == {ids[0]} + IdSet(ids[1..]) by {
          assert ids == [ids[0]] + ids[1..];
        }
      }
    }
  }

  /** `insert` never overwrites: a key already in the map keeps its value to the end. */
  lemma {:induction false} FoldKeepsEarlier<S, V>(step: (S, DeviceId) -> Pass<S, V>, st: S, ids: seq<DeviceId>,
                                                  acc: map<DeviceId, V>, k: DeviceId)
    requires k in acc
    requires Fold(step, st, ids, acc).result.Ok?
    ensures k in Fold(step, st, ids, acc).result.value
    ensures Fold(step, st, ids, acc).result.value[k] == acc[k]
    decreases |ids|
  {
    if ids != [] {
      var p := step(st, ids[0]);
      FoldKeepsEarlier(step, p.state, ids[1..], Insert(acc, ids[0], p.outcome.value), k);
    }
  }

  /**
    First insert wins: the first requested device's entry is what its own
    first pass produced, whatever later passes for the same id produce.
   */
  lemma FoldFirstWins<S, V>(step: (S, DeviceId) -> Pass<S, V>, st: S, ids: seq<DeviceId>,
                            acc: map<DeviceId, V>)
    requires ids != [] && ids[0] !in acc
    requires Fold(step, st, ids, acc).result.Ok?
    ensures step(st, ids[0]).outcome.Ok?
    ensures ids[0] in Fold(step, st, ids, acc).result.value
    ensures Fold(step, st, ids, acc).result.value[ids[0]] == step(st, ids[0]).outcome.value
  {
    var p := step(st, ids[0]);
    FoldKeepsEarlier(step, p.state, ids[1..], Insert(acc, ids[0], p.outcome.value), ids[0]);
  }

  /**
    When whether a pass raises depends only on the device (`fault`), the
    fan-out fails exactly with the first requested device's fault.
   */
  lemma {:induction false} FoldError<S, V>(step: (S, DeviceId) -> Pass<S, V>, fault: DeviceId -> Option<FetchError>,
                                           st: S, ids: seq<DeviceId>, acc: map<DeviceId, V>)
    requires forall s, id :: ErrorOf(step(s, id).outcome) == fault(id)
    ensures ErrorOf(Fold(step, st, ids, acc).result) == FirstFault(fault, ids)
    decreases |ids|
  {
    if ids != [] {
      var p := step(st, ids[0]);
      assert ErrorOf(p.outcome) == fault(ids[0]);
      if p.outcome.Ok? {
        FoldError(step, fault, p.state, ids[1..], Insert(acc, ids[0], p.outcome.value));
      }
    }
  }

  /**
    When every requested device's pass delivers `want(id)` from any loop
    state satisfying `inv`, and keeps `inv`, the fan-out from a state
    satisfying `inv` completes and maps each new id to that value.
   */
  lemma {:induction false} FoldEntries<S, V>(step: (S, DeviceId) -> Pass<S, V>, inv: S -> bool, want: DeviceId -> V,
                                             st: S, ids: seq<DeviceId>, acc: map<DeviceId, V>)
    requires inv(st)
    requires forall s, i :: 0 <= i < |ids| && inv(s) ==>
               step(s, ids[i]).outcome == Ok(want(ids[i])) && inv(step(s, ids[i]).state)
    ensures Fold(step, st, ids, acc).result.Ok?
    ensures forall k :: k in Fold(step, st, ids, acc).result.value <==> k in acc || k in ids
    ensures forall k :: k in Fold(step, st, ids, acc).result.value ==>
              Fold(step, st, ids, acc).result.value[k] == if k in acc then acc[k] else want(k)
    decreases |ids|
  {
    if ids != [] {
      var p := step(st, ids[0]);
      assert p.outcome == Ok(want(ids[0])) && inv(p.state);
      forall s, i | 0 <= i < |ids[1..]| && inv(s)
        ensures step(s, ids[1..][i]).outcome == Ok(want(ids[1..][i])) && inv(step(s, ids[1..][i]).state)
      {
        assert ids[1..][i] == ids[i + 1];
      }
      FoldEntries(step, inv, want, p.state, ids[1..], Insert(acc, ids[0], want(ids[0])));
      assert forall k :: k in ids <==> k == ids[0] || k in ids[1..] by {
        assert ids == [ids[0]] + ids[1..];
      }
    }
  }
}
