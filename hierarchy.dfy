/** `insertWithHierarchyHandling`: wave-based insertion of records whose
    `ParentTerritory2Id` refers to another record of the same input. Each wave
    submits the records whose parent is absent or already inserted, with the
    parent rewritten to its new id; a wave with nothing ready fails the rest. */
module Hierarchy {
  import opened JsValues
  import opened Chunking

  const ParentField := "ParentTerritory2Id"
  const IdField := "Id"

  function ParentOf(r: Record): Value {
    Get(r, ParentField)
  }

  function IdOf(r: Record): Value {
    Get(r, IdField)
  }

  /** `idMap`: old id to new id. The stored value is `res.id`, which is
      `undefined` (None) when a success comes without an id. */
  type IdMap = map<Value, Option<string>>

  /** `!parentId || idMap.has(parentId)` */
  predicate IsReady(r: Record, idMap: IdMap) {
    !Truthy(ParentOf(r)) || ParentOf(r) in idMap
  }

  /** `idMap.get(parentId) ?? null` */
  function NewParent(r: Record, idMap: IdMap): Value {
    var p := ParentOf(r);
    if p in idMap && idMap[p].Some? then Str(idMap[p].value) else Null
  }

  /** `{ ...record, ParentTerritory2Id: newParentId ?? null }` */
  function Rewrite(r: Record, idMap: IdMap): (c: Record)
    ensures c.Keys == r.Keys + {ParentField}
    ensures forall f :: f != ParentField ==> Get(c, f) == Get(r, f)
    ensures ParentOf(c) != Null ==>
              ParentOf(r) in idMap && idMap[ParentOf(r)].Some? && ParentOf(c) == Str(idMap[ParentOf(r)].value)
    ensures ParentOf(r) in idMap && idMap[ParentOf(r)].Some? ==> ParentOf(c) == Str(idMap[ParentOf(r)].value)
  {
    r[ParentField := NewParent(r, idMap)]
  }

  /** `readyToInsert` of one wave. */
  function ReadyOf(pending: seq<Record>, idMap: IdMap): seq<Record> {
    if pending == [] then []
    else (if IsReady(pending[0], idMap) then [Rewrite(pending[0], idMap)] else [])
         + ReadyOf(pending[1..], idMap)
  }

  /** `stillPending` of one wave. */
  function StillPendingOf(pending: seq<Record>, idMap: IdMap): seq<Record> {
    if pending == [] then []
    else (if IsReady(pending[0], idMap) then [] else [pending[0]])
         + StillPendingOf(pending[1..], idMap)
  }

  /** A record is ready iff its parent is falsy or already mapped: the ready
      side holds the rewritten copies of exactly those records. */
  lemma {:induction false} ReadyMembers(pending: seq<Record>, idMap: IdMap)
    ensures forall r :: r in pending && IsReady(r, idMap) ==> Rewrite(r, idMap) in ReadyOf(pending, idMap)
    ensures forall c :: c in ReadyOf(pending, idMap) ==>
              exists r :: r in pending && IsReady(r, idMap) && c == Rewrite(r, idMap)
    decreases |pending|
  {
    if pending != [] {
      ReadyMembers(pending[1..], idMap);
      forall c | c in ReadyOf(pending, idMap)
        ensures exists r :: r in pending && IsReady(r, idMap) && c == Rewrite(r, idMap)
      {
        if c !in ReadyOf(pending[1..], idMap) {
          assert c == Rewrite(pending[0], idMap);
        } else {
          var r :| r in pending[1..] && IsReady(r, idMap) && c == Rewrite(r, idMap);
          assert r in pending;
        }
      }
      forall r | r in pending && IsReady(r, idMap)
        ensures Rewrite(r, idMap) in ReadyOf(pending, idMap)
      {
        if r != pending[0] {
          assert r in pending[1..];
        }
      }
    }
  }

  /** The still-pending side holds exactly the records that are not ready. */
  lemma {:induction false} StillPendingMembers(pending: seq<Record>, idMap: IdMap)
    ensures forall r :: r in StillPendingOf(pending, idMap) <==> r in pending && !IsReady(r, idMap)
    decreases |pending|
  {
    if pending != [] {
      StillPendingMembers(pending[1..], idMap);
      assert pending == [pending[0]] + pending[1..];
    }
  }

  /** Every pending record goes to exactly one side, so a wave that inserts
      something leaves strictly fewer records pending. */
  lemma {:induction false} PartitionSizes(pending: seq<Record>, idMap: IdMap)
    ensures |ReadyOf(pending, idMap)| + |StillPendingOf(pending, idMap)| == |pending|
    ensures ReadyOf(pending, idMap) != [] ==> |StillPendingOf(pending, idMap)| < |pending|
    ensures ReadyOf(pending, idMap) == [] ==> StillPendingOf(pending, idMap) == pending
    decreases |pending|
  {
    if pending != [] {
      PartitionSizes(pending[1..], idMap);
      assert pending == [pending[0]] + pending[1..];
    }
  }

  /** The partition keeps the input order on both sides. */
  lemma {:induction false} PartitionConcat(a: seq<Record>, b: seq<Record>, idMap: IdMap)
    ensures ReadyOf(a + b, idMap) == ReadyOf(a, idMap) + ReadyOf(b, idMap)
    ensures StillPendingOf(a + b, idMap) == StillPendingOf(a, idMap) + StillPendingOf(b, idMap)
    decreases |a|
  {
    if a == [] {
      assert a + b == b;
    } else {
      assert (a + b)[0] == a[0] && (a + b)[1..] == a[1..] + b;
      PartitionConcat(a[1..], b, idMap);
    }
  }

  /** One entry of the returned logs, `{Inserido, IdSalesforce?, Erro?}`: the
      success mark, the destination id and the error message. */
  datatype ResultLog = ResultLog(inserted: bool, destinationId: Option<string>, error: Option<string>)

  /** `res.errors?.[0]?.message` */
  function FirstError(errors: seq<string>): Option<string> {
    if |errors| > 0 then Some(errors[0]) else None
  }

  /** The log entry for one answer of `create`. */
  function LogOf(res: SaveResult): ResultLog {
    ResultLog(res.success, res.id, if res.success then None else FirstError(res.errors))
  }

  const UnresolvedPrefix := "Parente com ID "
  const UnresolvedSuffix := " não encontrado."

  /** The failure message for a record whose parent never became ready. */
  function UnresolvedParentMessage(parent: Value): (msg: string)
    ensures |msg| == |UnresolvedPrefix| + |ToJsString(parent)| + |UnresolvedSuffix|
    ensures msg[|UnresolvedPrefix|..|UnresolvedPrefix| + |ToJsString(parent)|] == ToJsString(parent)
  {
    UnresolvedPrefix + ToJsString(parent) + UnresolvedSuffix
  }

  function UnresolvedLog(r: Record): ResultLog {
    ResultLog(false, None, Some(UnresolvedParentMessage(ParentOf(r))))
  }

  function UnresolvedLogs(rs: seq<Record>): (logs: seq<ResultLog>)
    ensures |logs| == |rs|
  {
    seq(|rs|, i requires 0 <= i < |rs| => UnresolvedLog(rs[i]))
  }

  /** The state the loop carries: the id map, the number of create calls made
      so far, the logs, and `sets`, the keys passed to `idMap.set` in order. */
  datatype Ledger = Ledger(idMap: IdMap, calls: nat, logs: seq<ResultLog>, sets: seq<Value>)

  const Start := Ledger(map[], 0, [], [])

  /** Handling answer `j` of a batch. Past the end of the batch `batch[j]` is
      `undefined`, and reading its `Id` throws: the run fails (None). */
  function Step(batch: seq<Record>, j: nat, res: SaveResult, st: Ledger): (r: Option<Ledger>)
    ensures r.None? <==> j >= |batch|
    ensures r.Some? ==> r.value.calls == st.calls && r.value.logs == st.logs + [LogOf(res)]
  {
    if j >= |batch| then None
    else
      var oldId := IdOf(batch[j]);
      var st' := if res.success && Truthy(oldId)
                 then st.(idMap := st.idMap[oldId := res.id], sets := st.sets + [oldId])
                 else st;
      Some(st'.(logs := st'.logs + [LogOf(res)]))
  }

  /** `results.forEach(...)` over the answers `rs` for one batch. */
  function Absorb(batch: seq<Record>, rs: seq<SaveResult>, st: Ledger): (r: Option<Ledger>)
    ensures r.Some? ==> |rs| <= |batch|
    ensures r.Some? ==> r.value.calls == st.calls && |r.value.logs| == |st.logs| + |rs|
    decreases |rs|
  {
    if rs == [] then Some(st)
    else
      match Absorb(batch, rs[..|rs| - 1], st)
      case None => None
      case Some(s) => Step(batch, |rs| - 1, rs[|rs| - 1], s)
  }

  /** The batches of one wave, submitted in order. */
  function SubmitBatches(batches: seq<seq<Record>>, st: Ledger, create: Oracle): (r: Option<Ledger>)
    ensures r.Some? ==> r.value.calls == st.calls + |batches|
    decreases |batches|
  {
    if batches == [] then Some(st)
    else
      match SubmitBatches(batches[..|batches| - 1], st, create)
      case None => None
      case Some(s) =>
        var batch := batches[|batches| - 1];
        Absorb(batch, create(s.calls, batch), s.(calls := s.calls + 1))
  }

  /** The waves, from the given pending records on. */
  function RunWaves(pending: seq<Record>, st: Ledger, create: Oracle): Option<Ledger>
    decreases |pending|
  {
    if pending == [] then Some(st)
    else
      var ready := ReadyOf(pending, st.idMap);
      var still := StillPendingOf(pending, st.idMap);
      if ready == [] then Some(st.(logs := st.logs + UnresolvedLogs(still)))
      else
        PartitionSizes(pending, st.idMap);
        match SubmitBatches(Chunks(ready, BatchSize), st, create)
        case None => None
        case Some(s) => RunWaves(still, s, create)
  }

  /** What `insertWithHierarchyHandling` resolves to: its logs, or None when it
      rejects. */
  function Hierarchy(records: seq<Record>, create: Oracle): Option<seq<ResultLog>> {
    match RunWaves(records, Start, create)
    case None => None
    case Some(s) => Some(s.logs)
  }

  /** The `for (const record of pending)` loop of one wave. */
  method SplitWave(pending: seq<Record>, idMap: IdMap) returns (readyToInsert: seq<Record>, stillPending: seq<Record>)
    ensures readyToInsert == ReadyOf(pending, idMap)
    ensures stillPending == StillPendingOf(pending, idMap)
  {
    readyToInsert, stillPending := [], [];
    for i := 0 to |pending|
      invariant readyToInsert == ReadyOf(pending[..i], idMap)
      invariant stillPending == StillPendingOf(pending[..i], idMap)
    {
      var record := pending[i];
      var parentId := ParentOf(record);
      if !Truthy(parentId) || parentId in idMap {
        var newParentId := if parentId in idMap then idMap[parentId] else None;
        readyToInsert := readyToInsert + [record[ParentField := if newParentId.Some? then Str(newParentId.value) else Null]];
      } else {
        stillPending := stillPending + [record];
      }
      assert pending[..i + 1] == pending[..i] + [record];
      PartitionConcat(pending[..i], [record], idMap);
    }
    assert pending[..|pending|] == pending;
  }

  /** `results.forEach((res, j) => ...)` for one batch, made as create call
      number `calls`; `ok` is false where reading `batch[j].Id` throws. */
  method AbsorbResults(batch: seq<Record>, results: seq<SaveResult>, idMap0: IdMap, calls: nat,
                       logs0: seq<ResultLog>, ghost sets0: seq<Value>)
    returns (ok: bool, idMap: IdMap, logs: seq<ResultLog>, ghost sets: seq<Value>)
    ensures ok == Absorb(batch, results, Ledger(idMap0, calls, logs0, sets0)).Some?
    ensures ok ==> Absorb(batch, results, Ledger(idMap0, calls, logs0, sets0)) == Some(Ledger(idMap, calls, logs, sets))
  {
    ghost var st0 := Ledger(idMap0, calls, logs0, sets0);
    idMap, logs, sets := idMap0, logs0, sets0;
    for j := 0 to |results|
      invariant Absorb(batch, results[..j], st0) == Some(Ledger(idMap, calls, logs, sets))
    {
      assert results[..j + 1][..j] == results[..j];
      if j >= |batch| {
        AbsorbCrash(batch, results, st0);
        return false, idMap, logs, sets;
      }
      var original := batch[j];
      var oldId := IdOf(original);
      if results[j].success && Truthy(oldId) {
        idMap := idMap[oldId := results[j].id];
        sets := sets + [oldId];
      }
      logs := logs + [LogOf(results[j])];
    }
    assert results[..|results|] == results;
    ok := true;
  }

  /** The `for (const [i, batch] of batches.entries())` loop of one wave;
      `ok` is false where handling an answer throws. */
  method SubmitWave(batches: seq<seq<Record>>, create: Oracle, idMap0: IdMap, calls0: nat,
                    logs0: seq<ResultLog>, ghost sets0: seq<Value>)
    returns (ok: bool, idMap: IdMap, calls: nat, logs: seq<ResultLog>, ghost sets: seq<Value>)
    ensures ok == SubmitBatches(batches, Ledger(idMap0, calls0, logs0, sets0), create).Some?
    ensures ok ==> SubmitBatches(batches, Ledger(idMap0, calls0, logs0, sets0), create)
                   == Some(Ledger(idMap, calls, logs, sets))
  {
    ghost var st0 := Ledger(idMap0, calls0, logs0, sets0);
    idMap, calls, logs, sets := idMap0, calls0, logs0, sets0;
    for b := 0 to |batches|
      invariant SubmitBatches(batches[..b], st0, create) == Some(Ledger(idMap, calls, logs, sets))
    {
      var batch := batches[b];
      var results := create(calls, batch);
      assert batches[..b + 1][..b] == batches[..b];
      ok, idMap, logs, sets := AbsorbResults(batch, results, idMap, calls + 1, logs, sets);
      calls := calls + 1;
      if !ok {
        SubmitPrefixNone(batches, b + 1, st0, create);
        return;
      }
    }
    assert batches[..|batches|] == batches;
    ok := true;
  }

  /** `stillPending.forEach(...)` after a wave with nothing ready. */
  method LogUnresolved(logs0: seq<ResultLog>, stillPending: seq<Record>) returns (logs: seq<ResultLog>)
    ensures logs == logs0 + UnresolvedLogs(stillPending)
  {
    logs := logs0;
    for i := 0 to |stillPending|
      invariant logs == logs0 + UnresolvedLogs(stillPending[..i])
    {
      assert UnresolvedLogs(stillPending[..i + 1]) == UnresolvedLogs(stillPending[..i]) + [UnresolvedLog(stillPending[i])];
      logs := logs + [UnresolvedLog(stillPending[i])];
    }
    assert stillPending[..|stillPending|] == stillPending;
  }

  method InsertWithHierarchyHandling(records: seq<Record>, create: Oracle) returns (outcome: Option<seq<ResultLog>>)
    ensures outcome == Hierarchy(records, create)
  {
    var logs: seq<ResultLog> := [];
    var idMap: IdMap := map[];
    var pending := records;
    var calls: nat := 0;
    ghost var sets: seq<Value> := [];
    while pending != []
      invariant RunWaves(records, Start, create) == RunWaves(pending, Ledger(idMap, calls, logs, sets), create)
      decreases |pending|
    {
      var readyToInsert, stillPending := SplitWave(pending, idMap);
      if |readyToInsert| == 0 {
        logs := LogUnresolved(logs, stillPending);
        break;
      }
      PartitionSizes(pending, idMap);
      var ok;
      ok, idMap, calls, logs, sets := SubmitWave(Chunks(readyToInsert, BatchSize), create, idMap, calls, logs, sets);
      if !ok {
        return None;
      }
      pending := stillPending;
    }
    outcome := Some(logs);
  }

  // ---------------------------------------------------------------------
  // Handling the answers of one batch

  /** More answers than records: the run fails. */
  lemma {:induction false} AbsorbCrash(batch: seq<Record>, rs: seq<SaveResult>, st: Ledger)
    requires |rs| > |batch|
    ensures Absorb(batch, rs, st) == None
    decreases |rs|
  {
    if |rs| - 1 > |batch| {
      AbsorbCrash(batch, rs[..|rs| - 1], st);
    }
  }

  /** A failure part-way through a wave fails the whole wave. */
  lemma {:induction false} SubmitPrefixNone(batches: seq<seq<Record>>, k: nat, st: Ledger, create: Oracle)
    requires k <= |batches|
    requires SubmitBatches(batches[..k], st, create) == None
    ensures SubmitBatches(batches, st, create) == None
    decreases |batches|
  {
    if k == |batches| {
      assert batches[..k] == batches;
    } else {
      var init := batches[..|batches| - 1];
      assert init[..k] == batches[..k];
      SubmitPrefixNone(init, k, st, create);
    }
  }

  /** One log per answer, in order; `idMap` gains exactly the ids of the
      records whose answer is a success, and counts no extra create call. */
  lemma {:induction false} AbsorbEffect(batch: seq<Record>, rs: seq<SaveResult>, st: Ledger)
    requires |rs| <= |batch|
    ensures Absorb(batch, rs, st).Some?
    ensures Absorb(batch, rs, st).value.calls == st.calls
    ensures Absorb(batch, rs, st).value.logs == st.logs + seq(|rs|, j requires 0 <= j < |rs| => LogOf(rs[j]))
    ensures forall k :: k in Absorb(batch, rs, st).value.idMap <==>
              k in st.idMap || exists j :: 0 <= j < |rs| && rs[j].success && Truthy(IdOf(batch[j])) && IdOf(batch[j]) == k
    decreases |rs|
  {
    if rs != [] {
      var n := |rs| - 1;
      AbsorbEffect(batch, rs[..n], st);
      var s := Absorb(batch, rs[..n], st).value;
      var s' := Absorb(batch, rs, st).value;
      assert s'.logs == s.logs + [LogOf(rs[n])];
      forall k
        ensures k in s'.idMap <==>
                k in st.idMap || exists j :: 0 <= j < |rs| && rs[j].success && Truthy(IdOf(batch[j])) && IdOf(batch[j]) == k
      {
        if exists j :: 0 <= j < n && rs[..n][j].success && Truthy(IdOf(batch[j])) && IdOf(batch[j]) == k {
          var j :| 0 <= j < n && rs[..n][j].success && Truthy(IdOf(batch[j])) && IdOf(batch[j]) == k;
          assert rs[j] == rs[..n][j];
        }
        if exists j :: 0 <= j < |rs| && rs[j].success && Truthy(IdOf(batch[j])) && IdOf(batch[j]) == k {
          var j :| 0 <= j < |rs| && rs[j].success && Truthy(IdOf(batch[j])) && IdOf(batch[j]) == k;
          if j < n {
            assert rs[..n][j] == rs[j];
          }
        }
      }
    }
  }

  /** With distinct ids in the batch, each success maps its record's old id to
      the id the destination returned, and keys no answer writes keep their
      value. */
  lemma {:induction false} AbsorbMapsIds(batch: seq<Record>, rs: seq<SaveResult>, st: Ledger)
    requires |rs| <= |batch| && DistinctIds(batch)
    ensures Absorb(batch, rs, st).Some?
    ensures forall j :: 0 <= j < |rs| && rs[j].success && Truthy(IdOf(batch[j])) ==>
              IdOf(batch[j]) in Absorb(batch, rs, st).value.idMap &&
              Absorb(batch, rs, st).value.idMap[IdOf(batch[j])] == rs[j].id
    ensures forall k :: k in st.idMap && (forall j :: 0 <= j < |rs| && rs[j].success ==> IdOf(batch[j]) != k) ==>
              k in Absorb(batch, rs, st).value.idMap && Absorb(batch, rs, st).value.idMap[k] == st.idMap[k]
    decreases |rs|
  {
    if rs != [] {
      var n := |rs| - 1;
      AbsorbMapsIds(batch, rs[..n], st);
      var s := Absorb(batch, rs[..n], st).value;
      assert Absorb(batch, rs, st) == Step(batch, n, rs[n], s);
      forall j | 0 <= j < n && rs[j].success && Truthy(IdOf(batch[j]))
        ensures IdOf(batch[j]) in Absorb(batch, rs, st).value.idMap
        ensures Absorb(batch, rs, st).value.idMap[IdOf(batch[j])] == rs[j].id
      {
        assert rs[..n][j] == rs[j];
        assert IdOf(batch[j]) != IdOf(batch[n]);
      }
      forall k | k in st.idMap && (forall j :: 0 <= j < |rs| && rs[j].success ==> IdOf(batch[j]) != k)
        ensures k in Absorb(batch, rs, st).value.idMap && Absorb(batch, rs, st).value.idMap[k] == st.idMap[k]
      {
        forall j | 0 <= j < n && rs[..n][j].success
          ensures IdOf(batch[j]) != k
        {
          assert rs[..n][j] == rs[j];
        }
      }
    }
  }

  // ---------------------------------------------------------------------
  // One log per input record

  /** With one answer per record, a wave's batches yield one log per ready
      record, make one create call per batch and never fail. */
  lemma {:induction false} SubmitOneLogPerRecord(batches: seq<seq<Record>>, st: Ledger, create: Oracle)
    requires OneResultPerRecord(create)
    ensures SubmitBatches(batches, st, create).Some?
    ensures |SubmitBatches(batches, st, create).value.logs| == |st.logs| + |Flatten(batches)|
    ensures SubmitBatches(batches, st, create).value.calls == st.calls + |batches|
    decreases |batches|
  {
    if batches != [] {
      var n := |batches| - 1;
      SubmitOneLogPerRecord(batches[..n], st, create);
      var s := SubmitBatches(batches[..n], st, create).value;
      var batch := batches[n];
      AbsorbEffect(batch, create(s.calls, batch), s.(calls := s.calls + 1));
      assert batches == batches[..n] + [batch];
      FlattenConcat(batches[..n], [batch]);
      assert Flatten([batch]) == batch;
    }
  }

  lemma {:induction false} RunWavesOneLogPerRecord(pending: seq<Record>, st: Ledger, create: Oracle)
    requires OneResultPerRecord(create)
    ensures RunWaves(pending, st, create).Some?
    ensures |RunWaves(pending, st, create).value.logs| == |st.logs| + |pending|
    decreases |pending|
  {
    if pending != [] {
      var ready := ReadyOf(pending, st.idMap);
      var still := StillPendingOf(pending, st.idMap);
      PartitionSizes(pending, st.idMap);
      if ready != [] {
        SubmitOneLogPerRecord(Chunks(ready, BatchSize), st, create);
        FlattenChunks(ready, BatchSize);
        RunWavesOneLogPerRecord(still, SubmitBatches(Chunks(ready, BatchSize), st, create).value, create);
      }
    }
  }

  /** When the destination answers every record once, the run returns exactly
      one log per input record. */
  lemma OneLogPerRecord(records: seq<Record>, create: Oracle)
    requires OneResultPerRecord(create)
    ensures Hierarchy(records, create).Some?
    ensures |Hierarchy(records, create).value| == |records|
    ensures AllExplained(Hierarchy(records, create).value, records, create)
  {
    RunWavesOneLogPerRecord(records, Start, create);
    LogEntries(records, create);
  }

  // ---------------------------------------------------------------------
  // What each log entry is

  /** A log entry is either the answer to some create call, copied by `LogOf`
      (a success with the destination id, or a failure with the first error
      message), or the unresolved-parent failure of an input record whose
      parent is set. */
  ghost predicate Explained(l: ResultLog, records: seq<Record>, create: Oracle) {
    || (exists k: nat, batch: seq<Record>, j: nat :: j < |create(k, batch)| && l == LogOf(create(k, batch)[j]))
    || (exists r :: r in records && Truthy(ParentOf(r)) && l == UnresolvedLog(r))
  }

  ghost predicate AllExplained(logs: seq<ResultLog>, records: seq<Record>, create: Oracle) {
    forall i :: 0 <= i < |logs| ==> Explained(logs[i], records, create)
  }

  lemma AbsorbExplained(batch: seq<Record>, k: nat, st: Ledger, records: seq<Record>, create: Oracle)
    requires AllExplained(st.logs, records, create)
    ensures match Absorb(batch, create(k, batch), st)
            case None => true
            case Some(s) => AllExplained(s.logs, records, create)
  {
    var rs := create(k, batch);
    if |rs| <= |batch| {
      AbsorbEffect(batch, rs, st);
      var s := Absorb(batch, rs, st).value;
      forall i | 0 <= i < |s.logs|
        ensures Explained(s.logs[i], records, create)
      {
        if i < |st.logs| {
          assert s.logs[i] == st.logs[i];
        } else {
          var j := i - |st.logs|;
          assert j < |create(k, batch)| && s.logs[i] == LogOf(create(k, batch)[j]);
        }
      }
    }
  }

  lemma {:induction false} SubmitExplained(batches: seq<seq<Record>>, st: Ledger, records: seq<Record>, create: Oracle)
    requires AllExplained(st.logs, records, create)
    ensures match SubmitBatches(batches, st, create)
            case None => true
            case Some(s) => AllExplained(s.logs, records, create)
    decreases |batches|
  {
    if batches != [] {
      var n := |batches| - 1;
      SubmitExplained(batches[..n], st, records, create);
      match SubmitBatches(batches[..n], st, create)
      case None =>
      case Some(s) =>
        AbsorbExplained(batches[n], s.calls, s.(calls := s.calls + 1), records, create);
    }
  }

  lemma {:induction false} RunWavesExplained(pending: seq<Record>, st: Ledger, records: seq<Record>, create: Oracle)
    requires forall r :: r in pending ==> r in records
    requires AllExplained(st.logs, records, create)
    ensures match RunWaves(pending, st, create)
            case None => true
            case Some(s) => AllExplained(s.logs, records, create)
    decreases |pending|
  {
    if pending != [] {
      var ready := ReadyOf(pending, st.idMap);
      var still := StillPendingOf(pending, st.idMap);
      PartitionSizes(pending, st.idMap);
      StillPendingMembers(pending, st.idMap);
      if ready == [] {
        var logs := st.logs + UnresolvedLogs(still);
        forall i | 0 <= i < |logs|
          ensures Explained(logs[i], records, create)
        {
          if i < |st.logs| {
            assert logs[i] == st.logs[i];
          } else {
            var r := still[i - |st.logs|];
            assert r in still;
            assert r in records && Truthy(ParentOf(r)) && logs[i] == UnresolvedLog(r);
          }
        }
      } else {
        SubmitExplained(Chunks(ready, BatchSize), st, records, create);
        match SubmitBatches(Chunks(ready, BatchSize), st, create)
        case None =>
        case Some(s) =>
          RunWavesExplained(still, s, records, create);
      }
    }
  }

  /** Every entry the run returns is explained by an answer of the destination
      or by an input record whose parent was never resolved. */
  lemma LogEntries(records: seq<Record>, create: Oracle)
    ensures match Hierarchy(records, create)
            case None => true
            case Some(logs) => AllExplained(logs, records, create)
  {
    RunWavesExplained(records, Start, records, create);
  }

  // ---------------------------------------------------------------------
  // The terminal failure

  /** A wave in which nothing is ready ends the run: every remaining record gets
      one failure log naming its parent, in order, and nothing else changes. */
  lemma TerminalFailure(pending: seq<Record>, st: Ledger, create: Oracle)
    requires pending != [] && ReadyOf(pending, st.idMap) == []
    ensures RunWaves(pending, st, create) == Some(st.(logs := st.logs + UnresolvedLogs(pending)))
    ensures forall i :: 0 <= i < |pending| ==>
              UnresolvedLogs(pending)[i] == ResultLog(false, None, Some(UnresolvedParentMessage(ParentOf(pending[i]))))
  {
    PartitionSizes(pending, st.idMap);
  }

  // ---------------------------------------------------------------------
  // Each key of idMap is set at most once

  /** The truthy ids carried by some records. */
  ghost function Ids(s: seq<Record>): set<Value> {
    set r | r in s && Truthy(IdOf(r)) :: IdOf(r)
  }

  /** No two records share a truthy `Id`. */
  ghost predicate DistinctIds(s: seq<Record>) {
    forall i, j :: 0 <= i < j < |s| && Truthy(IdOf(s[i])) ==> IdOf(s[i]) != IdOf(s[j])
  }

  ghost predicate NoDuplicates(xs: seq<Value>) {
    forall i, j :: 0 <= i < j < |xs| ==> xs[i] != xs[j]
  }

  /** The trace of writes explains the map: its keys are the keys written. */
  ghost predicate Traced(st: Ledger) {
    forall k :: k in st.idMap <==> k in st.sets
  }

  /** `post` extends `pre`'s trace by keys drawn from `ids` only, each new and
      written once. */
  ghost predicate FreshWrites(pre: Ledger, post: Ledger, ids: set<Value>) {
    && |pre.sets| <= |post.sets|
    && post.sets[..|pre.sets|] == pre.sets
    && NoDuplicates(post.sets)
    && Traced(post)
    && forall k :: |pre.sets| <= k < |post.sets| ==> post.sets[k] in ids
  }

  lemma InIds(r: Record, s: seq<Record>)
    requires r in s
    ensures Truthy(IdOf(r)) ==> IdOf(r) in Ids(s)
  {
  }

  lemma DistinctIdsCons(x: Record, s: seq<Record>)
    ensures DistinctIds([x] + s) <==> DistinctIds(s) && (Truthy(IdOf(x)) ==> IdOf(x) !in Ids(s))
  {
    var t := [x] + s;
    if DistinctIds(t) {
      forall i, j | 0 <= i < j < |s| && Truthy(IdOf(s[i]))
        ensures IdOf(s[i]) != IdOf(s[j])
      {
        assert t[i + 1] == s[i] && t[j + 1] == s[j];
      }
      forall r | r in s && Truthy(IdOf(x))
        ensures IdOf(r) != IdOf(x)
      {
        var j :| 0 <= j < |s| && s[j] == r;
        assert t[0] == x && t[j + 1] == r;
      }
    }
    if DistinctIds(s) && (Truthy(IdOf(x)) ==> IdOf(x) !in Ids(s)) {
      forall i, j | 0 <= i < j < |t| && Truthy(IdOf(t[i]))
        ensures IdOf(t[i]) != IdOf(t[j])
      {
        if i == 0 {
          assert t[j] == s[j - 1];
          InIds(s[j - 1], s);
        } else {
          assert t[i] == s[i - 1] && t[j] == s[j - 1];
        }
      }
    }
  }

  lemma IdsCons(x: Record, s: seq<Record>)
    ensures Ids([x] + s) == (if Truthy(IdOf(x)) then {IdOf(x)} else {}) + Ids(s)
  {
    var t := [x] + s;
    forall v | v in Ids(t)
      ensures v in (if Truthy(IdOf(x)) then {IdOf(x)} else {}) + Ids(s)
    {
      var r :| r in t && Truthy(IdOf(r)) && IdOf(r) == v;
      if r != x {
        assert r in s;
      }
    }
    forall v | v in Ids(s)
      ensures v in Ids(t)
    {
      var r :| r in s && Truthy(IdOf(r)) && IdOf(r) == v;
      assert r in t;
    }
  }

  /** The partition splits distinct ids into two disjoint sets of distinct ids. */
  lemma {:induction false} PartitionIds(pending: seq<Record>, idMap: IdMap)
    requires DistinctIds(pending)
    ensures DistinctIds(ReadyOf(pending, idMap)) && DistinctIds(StillPendingOf(pending, idMap))
    ensures Ids(ReadyOf(pending, idMap)) + Ids(StillPendingOf(pending, idMap)) == Ids(pending)
    ensures Ids(ReadyOf(pending, idMap)) !! Ids(StillPendingOf(pending, idMap))
    decreases |pending|
  {
    if pending == [] {
      assert Ids([]) == {};
    } else {
      var x, rest := pending[0], pending[1..];
      assert pending == [x] + rest;
      DistinctIdsCons(x, rest);
      IdsCons(x, rest);
      PartitionIds(rest, idMap);
      var ready, still := ReadyOf(rest, idMap), StillPendingOf(rest, idMap);
      if IsReady(x, idMap) {
        var c := Rewrite(x, idMap);
        assert IdOf(c) == IdOf(x);
        assert ReadyOf(pending, idMap) == [c] + ready;
        assert StillPendingOf(pending, idMap) == still;
        DistinctIdsCons(c, ready);
        IdsCons(c, ready);
      } else {
        assert ReadyOf(pending, idMap) == ready;
        assert StillPendingOf(pending, idMap) == [x] + still;
        DistinctIdsCons(x, still);
        IdsCons(x, still);
      }
    }
  }

  lemma DistinctIdsConcat(a: seq<Record>, b: seq<Record>)
    requires DistinctIds(a + b)
    ensures DistinctIds(a) && DistinctIds(b) && Ids(a) !! Ids(b)
    ensures Ids(a + b) == Ids(a) + Ids(b)
  {
    var t := a + b;
    forall i, j | 0 <= i < j < |a| && Truthy(IdOf(a[i]))
      ensures IdOf(a[i]) != IdOf(a[j])
    {
      assert t[i] == a[i] && t[j] == a[j];
    }
    forall i, j | 0 <= i < j < |b| && Truthy(IdOf(b[i]))
      ensures IdOf(b[i]) != IdOf(b[j])
    {
      assert t[|a| + i] == b[i] && t[|a| + j] == b[j];
    }
    forall r, r' | r in a && r' in b && Truthy(IdOf(r))
      ensures IdOf(r) != IdOf(r')
    {
      var i :| 0 <= i < |a| && a[i] == r;
      var j :| 0 <= j < |b| && b[j] == r';
      assert t[i] == r && t[|a| + j] == r';
    }
    forall v | v in Ids(t)
      ensures v in Ids(a) + Ids(b)
    {
      var r :| r in t && Truthy(IdOf(r)) && IdOf(r) == v;
      assert r in a || r in b;
    }
    forall v | v in Ids(a) + Ids(b)
      ensures v in Ids(t)
    {
      if v in Ids(a) {
        var r :| r in a && Truthy(IdOf(r)) && IdOf(r) == v;
        assert r in t;
      } else {
        var r :| r in b && Truthy(IdOf(r)) && IdOf(r) == v;
        assert r in t;
      }
    }
  }

  lemma IdsPrefix(s: seq<Record>, m: nat)
    requires m <= |s|
    ensures Ids(s[..m]) <= Ids(s)
  {
    forall v | v in Ids(s[..m])
      ensures v in Ids(s)
    {
      var r :| r in s[..m] && Truthy(IdOf(r)) && IdOf(r) == v;
      assert r in s;
    }
  }

  /** A record's truthy id is not carried by any record before it. */
  lemma IdNotInPrefix(batch: seq<Record>, n: nat)
    requires DistinctIds(batch) && n < |batch| && Truthy(IdOf(batch[n]))
    ensures IdOf(batch[n]) !in Ids(batch[..n])
  {
    forall r | r in batch[..n] && Truthy(IdOf(r))
      ensures IdOf(r) != IdOf(batch[n])
    {
      var i :| 0 <= i < n && batch[..n][i] == r;
      assert batch[i] == r;
    }
  }

  /** Within one batch every write is of a fresh key. */
  lemma {:induction false} AbsorbWritesOnce(batch: seq<Record>, rs: seq<SaveResult>, st: Ledger)
    requires NoDuplicates(st.sets) && Traced(st)
    requires DistinctIds(batch)
    requires forall x :: x in st.sets ==> x !in Ids(batch)
    requires Absorb(batch, rs, st).Some?
    ensures FreshWrites(st, Absorb(batch, rs, st).value, Ids(batch[..|rs|]))
    ensures Absorb(batch, rs, st).value.calls == st.calls
    decreases |rs|
  {
    if rs == [] {
      assert st.sets[..|st.sets|] == st.sets;
    } else {
      var n := |rs| - 1;
      AbsorbWritesOnce(batch, rs[..n], st);
      var s := Absorb(batch, rs[..n], st).value;
      var s' := Absorb(batch, rs, st).value;
      assert n < |batch|;
      var oldId := IdOf(batch[n]);
      assert batch[..n + 1][..n] == batch[..n];
      IdsPrefix(batch[..n + 1], n);
      if rs[n].success && Truthy(oldId) {
        assert batch[n] in batch[..n + 1];
        InIds(batch[n], batch[..n + 1]);
        InIds(batch[n], batch);
        IdNotInPrefix(batch, n);
        forall k | 0 <= k < |s.sets|
          ensures s.sets[k] != oldId
        {
          if k < |st.sets| {
            assert st.sets[k] == s.sets[k];
          } else {
            assert s.sets[k] in Ids(batch[..n]);
          }
        }
        assert s'.sets == s.sets + [oldId];
      } else {
        assert s'.sets == s.sets;
      }
    }
  }

  /** Within one wave every write is of a fresh key. */
  lemma {:induction false} SubmitWritesOnce(batches: seq<seq<Record>>, st: Ledger, create: Oracle)
    requires NoDuplicates(st.sets) && Traced(st)
    requires DistinctIds(Flatten(batches))
    requires forall x :: x in st.sets ==> x !in Ids(Flatten(batches))
    requires SubmitBatches(batches, st, create).Some?
    ensures FreshWrites(st, SubmitBatches(batches, st, create).value, Ids(Flatten(batches)))
    decreases |batches|
  {
    if batches == [] {
      assert st.sets[..|st.sets|] == st.sets;
    } else {
      var n := |batches| - 1;
      var init, batch := batches[..n], batches[n];
      assert batches == init + [batch];
      FlattenConcat(init, [batch]);
      assert Flatten([batch]) == batch;
      DistinctIdsConcat(Flatten(init), batch);
      SubmitWritesOnce(init, st, create);
      var s := SubmitBatches(init, st, create).value;
      var s1 := s.(calls := s.calls + 1);
      var rs := create(s.calls, batch);
      forall x | x in s1.sets
        ensures x !in Ids(batch)
      {
        var k :| 0 <= k < |s.sets| && s.sets[k] == x;
        if k < |st.sets| {
          assert st.sets[k] == x;
        }
      }
      AbsorbWritesOnce(batch, rs, s1);
      var s' := Absorb(batch, rs, s1).value;
      assert |rs| <= |batch| by {
        if |rs| > |batch| {
          AbsorbCrash(batch, rs, s1);
        }
      }
      IdsPrefix(batch, |rs|);
      FreshWritesTrans(st, s1, s', Ids(Flatten(init)), Ids(batch[..|rs|]));
      FreshWritesWeaken(st, s', Ids(Flatten(init)) + Ids(batch[..|rs|]), Ids(Flatten(batches)));
    }
  }

  lemma FreshWritesTrans(a: Ledger, b: Ledger, c: Ledger, ids1: set<Value>, ids2: set<Value>)
    requires FreshWrites(a, b, ids1) && FreshWrites(b, c, ids2)
    ensures FreshWrites(a, c, ids1 + ids2)
  {
    assert c.sets[..|a.sets|] == c.sets[..|b.sets|][..|a.sets|];
    forall k | |a.sets| <= k < |c.sets|
      ensures c.sets[k] in ids1 + ids2
    {
      if k < |b.sets| {
        assert c.sets[k] == c.sets[..|b.sets|][k];
      }
    }
  }

  lemma FreshWritesWeaken(a: Ledger, b: Ledger, ids1: set<Value>, ids2: set<Value>)
    requires FreshWrites(a, b, ids1) && ids1 <= ids2
    ensures FreshWrites(a, b, ids2)
  {
  }

  /** Over any number of waves every write is of a fresh key. */
  lemma {:induction false} RunWavesWritesOnce(pending: seq<Record>, st: Ledger, create: Oracle)
    requires NoDuplicates(st.sets) && Traced(st)
    requires DistinctIds(pending)
    requires forall x :: x in st.sets ==> x !in Ids(pending)
    requires RunWaves(pending, st, create).Some?
    ensures FreshWrites(st, RunWaves(pending, st, create).value, Ids(pending))
    decreases |pending|
  {
    if pending == [] {
      assert st.sets[..|st.sets|] == st.sets;
    } else {
      var ready := ReadyOf(pending, st.idMap);
      var still := StillPendingOf(pending, st.idMap);
      PartitionSizes(pending, st.idMap);
      if ready == [] {
        assert st.sets[..|st.sets|] == st.sets;
      } else {
        PartitionIds(pending, st.idMap);
        var bs := Chunks(ready, BatchSize);
        FlattenChunks(ready, BatchSize);
        SubmitWritesOnce(bs, st, create);
        var s := SubmitBatches(bs, st, create).value;
        forall x | x in s.sets
          ensures x !in Ids(still)
        {
          var k :| 0 <= k < |s.sets| && s.sets[k] == x;
          if k < |st.sets| {
            assert st.sets[k] == x;
          } else {
            assert x in Ids(ready);
          }
        }
        RunWavesWritesOnce(still, s, create);
        FreshWritesTrans(st, s, RunWaves(still, s, create).value, Ids(ready), Ids(still));
      }
    }
  }

  /** With distinct input ids, `idMap.set` is never called twice for one key
      over the whole run: the written keys have no duplicates, they are exactly
      the keys of the final map, and each is the id of an input record. */
  lemma WritesOnce(records: seq<Record>, create: Oracle)
    requires DistinctIds(records)
    ensures match RunWaves(records, Start, create)
            case None => true
            case Some(s) => NoDuplicates(s.sets) && Traced(s) && forall x :: x in s.sets ==> x in Ids(records)
  {
    if RunWaves(records, Start, create).Some? {
      RunWavesWritesOnce(records, Start, create);
    }
  }

  /** A ready record is sent with its parent either `null` or a destination id
      taken from idMap, never a source-side id. */
  lemma ReadyParents(pending: seq<Record>, idMap: IdMap)
    ensures forall c :: c in ReadyOf(pending, idMap) ==>
              ParentOf(c) == Null || exists k :: k in idMap && idMap[k].Some? && ParentOf(c) == Str(idMap[k].value)
  {
    ReadyMembers(pending, idMap);
  }

  // ---------------------------------------------------------------------
  // Two scenarios

  /** A destination that accepts every record; create call `k` answers with the
      new id `k`. */
  function AllSucceed(k: nat, batch: seq<Record>): seq<SaveResult> {
    seq(|batch|, j => SaveResult(true, Some(NatToString(k)), []))
  }

  /** A wave that inserts something goes on with what it left pending. */
  lemma WaveStep(pending: seq<Record>, st: Ledger, create: Oracle)
    requires ReadyOf(pending, st.idMap) != []
    ensures pending != []
    ensures RunWaves(pending, st, create)
         == match SubmitBatches(Chunks(ReadyOf(pending, st.idMap), BatchSize), st, create)
            case None => None
            case Some(s) => RunWaves(StillPendingOf(pending, st.idMap), s, create)
  {
    PartitionSizes(pending, st.idMap);
  }

  /** A wave of a single record that the destination accepts: one create call,
      one log, and the record's id mapped to the new id. */
  lemma SingleInsert(c: Record, st: Ledger, create: Oracle)
    requires |create(st.calls, [c])| == 1 && create(st.calls, [c])[0].success
    requires Truthy(IdOf(c))
    ensures SubmitBatches(Chunks([c], BatchSize), st, create)
         == Some(Ledger(st.idMap[IdOf(c) := create(st.calls, [c])[0].id], st.calls + 1,
                        st.logs + [LogOf(create(st.calls, [c])[0])], st.sets + [IdOf(c)]))
  {
    ChunksCons([c], BatchSize);
    assert Min(BatchSize, 1) == 1 && [c][..1] == [c] && [c][1..] == [];
    assert |Chunks([c][1..], BatchSize)| == 0;
    assert Chunks([c], BatchSize) == [[c]];
    var rs := create(st.calls, [c]);
    assert [[c]][..0] == [] && rs[..0] == [];
    assert Absorb([c], rs, st.(calls := st.calls + 1)) == Step([c], 0, rs[0], st.(calls := st.calls + 1));
  }

  const Territory1: Record := map["Id" := Str("1"), "ParentTerritory2Id" := Null]
  const Territory2: Record := map["Id" := Str("2"), "ParentTerritory2Id" := Str("1")]
  const Territory3: Record := map["Id" := Str("3"), "ParentTerritory2Id" := Str("99")]

  const Wave1 := Ledger(map[Str("1") := Some("0")], 1, [ResultLog(true, Some("0"), None)], [Str("1")])
  const Wave2 := Ledger(map[Str("1") := Some("0"), Str("2") := Some("1")], 2,
                        [ResultLog(true, Some("0"), None), ResultLog(true, Some("1"), None)], [Str("1"), Str("2")])

  /** The partition of a single record. */
  lemma PartitionOne(r: Record, idMap: IdMap)
    ensures ReadyOf([r], idMap) == if IsReady(r, idMap) then [Rewrite(r, idMap)] else []
    ensures StillPendingOf([r], idMap) == if IsReady(r, idMap) then [] else [r]
  {
    assert [r][1..] == [];
  }

  lemma TerritorySplit1()
    ensures ReadyOf([Territory1, Territory2, Territory3], map[]) == [Rewrite(Territory1, map[])]
    ensures StillPendingOf([Territory1, Territory2, Territory3], map[]) == [Territory2, Territory3]
  {
    assert IsReady(Territory1, map[]) && !IsReady(Territory2, map[]) && !IsReady(Territory3, map[]);
    PartitionOne(Territory1, map[]);
    PartitionOne(Territory2, map[]);
    PartitionOne(Territory3, map[]);
    PartitionConcat([Territory2], [Territory3], map[]);
    assert [Territory2] + [Territory3] == [Territory2, Territory3];
    PartitionConcat([Territory1], [Territory2, Territory3], map[]);
    assert [Territory1] + [Territory2, Territory3] == [Territory1, Territory2, Territory3];
  }

  lemma TerritorySubmit1()
    ensures SubmitBatches(Chunks([Rewrite(Territory1, map[])], BatchSize), Start, AllSucceed) == Some(Wave1)
  {
    var c1 := Rewrite(Territory1, map[]);
    assert IdOf(c1) == Str("1");
    assert AllSucceed(0, [c1]) == [SaveResult(true, Some("0"), [])];
    SingleInsert(c1, Start, AllSucceed);
    assert Start.idMap[Str("1") := Some("0")] == Wave1.idMap;
    assert LogOf(SaveResult(true, Some("0"), [])) == ResultLog(true, Some("0"), None);
    assert Start.logs + [ResultLog(true, Some("0"), None)] == Wave1.logs;
    assert Start.sets + [Str("1")] == Wave1.sets;
  }

  lemma TerritoryWave1(p: seq<Record>, q: seq<Record>)
    requires p == [Territory1, Territory2, Territory3] && q == [Territory2, Territory3]
    ensures RunWaves(p, Start, AllSucceed) == RunWaves(q, Wave1, AllSucceed)
  {
    TerritorySplit1();
    WaveStep(p, Start, AllSucceed);
    TerritorySubmit1();
  }

  lemma TerritorySplit2()
    ensures ReadyOf([Territory2, Territory3], Wave1.idMap) == [Rewrite(Territory2, Wave1.idMap)]
    ensures StillPendingOf([Territory2, Territory3], Wave1.idMap) == [Territory3]
  {
    assert IsReady(Territory2, Wave1.idMap) && !IsReady(Territory3, Wave1.idMap);
    PartitionOne(Territory2, Wave1.idMap);
    PartitionOne(Territory3, Wave1.idMap);
    PartitionConcat([Territory2], [Territory3], Wave1.idMap);
    assert [Territory2] + [Territory3] == [Territory2, Territory3];
  }

  lemma TerritorySubmit2()
    ensures SubmitBatches(Chunks([Rewrite(Territory2, Wave1.idMap)], BatchSize), Wave1, AllSucceed) == Some(Wave2)
  {
    var c2 := Rewrite(Territory2, Wave1.idMap);
    assert IdOf(c2) == Str("2");
    assert AllSucceed(1, [c2]) == [SaveResult(true, Some("1"), [])];
    SingleInsert(c2, Wave1, AllSucceed);
    assert Wave1.idMap[Str("2") := Some("1")] == Wave2.idMap;
    assert LogOf(SaveResult(true, Some("1"), [])) == ResultLog(true, Some("1"), None);
    assert Wave1.logs + [ResultLog(true, Some("1"), None)] == Wave2.logs;
    assert Wave1.sets + [Str("2")] == Wave2.sets;
  }

  lemma TerritoryWave2(q: seq<Record>, r: seq<Record>)
    requires q == [Territory2, Territory3] && r == [Territory3]
    ensures RunWaves(q, Wave1, AllSucceed) == RunWaves(r, Wave2, AllSucceed)
  {
    TerritorySplit2();
    WaveStep(q, Wave1, AllSucceed);
    TerritorySubmit2();
  }

  lemma TerritoryWave3(r: seq<Record>)
    requires r == [Territory3]
    ensures RunWaves(r, Wave2, AllSucceed)
         == Some(Wave2.(logs := Wave2.logs + [ResultLog(false, None, Some("Parente com ID 99 não encontrado."))]))
  {
    assert !IsReady(Territory3, Wave2.idMap);
    PartitionOne(Territory3, Wave2.idMap);
    TerminalFailure([Territory3], Wave2, AllSucceed);
    assert ParentOf(Territory3) == Str("99");
    assert ToJsString(Str("99")) == "99";
    assert UnresolvedPrefix + "99" + UnresolvedSuffix == "Parente com ID 99 não encontrado.";
    assert UnresolvedLogs([Territory3]) == [UnresolvedLog(Territory3)];
  }

  /** Three territories: 1 is a root, 2 is a child of 1, and 3 names a parent 99
      that is not among the records. Wave 1 inserts 1, wave 2 inserts 2 with its
      parent rewritten to the new id of 1, wave 3 finds nothing ready and fails 3. */
  lemma TerritoryScenario(records: seq<Record>)
    requires records == [Territory1, Territory2, Territory3]
    ensures Hierarchy(records, AllSucceed)
         == Some([ResultLog(true, Some("0"), None),
                  ResultLog(true, Some("1"), None),
                  ResultLog(false, None, Some("Parente com ID 99 não encontrado."))])
  {
    var q, r := [Territory2, Territory3], [Territory3];
    TerritoryWave1(records, q);
    TerritoryWave2(q, r);
    TerritoryWave3(r);
    var last := ResultLog(false, None, Some("Parente com ID 99 não encontrado."));
    assert RunWaves(records, Start, AllSucceed) == Some(Wave2.(logs := Wave2.logs + [last]));
    assert Wave2.logs + [last] == [ResultLog(true, Some("0"), None), ResultLog(true, Some("1"), None), last];
  }

  const CycleA: Record := map["Id" := Str("A"), "ParentTerritory2Id" := Str("B")]
  const CycleB: Record := map["Id" := Str("B"), "ParentTerritory2Id" := Str("A")]

  lemma CycleLogs()
    ensures UnresolvedLogs([CycleA, CycleB])
         == [ResultLog(false, None, Some("Parente com ID B não encontrado.")),
             ResultLog(false, None, Some("Parente com ID A não encontrado."))]
  {
    assert ToJsString(Str("B")) == "B" && ToJsString(Str("A")) == "A";
    assert UnresolvedPrefix + "B" + UnresolvedSuffix == "Parente com ID B não encontrado.";
    assert UnresolvedPrefix + "A" + UnresolvedSuffix == "Parente com ID A não encontrado.";
  }

  /** Two records that name each other as parent: nothing is ever ready, so
      both fail at once, each log naming the missing parent, and the
      destination is never called. */
  lemma CycleScenario(create: Oracle)
    ensures Hierarchy([CycleA, CycleB], create)
         == Some([ResultLog(false, None, Some("Parente com ID B não encontrado.")),
                  ResultLog(false, None, Some("Parente com ID A não encontrado."))])
    ensures RunWaves([CycleA, CycleB], Start, create).value.calls == 0
  {
    assert !IsReady(CycleA, map[]) && !IsReady(CycleB, map[]);
    PartitionOne(CycleA, map[]);
    PartitionOne(CycleB, map[]);
    PartitionConcat([CycleA], [CycleB], map[]);
    assert [CycleA] + [CycleB] == [CycleA, CycleB];
    TerminalFailure([CycleA, CycleB], Start, create);
    CycleLogs();
    assert Start.logs + UnresolvedLogs([CycleA, CycleB]) == UnresolvedLogs([CycleA, CycleB]);
  }
}
