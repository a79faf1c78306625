/** `insertInChunks`: copy every record, rewrite each field whose value has an
    entry in the external-id map, submit the copies in batches of 200 and
    collect the answers. */
module ChunkedInsert {
  import opened JsValues
  import opened Chunking

  /** `externalIdMap`: from a source-side value (as a property key) to the
      destination-side value that replaces it. */
  type ExternalIdMap = map<string, string>

  /** `externalIdMap[v]` when that entry is truthy, i.e. a non-empty string.
      The object is indexed by `String(v)`. */
  function Lookup(ext: ExternalIdMap, v: Value): Option<string> {
    var key := ToJsString(v);
    if key in ext && ext[key] != "" then Some(ext[key]) else None
  }

  function RewriteValue(v: Value, ext: ExternalIdMap): Value {
    match Lookup(ext, v)
    case Some(s) => Str(s)
    case None => v
  }

  /** The copy `insertInChunks` submits for record `r`. */
  function Resolved(r: Record, ext: ExternalIdMap): (c: Record)
    ensures c.Keys == r.Keys
    ensures forall f :: f in r && Lookup(ext, r[f]).Some? ==> c[f] == Str(Lookup(ext, r[f]).value)
    ensures forall f :: f in r && Lookup(ext, r[f]).None? ==> c[f] == r[f]
  {
    map f | f in r :: RewriteValue(r[f], ext)
  }

  /** With the default `externalIdMap = {}` the copy equals the record. */
  lemma ResolvedEmptyMap(r: Record)
    ensures Resolved(r, map[]) == r
  {
    assert forall f :: f in r ==> Lookup(map[], r[f]).None?;
  }

  /** The copy `{ ...r }` followed by the loop `for (const field in recordCopy)`
      that replaces each field with a truthy map entry. */
  method ResolveRecord(r: Record, ext: ExternalIdMap) returns (copy: Record)
    ensures copy == Resolved(r, ext)
  {
    copy := r;
    var todo := r.Keys;
    while todo != {}
      invariant todo <= r.Keys && copy.Keys == r.Keys
      invariant forall f :: f in r && f !in todo ==> copy[f] == RewriteValue(r[f], ext)
      invariant forall f :: f in todo ==> copy[f] == r[f]
      decreases todo
    {
      var field :| field in todo;
      match Lookup(ext, copy[field]) {
        case Some(s) => copy := copy[field := Str(s)];
        case None =>
      }
      todo := todo - {field};
    }
    assert forall f :: f in copy ==> copy[f] == Resolved(r, ext)[f];
  }

  /** `chunk.map(...)`: the copies of one chunk, in order. */
  function ResolvedAll(chunk: seq<Record>, ext: ExternalIdMap): (copies: seq<Record>)
    ensures |copies| == |chunk|
  {
    seq(|chunk|, i requires 0 <= i < |chunk| => Resolved(chunk[i], ext))
  }

  method ResolveChunk(chunk: seq<Record>, ext: ExternalIdMap) returns (resolved: seq<Record>)
    ensures resolved == ResolvedAll(chunk, ext)
  {
    resolved := [];
    for i := 0 to |chunk|
      invariant resolved == ResolvedAll(chunk[..i], ext)
    {
      var copy := ResolveRecord(chunk[i], ext);
      resolved := resolved + [copy];
    }
    assert chunk[..|chunk|] == chunk;
  }

  /** `res.filter(r => r.success).map(r => r.id!)`. The `!` only silences the
      type checker: a success without an id contributes `undefined` (None). */
  function SuccessIds(results: seq<SaveResult>): (ids: seq<Option<string>>)
    ensures |ids| <= |results|
    ensures |ids| == |results| <==> forall k :: 0 <= k < |results| ==> results[k].success
    ensures forall k :: 0 <= k < |results| && results[k].success ==> results[k].id in ids
  {
    if results == [] then []
    else (if results[0].success then [results[0].id] else []) + SuccessIds(results[1..])
  }

  /** Every collected id is the id of a successful result. */
  lemma {:induction false} SuccessIdsOrigin(results: seq<SaveResult>)
    ensures forall x :: x in SuccessIds(results) ==>
              exists k :: 0 <= k < |results| && results[k].success && results[k].id == x
    decreases |results|
  {
    if results != [] {
      SuccessIdsOrigin(results[1..]);
      forall x | x in SuccessIds(results[1..])
        ensures exists k :: 0 <= k < |results| && results[k].success && results[k].id == x
      {
        var k :| 0 <= k < |results[1..]| && results[1..][k].success && results[1..][k].id == x;
        assert results[k + 1] == results[1..][k];
      }
    }
  }

  /** Collecting per chunk and concatenating is collecting over the
      concatenation: the ids keep the order of the results. */
  lemma {:induction false} SuccessIdsConcat(a: seq<SaveResult>, b: seq<SaveResult>)
    ensures SuccessIds(a + b) == SuccessIds(a) + SuccessIds(b)
    decreases |a|
  {
    if a == [] {
      assert a + b == b;
    } else {
      assert (a + b)[0] == a[0] && (a + b)[1..] == a[1..] + b;
      SuccessIdsConcat(a[1..], b);
    }
  }

  /** The answer of create call `i`, made for the copies of chunk `i`. */
  function Responses(chunks: seq<seq<Record>>, ext: ExternalIdMap, create: Oracle): (rs: seq<seq<SaveResult>>)
    ensures |rs| == |chunks|
  {
    seq(|chunks|, i requires 0 <= i < |chunks| => create(i, ResolvedAll(chunks[i], ext)))
  }

  /** `results`: the answers of all chunks, concatenated in chunk order. */
  function ChunkedResults(records: seq<Record>, ext: ExternalIdMap, create: Oracle): seq<SaveResult> {
    Flatten(Responses(Chunks(records, BatchSize), ext, create))
  }

  method InsertInChunks(records: seq<Record>, ext: ExternalIdMap, create: Oracle)
    returns (insertedIds: seq<Option<string>>, results: seq<SaveResult>)
    ensures results == ChunkedResults(records, ext, create)
    ensures insertedIds == SuccessIds(results)
  {
    var chunks := Chunks(records, BatchSize);
    ghost var responses := Responses(chunks, ext, create);
    insertedIds, results := [], [];
    for index := 0 to |chunks|
      invariant results == Flatten(responses[..index])
      invariant insertedIds == SuccessIds(results)
    {
      var resolvedChunk := ResolveChunk(chunks[index], ext);
      var res := create(index, resolvedChunk);
      assert responses[..index + 1] == responses[..index] + [res];
      FlattenConcat(responses[..index], [res]);
      assert Flatten([res]) == res;
      SuccessIdsConcat(results, res);
      insertedIds := insertedIds + SuccessIds(res);
      results := results + res;
    }
    assert responses[..|chunks|] == responses;
  }

  lemma {:induction false} FlattenSameShape<S, T>(ss: seq<seq<S>>, tt: seq<seq<T>>)
    requires |ss| == |tt|
    requires forall i :: 0 <= i < |ss| ==> |ss[i]| == |tt[i]|
    ensures |Flatten(ss)| == |Flatten(tt)|
    decreases |ss|
  {
    if ss != [] {
      FlattenSameShape(ss[1..], tt[1..]);
    }
  }

  /** When the destination answers each record once, there is one result per
      input record. */
  lemma OneResultPerInput(records: seq<Record>, ext: ExternalIdMap, create: Oracle)
    requires OneResultPerRecord(create)
    ensures |ChunkedResults(records, ext, create)| == |records|
  {
    var chunks := Chunks(records, BatchSize);
    var rs := Responses(chunks, ext, create);
    assert forall i :: 0 <= i < |rs| ==> |rs[i]| == |ResolvedAll(chunks[i], ext)|;
    FlattenSameShape(rs, chunks);
    FlattenChunks(records, BatchSize);
  }

  /** Results are order-correlated with the input: the result at the position
      of record `p` (element `j` of chunk `i`) is the answer create call `i`
      gave for the rewritten copy of that record. */
  lemma ResultAt(records: seq<Record>, ext: ExternalIdMap, create: Oracle, i: nat, j: nat)
    requires OneResultPerRecord(create)
    requires i < |Chunks(records, BatchSize)| && j < |Chunks(records, BatchSize)[i]|
    ensures Offset(i, BatchSize) + j < |records|
    ensures |ChunkedResults(records, ext, create)| == |records|
    ensures ChunkedResults(records, ext, create)[Offset(i, BatchSize) + j]
         == create(i, ResolvedAll(Chunks(records, BatchSize)[i], ext))[j]
    ensures ResolvedAll(Chunks(records, BatchSize)[i], ext)[j]
         == Resolved(records[Offset(i, BatchSize) + j], ext)
  {
    var chunks := Chunks(records, BatchSize);
    var rs := Responses(chunks, ext, create);
    assert forall n :: 0 <= n < |rs| ==> |rs[n]| == |chunks[n]| by {
      assert forall n :: 0 <= n < |rs| ==> |rs[n]| == |ResolvedAll(chunks[n], ext)|;
    }
    OneResultPerInput(records, ext, create);
    FlattenAt(chunks, BatchSize, i, j);
    FlattenChunks(records, BatchSize);
    FlattenAt(rs, BatchSize, i, j);
  }
}
