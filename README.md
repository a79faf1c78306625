# sf-record-cloner: batching, grouping and hierarchical insertion

This project models the record-copying core of sf-record-cloner, `src/utils.ts`,
in Dafny and proves properties of the model. The tool copies records from a
source org to a destination org. The remote store is replaced by an abstract
`create` oracle.

Modules, one per part of the source:

- `JsValues` (`values.dfy`) covers the JavaScript values a record field can hold.
  - It gives their truthiness and their `String(v)` form.
  - A record is `map<string, Value>`.
  - The destination's batch create is a total function `Oracle = (nat, seq<Record>) -> seq<SaveResult>`. The `nat` is the number of create calls made before this one, which stands for the destination's state changing between calls.
- `Chunking` (`chunking.dfy`) models `chunkArray`.
  - `Chunks` is the case of a positive size.
  - `ChunkArray` covers every integer size, including the `RangeError` that `Array.from` throws for an infinite length.
- `Grouping` (`grouping.dfy`) models `groupByParentTerritory`, two filters on `ParentTerritoryId`.
- `ChunkedInsert` (`chunked_insert.dfy`) models `insertInChunks`.
  - Records are copied and their fields rewritten through `externalIdMap`.
  - Chunks of 200 are submitted in order.
  - `results` and `insertedIds` are accumulated.
  - The method `InsertInChunks` has the source's loops. It is proved equal to the specification function `ChunkedResults` and to `SuccessIds`.
- `Hierarchy` (`hierarchy.dfy`) models `insertWithHierarchyHandling`, the wave loop over the self-referencing field `ParentTerritory2Id`.
  - The method `InsertWithHierarchyHandling` keeps the source's loops: the `while` over waves, the partition loop, the loop over batches and the `forEach` over answers.
  - It is proved equal to the specification function `Hierarchy`, which is defined through `RunWaves`, `SubmitBatches` and `Absorb`, and all properties are proved about that function.
  - The loop's state is a `Ledger`: `idMap`, the number of create calls, `logs`, and a ghost trace `sets` of the keys passed to `idMap.set`.

Behaviour of the code that the model keeps as written:

- The failure message for an unresolved parent is the code's text: `Parente com ID <parent> não encontrado.`, with `String(parent)` inserted.
- A log entry's success mark (`'✅'` / `'❌'`) is the boolean `inserted`.
- If `create` answers a batch with more results than records, reading `batch[j].Id` throws a TypeError and the call rejects. The model returns `None` for the whole run (`AbsorbCrash`).
- With fewer results than records, the records without an answer get no log.
- A success without an id stores `undefined` in `idMap`.
  - Its children are then ready, but their parent becomes `null` through `?? null`.
  - So `IdMap` maps to `Option<string>`.
- `idMap` is updated only for a success whose original `Id` is truthy.
  - A record without an `Id` can be inserted and logged.
  - Its children then never become ready.
- `groupByParentTerritory` tests `ParentTerritoryId`, while the wave loop reads `ParentTerritory2Id`. Both are modelled as written.

## Model

| member | source | states |
|---|---|---|
| Chunking.Chunks | src/utils.ts:8-12 | for a positive size: the number of chunks is the least k with k*size >= n (ceil(n/size)); every chunk is non-empty and at most size long; every chunk but the last has exactly size elements |
| Chunking.ChunkArray | src/utils.ts:8-12 | for any integer size: fails (RangeError) exactly when size is 0 and the input is non-empty; a positive size gives the chunks; any other size gives no chunks |
| Chunking.CeilDiv | src/utils.ts:9 | `Math.ceil(n / size)` is the least k whose k chunks cover n elements |
| Chunking.CeilDivUnique | src/utils.ts:9 | any k meeting both ceiling bounds is `Math.ceil(n / size)` |
| Chunking.FlattenChunks | src/utils.ts:8-12 | concatenating the chunks gives back the input, in order |
| Chunking.ChunksCons | src/utils.ts:8-12 | the first chunk is the first size elements, and the remaining chunks are the chunks of the rest |
| Chunking.FlattenAt | src/utils.ts:8-12 | element j of chunk i sits at position i*size + j of the concatenation |
| Chunking.ChunksOfFive | src/utils.ts:8-12 | 5 elements in chunks of 2 give 3 chunks of sizes 2, 2 and 1 |
| Grouping.Roots | src/utils.ts:42 | a record is a root iff it is in the input and its `ParentTerritoryId` is falsy |
| Grouping.Children | src/utils.ts:43 | a record is a child iff it is in the input and its `ParentTerritoryId` is truthy |
| Grouping.GroupByParentTerritory | src/utils.ts:41-45 | roots have a falsy parent, children a truthy one, and every input record lands in one group |
| Grouping.GroupIsPartition | src/utils.ts:41-45 | the group sizes sum to the input size, and the two groups together hold every record exactly as often as the input (multisets) |
| Grouping.GroupConcat | src/utils.ts:41-45 | both filters keep input order: grouping a concatenation concatenates the groups |
| ChunkedInsert.Resolved | src/utils.ts:58-66 | the copy has the same fields as the record; a field whose value has a truthy entry holds that entry; every other field is unchanged |
| ChunkedInsert.ResolveRecord | src/utils.ts:59-65 | the spread copy plus the `for...in` loop yields exactly `Resolved` |
| ChunkedInsert.ResolvedEmptyMap | src/utils.ts:51 | with the default `externalIdMap = {}` the copy equals the record |
| ChunkedInsert.ResolvedAll | src/utils.ts:58-66 | one copy per record of the chunk |
| ChunkedInsert.ResolveChunk | src/utils.ts:58-66 | the `chunk.map` yields the copies of every record, in order |
| ChunkedInsert.SuccessIds | src/utils.ts:69 | at most one id per result; one per result iff all succeed; the id of every success is collected |
| ChunkedInsert.SuccessIdsOrigin | src/utils.ts:69 | every collected id is the id of some successful result |
| ChunkedInsert.SuccessIdsConcat | src/utils.ts:69 | collecting chunk by chunk equals collecting over all results, in order |
| ChunkedInsert.InsertInChunks | src/utils.ts:53-75 | `results` is the in-order concatenation of the answers to each chunk's rewritten copies; `insertedIds` is exactly the ids of its successes, in order |
| ChunkedInsert.OneResultPerInput | src/utils.ts:57-70 | if the destination answers each record once, there is one result per input record |
| ChunkedInsert.ResultAt | src/utils.ts:57-70 | the result at the position of input record i*200 + j is create call i's answer for that record's rewritten copy |
| JsValues.Truthy | src/utils.ts:104 | JavaScript truthiness, as tested by `!parentId`, `if (externalIdMap[...])`, `oldId` and the two filters: `undefined`, `null`, `false`, `0` and `""` are falsy |
| JsValues.ToJsString | src/utils.ts:121 | `String(v)`: the text inserted in the failure message and the property key `externalIdMap[v]` looks up |
| ChunkedInsert.Lookup | src/utils.ts:61 | the map's entry for the value's property key, when that entry is truthy (a non-empty string) |
| ChunkedInsert.ChunkedResults | src/utils.ts:53-70 | the answers to each chunk of 200 rewritten copies, create call i for chunk i, concatenated in chunk order |
| Hierarchy.IsReady | src/utils.ts:104 | a record is ready when its parent is falsy or already a key of `idMap` |
| Hierarchy.NewParent | src/utils.ts:105-108 | the new parent is the mapped id, or `null` when the parent is unmapped or mapped to `undefined` |
| Hierarchy.ReadyOf | src/utils.ts:102-113 | the rewritten copies of the ready records, in input order |
| Hierarchy.StillPendingOf | src/utils.ts:102-113 | the records that are not ready, in input order |
| Hierarchy.LogOf | src/utils.ts:140-144 | the entry for one answer: its success mark, its id, and its first error message when it failed |
| Hierarchy.UnresolvedLog | src/utils.ts:118-122 | a failure entry without id whose message names the record's parent |
| Hierarchy.Step | src/utils.ts:132-145 | handling answer j fails exactly when the batch has no record j; otherwise it appends that answer's log and makes no create call |
| Hierarchy.Absorb | src/utils.ts:132-145 | the answers of a batch are absorbed only when there are no more of them than records; then one log per answer is appended and no create call is made |
| Hierarchy.SubmitBatches | src/utils.ts:129-149 | a wave that completes makes exactly one create call per batch |
| Hierarchy.RunWaves | src/utils.ts:97-153 | wave after wave: submit the ready copies in chunks of 200 and go on with the rest; with nothing ready, fail every remaining record and stop |
| Hierarchy.Hierarchy | src/utils.ts:84-157 | the logs the run resolves with, or `None` where it rejects |
| Hierarchy.Rewrite | src/utils.ts:103-109 | the copy keeps every field and has `ParentTerritory2Id` even when the record lacked it; only that field changes, to the mapped new id when there is one and otherwise `null` |
| Hierarchy.ReadyMembers | src/utils.ts:102-113 | a record is submitted in a wave iff its parent is falsy or already in `idMap`, and what is submitted is its rewritten copy |
| Hierarchy.StillPendingMembers | src/utils.ts:102-113 | the records left pending are exactly those that are not ready |
| Hierarchy.PartitionSizes | src/utils.ts:102-113 | every pending record goes to exactly one side; a wave that inserts something leaves strictly fewer pending; an empty ready side leaves all pending |
| Hierarchy.PartitionConcat | src/utils.ts:102-113 | both sides of the partition keep input order |
| Hierarchy.ReadyParents | src/utils.ts:104-109 | a submitted record's parent is `null` or a destination id taken from `idMap`, never a source id |
| Hierarchy.SplitWave | src/utils.ts:99-113 | the partition loop builds exactly the ready copies and the still-pending records |
| Hierarchy.UnresolvedParentMessage | src/utils.ts:121 | the failure message contains the parent reference as text, between the fixed prefix and suffix |
| Hierarchy.LogUnresolved | src/utils.ts:117-123 | appends one failure log per remaining record, in order |
| Hierarchy.TerminalFailure | src/utils.ts:115-125 | a wave with nothing ready ends the run: each remaining record gets one failure log naming its parent, in order, and nothing else changes |
| Hierarchy.AbsorbResults | src/utils.ts:132-145 | the `forEach` over one batch's answers fails exactly where the specification does and otherwise reaches its state |
| Hierarchy.AbsorbCrash | src/utils.ts:133-134 | more answers than records makes the run fail |
| Hierarchy.AbsorbEffect | src/utils.ts:132-145 | one log per answer, in order, copying success, id and first error; `idMap` gains exactly the ids of records whose answer is a success with a truthy `Id` |
| Hierarchy.AbsorbMapsIds | src/utils.ts:136-138 | with distinct ids in a batch, each success maps the record's old id to the returned id, and keys no success writes keep their value |
| Hierarchy.SubmitWave | src/utils.ts:127-149 | the loop over a wave's batches fails exactly where the specification does and otherwise reaches its state |
| Hierarchy.SubmitPrefixNone | src/utils.ts:129-149 | a failure in one batch fails the whole wave |
| Hierarchy.SubmitOneLogPerRecord | src/utils.ts:127-149 | with one answer per record, a wave never fails, makes one create call per batch and logs once per ready record |
| Hierarchy.InsertWithHierarchyHandling | src/utils.ts:84-157 | the imperative wave loop returns exactly what the specification `Hierarchy` gives, including rejection |
| Hierarchy.RunWavesOneLogPerRecord | src/utils.ts:97-153 | with one answer per record, the waves never fail and add one log per pending record |
| Hierarchy.OneLogPerRecord | src/utils.ts:97-153 | with one answer per record, the run resolves with exactly one log per input record, and each entry is a copied answer of the destination (success with its id, or failure with its first error) or the unresolved-parent failure of an input record whose parent is set |
| Hierarchy.LogEntries | src/utils.ts:117-145 | whenever the run resolves, every log entry is `LogOf` of some answer of a create call, or `UnresolvedLog` of an input record with a truthy `ParentTerritory2Id` |
| Hierarchy.RunWavesWritesOnce | src/utils.ts:97-153 | with distinct ids, across all waves every key written to `idMap` is new, is the id of a pending record, and the keys written are the keys of the map |
| Hierarchy.WritesOnce | src/utils.ts:136-138 | with distinct input ids, no key of `idMap` is set twice in a run, and every key is the id of an input record |
| Hierarchy.SingleInsert | src/utils.ts:130-145 | a one-record wave that succeeds makes one create call, logs once and maps the record's id to the new id |
| Hierarchy.TerritoryScenario | src/utils.ts:97-153 | Territory 1 is a root, 2 a child of 1, and 3 a child of a missing 99. The result is inserted "0", inserted "1", then failed with the message naming 99 |
| Hierarchy.CycleScenario | src/utils.ts:97-125 | two records that name each other as parent both fail with messages naming the other, and no create call is made |

## Left out

- `getAllRecords` and `getWritableFields` (src/utils.ts:14-39) are remote queries and a describe call. They are I/O.
- `src/auth.ts`, `src/excel.ts`, `src/main.ts`, `clone.ts` and `clone.js` are login, workbook output, prompts and orchestration, and are not part of this model. Their copies of `chunkArray` are the same function.
- The `ora` spinner and log output (src/utils.ts:72, 89, 116, 147, 155) is progress reporting only. The `wave` and `insertedCount` counters feed only that text, so they are dropped.
- `async`/`await`: the code awaits each remote call in turn, so the model is sequential and `create` is an oracle. A rejected remote call is not modelled; `create` always answers.
- Numbers are integers. `NaN`, `-0` and fractional values, with their truthiness and their `String` forms, are not modelled.
- Chunking.ChunkArray: only integer sizes are modelled. A fractional size would make `Math.ceil` and `slice` produce chunks of uneven length.
- ChunkedInsert.Lookup: inherited property names of `Object.prototype` are not modelled. `String(v)` is approximated: every object value is `[object Object]`, although arrays and dates print differently, and integers of 1e21 or more are printed in full rather than in exponent form.
- Hierarchy.UnresolvedParentMessage: inserts the same approximated `String(parent)`, so the message differs from the code's for an array, a date or a parent number of 1e21 or more.
- An error entry without a `message` is modelled as carrying one, namely the error's text. `res.errors?.[0]?.message` being `undefined` for such an entry is not separated out.
- `Map` keys are compared by the model's value equality, which stands for JavaScript's SameValueZero on the value kinds modelled.
- No bound on the number of waves (for example depth+1 for an acyclic forest) is proved. What is proved is termination: each wave that inserts something shrinks `pending`, and a wave that inserts nothing stops.
- The cascade resolver, external-identity deduplication and identity-field configuration are not in the source files modelled.
