# Memory-mapped vector storage and filtered scorer

A Dafny model of two pieces of the qdrant segment library.

- **`MemmapVectorStorage`** keeps fixed-dimension vectors in a file that
  is memory-mapped, with a parallel file of one deletion flag per slot
  and a cached count of set flags. With the files set aside, it is a
  table of vectors indexed by point offset, a table of flags, a counter
  and a "map is open" bit. The class `MemmapStorage.MemmapVectorStorage`
  holds exactly that state.
  - A bulk ingest (`update_from`) appends the live vectors of another
    storage. It closes the map while the files grow and reopens it at
    the end.
  - A delete sets a flag; slots are never reused.
  - Iteration, scoring and the raw scorer skip every offset whose flag
    is set or that has no slot.
- **`MemmapRawScorer`** is bound to one preprocessed query and to the
  storage's tables. It streams `(offset, similarity)` pairs for the live
  candidates, in candidate order.
- **`FilteredScorer`** combines a raw scorer with an external payload
  condition checker and an optional filter. It hands the admissible
  candidates, with their scores, to a caller-supplied action. The action
  is modelled by the sequence of values it is handed.

Modules:

- `Wrappers`: `Option` and `Result`.
- `Sequences`: an order-keeping `Filter` and ordered subsequences.
- `Scoring`: vectors, metrics, scored offsets and top-k selection.
- `MemmapStorage`: flags, live offsets, the raw scorer and the storage
  class.
- `PointScorer`: the filtered scorer.
- `Scenarios`: the storage's two unit tests, replayed against the model.

Vector elements are `real`. A metric is a pair of function values,
`preprocess` and `similarity`, that the model never computes with; only
the unit-test scenarios supply a concrete dot product. File-system
failures are an input of every operation that touches files: opening,
bulk ingest and flushing.

## Model

Paths are in the qdrant repository.

| member | source | states |
|---|---|---|
| MemmapStorage.MemmapVectorStorage.Open | lib/segment/src/vector_storage/memmap_vector_storage.rs:49-66 | succeeds iff the directory and maps can be set up and the two files describe the same slots of the given dimension, otherwise an I/O error; on success a new storage holding exactly those vectors and flags, with the map open and the cached count matching the flags |
| MemmapStorage.MemmapVectorStorage.VectorDim | lib/segment/src/vector_storage/memmap_vector_storage.rs:71-73 | every stored vector has the returned dimension |
| MemmapStorage.MemmapVectorStorage.VectorCount | lib/segment/src/vector_storage/memmap_vector_storage.rs:75-77 | live count plus deleted count is the number of slots, and the live count is the number of offsets iteration yields |
| MemmapStorage.MemmapVectorStorage.DeletedCount | lib/segment/src/vector_storage/memmap_vector_storage.rs:79-81 | the cached count is the number of set flags and never exceeds the number of slots |
| MemmapStorage.MemmapVectorStorage.GetVector | lib/segment/src/vector_storage/memmap_vector_storage.rs:83-85 | a vector comes back exactly when the map is open and the slot exists, deleted or not, and it is the stored one |
| MemmapStorage.MemmapVectorStorage.PutVector | lib/segment/src/vector_storage/memmap_vector_storage.rs:87-89 | appending one vector is always refused, with nothing changed |
| MemmapStorage.MemmapVectorStorage.UpdateVector | lib/segment/src/vector_storage/memmap_vector_storage.rs:91-93 | overwriting a slot is always refused, with nothing changed |
| MemmapStorage.MemmapVectorStorage.UpdateFrom | lib/segment/src/vector_storage/memmap_vector_storage.rs:95-141 | succeeds iff no file fault; on success returns old slot count .. old count + number of live ids of the source, appends the source's live vectors in iteration order with clear flags, keeps every old slot, flag and the deleted count, leaves the map open, and the live offsets grow by exactly the new range; on failure reports an I/O error, leaves the tables unchanged and the map closed |
| MemmapStorage.ReadLive | lib/segment/src/vector_storage/memmap_vector_storage.rs:111-116 | the copy loop yields the source's live vectors, one per live id, in the source's iteration order |
| MemmapStorage.GrowKeepsValid | lib/segment/src/vector_storage/memmap_vector_storage.rs:128-138 | appending vectors of the storage's dimension with clear flags keeps the tables in step and every vector of that dimension, adds no deleted slot, and adds the new slots as live after the old live offsets |
| MemmapStorage.AppendZerosKeepsDeleted | lib/segment/src/vector_storage/memmap_vector_storage.rs:128-130 | appending clear flags leaves the number of set flags unchanged and appends the new offsets, ascending, to the live offsets |
| MemmapStorage.StorageImage.LiveVectors | lib/segment/src/vector_storage/memmap_vector_storage.rs:111-112 | the i-th vector read from the source is the one stored at the source's i-th live offset |
| MemmapStorage.StorageImage.IterIds | lib/segment/src/vector_storage/memmap_vector_storage.rs:111 | the source's iteration yields exactly its slots with a clear flag |
| MemmapStorage.StorageImage.GetVector | lib/segment/src/vector_storage/memmap_vector_storage.rs:112 | the source returns the stored vector for every existing slot |
| MemmapStorage.MemmapVectorStorage.Delete | lib/segment/src/vector_storage/memmap_vector_storage.rs:143-145 | succeeds iff the offset is a slot, else out of range with nothing changed; sets that one flag, raises the deleted count only if the flag was clear, and removes exactly that offset from the live offsets, keeping the others in order |
| MemmapStorage.SetFlagCount | lib/segment/src/vector_storage/memmap_vector_storage.rs:143-145 | setting a flag adds one to the number of set flags iff it was clear |
| MemmapStorage.SetFlagLive | lib/segment/src/vector_storage/memmap_vector_storage.rs:143-152 | setting flag k turns the live offsets into the old ones without k, in the same order |
| MemmapStorage.LiveOffsets | lib/segment/src/vector_storage/memmap_vector_storage.rs:147-152 | strictly ascending; every element is an offset with a clear flag; every offset with a clear flag is present; live plus deleted equals the number of slots |
| MemmapStorage.MemmapVectorStorage.IterIds | lib/segment/src/vector_storage/memmap_vector_storage.rs:147-152 | iteration yields exactly the slots with a clear flag, strictly ascending, as many as the slots minus the deleted count |
| MemmapStorage.MemmapVectorStorage.Flush | lib/segment/src/vector_storage/memmap_vector_storage.rs:154-158 | with the map closed it succeeds; with the map open it succeeds iff the sync does, and otherwise reports an I/O error |
| MemmapStorage.MemmapVectorStorage.RawScorer | lib/segment/src/vector_storage/memmap_vector_storage.rs:161-171 | the scorer holds the preprocessed query, the metric and the storage's own tables, and it accepts an offset iff iteration yields it |
| MemmapStorage.MemmapRawScorer.CheckPoint | lib/segment/src/vector_storage/memmap_vector_storage.rs:29 | the raw scorer's liveness test accepts a point iff it is a slot that iteration over the live offsets yields |
| MemmapStorage.MemmapRawScorer.ScorePoints | lib/segment/src/vector_storage/memmap_vector_storage.rs:27-38 | every emitted pair is a candidate that is in range and not deleted, paired with the similarity of the query to its stored vector; never more pairs than candidates |
| MemmapStorage.MemmapRawScorer.ScorePointsIds | lib/segment/src/vector_storage/memmap_vector_storage.rs:28-36 | the emitted offsets are exactly the live candidates in candidate order; out-of-range ones are skipped, not errors |
| MemmapStorage.MemmapRawScorer.KeepsCandidateOrder | lib/segment/src/vector_storage/memmap_vector_storage.rs:28-36 | when every candidate is live, the emitted offsets are the candidates one for one |
| MemmapStorage.MemmapRawScorer.ScoreAfterFilter | lib/segment/src/vector_storage/memmap_vector_storage.rs:28-36 | scoring a filtered candidate stream equals filtering the scored stream by offset |
| MemmapStorage.MemmapVectorStorage.ScorePoints | lib/segment/src/vector_storage/memmap_vector_storage.rs:173-192 | only live candidates come back, each with the similarity of the preprocessed query to its stored vector; as many as the smaller of top and the number of live candidates; best score first; drawn from the raw stream over the candidates without repetition beyond it, and no dropped entry of that stream outscores a kept one |
| MemmapStorage.SelectedAreScored | lib/segment/src/vector_storage/memmap_vector_storage.rs:181-191 | anything top-k selection keeps from the raw stream is a live candidate with its own score |
| MemmapStorage.MemmapVectorStorage.ScoreAll | lib/segment/src/vector_storage/memmap_vector_storage.rs:194-207 | only live slots come back, with their scores; as many as the smaller of top and the live count; best score first; drawn from the raw stream over the live offsets, and no dropped entry of it outscores a kept one |
| MemmapStorage.MemmapVectorStorage.ScoreInternal | lib/segment/src/vector_storage/memmap_vector_storage.rs:209-218 | as storage scoring of the candidates, with the vector stored at the given offset as the query: live candidates with their scores, the smaller of top and the live-candidate count, best first, drawn from that query's raw stream with no dropped entry outscoring a kept one |
| Scoring.PeekTopScores | lib/segment/src/vector_storage/memmap_vector_storage.rs:191 | keeps the smaller of top and the input size, drawn from the input, best score first, and no dropped entry outscores a kept one |
| PointScorer.FilteredScorer.CheckPoint | lib/segment/src/index/hnsw_index/point_scorer.rs:13-18 | admissible iff the raw scorer's liveness test holds and, when there is a filter, the checker accepts the point |
| PointScorer.FilteredScorer.ScoreIterablePoints | lib/segment/src/index/hnsw_index/point_scorer.rs:20-30 | every value handed to the action is admissible and carries the raw score; never more values than candidates |
| PointScorer.FilteredScorer.EmitsAdmissibleCandidates | lib/segment/src/index/hnsw_index/point_scorer.rs:23-29 | the offsets handed to the action are exactly the admissible candidates, in candidate order, with or without a filter |
| PointScorer.FilteredScorer.FilteredIsUnfilteredMinusRejected | lib/segment/src/index/hnsw_index/point_scorer.rs:25-28 | with a filter, the action sees the raw scorer's stream over all candidates minus the points the checker rejects |
| PointScorer.FilteredScorer.FilteredIsSubsequence | lib/segment/src/index/hnsw_index/point_scorer.rs:23-29 | what the action sees is an ordered subsequence of the unfiltered raw stream |
| PointScorer.FilteredScorer.ScorePoints | lib/segment/src/index/hnsw_index/point_scorer.rs:32-39 | the slice form hands the action the admissible ids in slice order, each with its raw score |
| Scenarios.FilledSource | lib/segment/src/vector_storage/memmap_vector_storage.rs:241-246 | a source filled by single appends has every slot live, in order |
| Scenarios.IngestThree | lib/segment/src/vector_storage/memmap_vector_storage.rs:240-256 | ingesting three vectors: live count 3, deleted count 0, offset 1 holds the second vector |
| Scenarios.IngestThreeDeleteOne | lib/segment/src/vector_storage/memmap_vector_storage.rs:258 | deleting offset 2 leaves offsets 0 and 1 live |
| Scenarios.IngestTwoMore | lib/segment/src/vector_storage/memmap_vector_storage.rs:260-273 | two more ingested: live count 4 and iteration yields 0, 1, 3, 4 |
| Scenarios.ScoreAllSkipsDeleted | lib/segment/src/vector_storage/memmap_vector_storage.rs:276-280 | scanning for the top two yields two results, none of them offset 2 |
| Scenarios.FourLiveCandidates | lib/segment/src/vector_storage/memmap_vector_storage.rs:282-283 | with offset 2 deleted, the live candidates among 0..4 are 0, 1, 3, 4 |
| Scenarios.ScorePointsSkipsDeleted | lib/segment/src/vector_storage/memmap_vector_storage.rs:282-286 | scoring candidates 0..4 for the top two yields two results, none of them offset 2 |
| Scenarios.BasicPersistence | lib/segment/src/vector_storage/memmap_vector_storage.rs:230-287 | the whole persistence test: ids 0, 1, 3, 4, and both scoring paths give two results without offset 2 |
| Scenarios.IngestFive | lib/segment/src/vector_storage/memmap_vector_storage.rs:300-310 | five vectors ingested into an empty storage, all live, the fifth stored at offset 4 |
| Scenarios.RawScorerKeepsOrder | lib/segment/src/vector_storage/memmap_vector_storage.rs:312-324 | the raw scorer over candidates 0, 2, 4 emits them in that order, and the last scores -1 under the dot product |
| Scenarios.RawScorerOrder | lib/segment/src/vector_storage/memmap_vector_storage.rs:290-325 | the whole raw-scorer test on a storage filled by one bulk ingest |

## Left out

- File and memory-map plumbing is not modelled: directories, paths, opening, appending, flushing and remapping. Only its effect on the tables, and whether the map is open, is modelled. Each file step that can fail is a value of `IngestFault`, or a flag for `Open` and `Flush`.
- Partial writes are not modelled. A bulk ingest that fails after writing some bytes leaves the files longer in the system; in the model the tables are unchanged and the map stays closed.
- The raw byte reinterpretation of vectors and flags (`vf_to_u8`, `test_casts`) is not modelled. It defines no byte encoding.
- The memory-mapped table itself (`MmapVectors`: open, per-slot lookup, flag lookup, delete, flush) is not part of this model. Its lookups are read off the two tables.
- MemmapStorage.MemmapVectorStorage.Delete: follows the storage contract, because `MmapVectors::delete` is not part of this model. An offset past the end is `OutOfRange`, deleting twice changes nothing, and the count rises only when a flag goes from clear to set.
- Float arithmetic, `Distance` and the metric factory are not modelled. Elements are `real`, and a metric's `preprocess` and `similarity` are function values.
- Scoring.PeekTopScores: the selection is a concrete stable sort by descending score, cut at `top`. The system picks the order from the distance, and its top-k routine is not part of this model. Only the properties proved here are claimed.
- The payload condition checker and its filter type are not modelled. They are a function value `check(point, filter)` over an arbitrary type.
- Lazy iterators are finite sequences, and the action callback is the sequence of values it receives. Lifetimes, borrowing and concurrent readers around unmap and remap are not modelled.
- MemmapStorage.MemmapVectorStorage.PutVector and MemmapStorage.MemmapVectorStorage.UpdateVector: the system aborts the process. The model returns `Unsupported` and changes nothing.
- MemmapStorage.MemmapVectorStorage.UpdateFrom: requires the map to be open, since the system aborts on a closed map. It also requires the source's vectors to have the storage's dimension, which the system does not check. `ReadLive` copies the vectors and `UpdateFrom` then sets the end offset to start plus the number copied; the system counts it up inside the copy loop, which gives the same value.
- MemmapStorage.MemmapVectorStorage.ScoreInternal: requires an open map and an existing slot, since the system aborts otherwise. It scores with the stored vector even when that slot is deleted, as the code does.
- The operations that read the map (`VectorDim`, `VectorCount`, `DeletedCount`, `IterIds`, `RawScorer`, `Delete` and the scoring functions) require the map to be open. Most abort on a closed map. Storage scoring over an empty candidate slice is the exception: the system returns an empty result without touching the map, and the model leaves that edge case out.
- MemmapStorage.MemmapVectorStorage.Open: the memory-mapped table is not part of this model. Files whose vectors and flags describe different slots, or hold vectors of another dimension, are reported as an I/O error.
- MemmapStorage.MemmapRawScorer.CheckPoint: the storage's raw scorer does not define its own liveness test. It is modelled as the test its stream applies: in range and not deleted.
