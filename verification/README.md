# A model of the ancestor key-value store

`ancestor` is a transactional key-value store whose key space is cut into ranges, each kept by a
group of nodes, with a placement driver that knows where the ranges are. This project models three
parts of it in Dafny and proves what they promise.

**The client.** A transaction buffers its writes and sends them in batches, one or more per range;
it reads through its buffer, its own intents and a snapshot; it walks ranges with an iterator and
reads many keys at once; at the end it hands the keys it sent to resolvers. Ranges split and
leaders move while all this goes on, requests fail, and a put that failed may still have happened
for some of its keys. `Keys`, `RangeCache`, `Cluster`, `NodeRequest`, `Batches`, `TxnLog`, `Txn`,
`Iteration`, `BatchRead`, `Session` and `Retry` model it. What is proved is that each part agrees
with the simple thing it speeds up: one sorted map with an overlay.

**The wire codec.** `Varint`, `Wire`, `Messages`, `PackedIDs`, `Layouts`, `Fields` and `Marshal` model the generated
Protocol Buffers code: varints, nested and repeated messages, packed fields, and the recursive
skipping of unknown fields and groups. Encoders write into a byte array at a moving index, decoders
loop over an index; both are proved to refine recursive definitions, and those to round-trip.

**The placement driver.** `IdAllocator` and `MasterElection` are state machines of any number of
servers over one etcd register, where replies may be lost and writes land late. `SplitBackoff` and
`Replicas` model the split back-off and the replica top-up.

## How the cluster is modelled

All that the environment decides is given by functions of the number of requests made so far
(`Cluster.World`): where a key's range is, which fault a request meets, whether and how the driver
or a connection fails, which keys of a failed put took effect. Nodes answer by contract: a right
answer for what was asked, or one of the named errors, a write conflict among them, and operations are proved to fail only when something
went wrong (`Cluster.Calm`). At each time the ranges partition the space, and over time ranges only
split; only finitely many range ends ever occur, without which a scan across ranges need not end.
`Environment` shows for any data that these assumptions can be met, by one range that stays and by
one that splits while a request meets it.

A transaction's history is a sequence of events (`NodeRequest.Event`): keys written, and begins,
puts and ends sent, acknowledged or not. The invariants that every operation keeps are predicates
of that history, the buffer, the intents and the resolve pool (`TxnLog.Sane`).

Where the code and its documentation disagree the code is followed. `snapshot.Get` returns its value
variable beside the call whose callback sets it; the model returns the value set. Some laws hold
only under a condition, and both directions are proved: Get is unaffected by a flush unless an empty
key leaves the buffer (`TxnLog.FlushKeepsAnswers`), a ready server is master unless it was stopped
since it became master (`MasterElection.ReadyIsMasterUnlessStopped`), and identifiers are unique for
exactly 2^64 effects (`IdAllocator.UniqueInAllRunsExactly`). The leader position and the contacted
node agree exactly when followed hints name replicas (`NodeRequest.ContactsSoundIffHintsGood`). A
write flushed while an iterator is open is yielded exactly when the scan key has not passed it
(`Iteration.WrittenMeanwhile`).

Retryable errors come from nodes, from the driver, and from a request that ran out of attempts. Only
the last is untraced when EndTransaction tests for it by type, so only the last marks a transaction
aborted: one that was pushed aside still says that it is committed (`Session.UnacceptedCommit`).
`ClientError.NeedRetry` carries whether it was traced.

## Model

| member | source | states |
|---|---|---|
| `Keys.Trichotomy` | meta/data.go:90-98 | byte strings are totally ordered by Less: exactly one of less, equal, greater |
| `Keys.LeqTransitive` | meta/data.go:90-98 | the order is transitive, strictly so when either step is strict |
| `Keys.NextIsAdjacent` | meta/data.go:71-88 | no byte string lies strictly between a key and its Next |
| `Keys.UserKeysInSpace` | meta/data.go:76-83 | a prefixed user key lies between the user and end prefixes, and stripping the prefix gives the key back |
| `Keys.EndPrefixOnlyAtEnd` | client/iter.go:34 | up to the end prefix, the iterator's prefix test holds exactly at the end prefix itself |
| `RangeCache.OverlapMeansContains` | client/range_cache.go:43-54 | the interval question asked by lookup has the linear answer start <= key < end for every non-empty key, except that a range starting at the empty key is never found |
| `RangeCache.KeyIntervalProper` | util/cache/cache.go:391-396 | the interval from a key to its Next is accepted exactly when the key is not empty |
| `RangeCache.Cache.constructor` | client/range_cache.go:35-39 | a new cache is empty and valid: ranges disjoint, leader positions in range |
| `RangeCache.Cache.Add` | client/range_cache.go:56-63 | files any descriptor with a proper interval under a fresh identifier with leader position 0; the cache stays valid when the descriptor is well formed and overlaps none there |
| `RangeCache.Cache.Lookup` | client/range_cache.go:65-77 | finds the one cached descriptor that holds a non-empty key, and none exactly when linear search finds none |
| `RangeCache.Cache.Clear` | client/range_cache.go:79-83 | empties the cache |
| `RangeCache.Cache.SetLeaderNodeIdx` | client/range_cache.go:95-97 | changes only the leader position of one descriptor and keeps it in range |
| `RangeCache.Cache.SetLeaderNodeID` | client/range_cache.go:99-107 | finds the first position of a node among the replicas of a descriptor, cached still or not, and stores it; an unknown node gives 0 and changes nothing |
| `RangeCache.IndexOf` | client/range_cache.go:99-107 | the first position of the node if it is a replica, else 0 |
| `Cluster.OverlapMeansWithin` | client/base.go:55-69 | when ranges only split, a freshly fetched range overlaps an older one only if the older one holds the key it was fetched for, so a fetched descriptor never overlaps the cache |
| `Cluster.ApplyPutEffect` | client/batch.go:71-88 | a put changes no other key and each of its own keys entirely or not at all; all of them when it is acknowledged |
| `Cluster.TornExactly` | client/batch.go:71-88 | an acknowledged put takes effect for all its keys, a failed one exactly for those that were torn |
| `Cluster.IntentsOverData` | client/txn.go:103-113 | a transaction sees its own intents and, where it has none, the data |
| `NodeRequest.Base.constructor` | client/base.go:28-30 | a client with an empty cache and history |
| `NodeRequest.Base.GetRangeDescFromCache` | client/base.go:54-69 | the cached descriptor that holds the key, nothing else changing; or, if there is none, what the driver says, cached under leader position 0, or the driver's error, retryable or not; the cache stays disjoint |
| `NodeRequest.Base.Locate` | client/base.go:54-69 | the descriptor, which holds the key and was right when it was fetched |
| `NodeRequest.Base.Call` | client/base.go:120-123 | an answer that is right for the data, or the fault met; exactly one event and the effect of the request |
| `NodeRequest.Base.Redirect` | client/base.go:129-153 | what a fault leads to, in full: the error it stands for, the same node, the next replica, the hinted node, or, for a moved range, what the driver says at that moment, or its error; a hint changes only the leader kept, a moved range empties the cache, any other fault changes nothing |
| `NodeRequest.Base.Refetch` | client/base.go:144-149 | a moved range empties the cache, and the next attempt is at the first replica of what the driver then says, alone in the cache; or the error is the driver's |
| `NodeRequest.Base.Recover` | client/base.go:125-153 | a stopped client gives up after a fault, exactly then; otherwise the fault is redirected |
| `NodeRequest.Base.AskDriver` | client/base.go:159-187 | a request to the driver gives the error of the driver at that time, if any: refused, out of attempts and so retryable, or stopped |
| `NodeRequest.Base.Remember` | client/base.go:120-123 | success leaves the position of the node that answered in the cache |
| `NodeRequest.Base.Try` | client/base.go:115-123 | one contact is recorded with its time, its answer, its event and its effect |
| `NodeRequest.Base.Accept` | client/base.go:120-127 | after a successful callback the position is kept and the answer returned; only Get of a missing key can still fail, exactly for a stopped client |
| `NodeRequest.Base.Settle` | client/base.go:120-153 | the end of a turn, after the callback, in full |
| `NodeRequest.Base.Attempt` | client/base.go:114-154 | one turn of the loop in full: without a connection its error, no contact; otherwise one contact, and success, the error or the next contact by its fault, whether the client was stopped, and the driver |
| `NodeRequest.Base.Chase` | client/base.go:114-157 | over the whole loop at most 51 attempts starting at the given one, each leading to the next, all to nodes of a range that holds the key; after a moved range the next is what the driver says after it; failed events then at most one acknowledged; the answer is right; the untraced retryable error means 51 contacts were made |
| `NodeRequest.Base.DoNodeRequest` | client/base.go:107-157 | the same from any valid state, starting at the leader kept for the key, or fetched if none was; success records the position of the node that answered; any error but the untraced one, a retryable one from a node or the driver included, names something that happened meanwhile; conflicts give a retryable error after one contact, nodes that are all down the untraced one; it succeeds where nothing goes wrong |
| `NodeRequest.TurnExplained` | client/base.go:114-154 | every error of a turn is blamed on something that happened at its time; with nothing wrong it succeeds; a conflict ends it, a lost connection does not |
| `NodeRequest.ErrorsByCause` | client/base.go:72-187 | error by error what may have caused it: a retryable one only a conflict or a driver that ran out of attempts, and always traced |
| `NodeRequest.ChaseOn` | client/base.go:114-154 | one more turn keeps the walk: the contacts so far lead from one to the next, over live connections, of a client that was not stopped |
| `NodeRequest.AnswerMeans` | client/base.go:107-157 | what an answer means to a caller: a read changes nothing, all contacts hold the key, success is a right answer |
| `NodeRequest.ContactsSoundIffHintsGood` | client/base.go:129-149 | every attempt contacts the replica at the position kept, exactly when every leader hint followed names a replica |
| `NodeRequest.BadHintIsUnsound` | client/base.go:136-142 | a walk with a hint that names no replica, after which another node than that at the position kept is contacted |
| `NodeRequest.SweepVisitsEveryReplica` | client/range_cache.go:90-93 | as many connection failures in a row as there are replicas visit every position |
| `Batches.InOrder` | util/cache/cache.go:311-316 | walking the ordered cache meets every key once, ascending |
| `Batches.AddRequestGroups` | client/txn.go:188-194 | adding one entry to the batch of its range keeps the batches equal to the entries of each range in order |
| `Batches.SelectHolds` | client/txn.go:182-194 | an entry is in a range's batch exactly when its key was routed there |
| `Batches.SelectAscends` | client/txn.go:174-197 | a batch keeps the entries in key order |
| `Batches.GroupingConserves` | client/txn.go:171-200 | each entry is in exactly one batch, that of the range its key was routed to |
| `Batches.GroupsAreOrdered` | client/txn.go:171-200 | a batch holds entries only, in key order, no key twice |
| `Batches.AttemptsAck` | client/txn.go:245-257 | all attempts at one chunk together acknowledge its items once, or nothing if it failed |
| `Txn.DbTxn.CreateBatchPutRequest` | client/txn.go:171-200 | the batches are the buffered entries in key order, grouped by a range that holds each key |
| `Txn.DbTxn.SendChunk` | client/txn.go:245-257 | one chunk is sent to nodes of a range of the batch's key, its acknowledgement recorded, an aborted transaction turned into a retryable error, any other error traced |
| `Txn.DbTxn.SendChunks` | client/txn.go:208-220 | the loop ends, and on success the range has acknowledged exactly the batch, in chunks of 1 to 1000 |
| `Txn.DbTxn.SendBatch` | client/txn.go:203-220 | the keys of a batch are in the pool under its range before any of them is sent |
| `Txn.DbTxn.SplitBatchPutRequest` | client/txn.go:202-224 | in any order of ranges: on success every range has acknowledged exactly its batch, on failure some chunks were sent and nothing else happened; without a pool the flush panics |
| `Txn.DbTxn.Flush` | client/txn.go:235-263 | success: the entries in key order, each routed to a range of its key, and each range acknowledged exactly its entries in that order; failure: the buffer is kept |
| `Txn.DbTxn.BeginTransaction` | client/txn.go:70-76 | sends begin until acknowledged or given up, and changes no intent |
| `Txn.DbTxn.DoPutData` | client/txn.go:226-264 | whether it completes or fails after some chunks, what the transaction sees is unchanged for every key, and Get's answer for every key but the empty one, which is lost exactly when it leaves the buffer |
| `TxnLog.FlushStep` | client/txn.go:211-220 | one more chunk, acknowledged or torn, keeps a flush a flush and adds exactly its items to what the range acknowledged |
| `TxnLog.FlushKeepsView` | client/txn.go:226-264 | buffer over own intents over snapshot shows the same value before and after any flush |
| `TxnLog.FlushKeepsAnswers` | client/snapshot.go:26-29 | Get answers the same before and after a flush, if and only if it is not an empty key leaving the buffer |
| `TxnLog.FlushKeepsMeaning` | client/txn.go:104-113 | both of these for all keys at once |
| `TxnLog.FlushTracks` | client/txn.go:245-263 | after a flush every written key is still buffered with its latest value, or has had it acknowledged and stored |
| `TxnLog.AllAckedIsComplete` | client/txn.go:202-224 | when every range has acknowledged its batch, every buffered key has been acknowledged |
| `TxnLog.DoneIsAcknowledged` | client/txn.go:245-263 | what is acknowledged during a flush is the buffered value |
| `Txn.DbTxn.constructor` | client/txn.go:33-68 | a new transaction is clean, has not begun, and satisfies the invariant |
| `Txn.DbTxn.Set` | client/txn.go:121-129 | buffers the value under the prefixed key; an empty value is refused and changes nothing |
| `Txn.DbTxn.Delete` | client/txn.go:132-137 | buffers a deletion |
| `Txn.DbTxn.Write` | client/txn.go:125-127 | buffering keeps the invariant |
| `Txn.DbTxn.Get` | client/txn.go:103-113 | the overlay's answer, or the error of a request; only nodes of a range of the key are asked, and none for a buffered or empty key |
| `Txn.DbTxn.SnapshotGet` | client/snapshot.go:26-62 | the value under the buffer, or that it does not exist, or the error of a request; an empty key is refused without one |
| `Txn.DbTxn.EndTransaction` | client/txn.go:79-101 | sends the end to nodes of a range of the transaction's identifier until acknowledged or given up; nothing is sent when the driver gives no timestamp; after success a dirty transaction's enqueued lists cover every key it ever sent, range by range; a commit keeps the history safe if it might be sent; the status becomes aborted exactly when the attempts ran out, and is left alone by a retryable error of a node or the driver |
| `Txn.DbTxn.SendEnd` | client/txn.go:88-90 | the request itself, with all that a request promises |
| `Txn.DbTxn.Commit` | client/txn.go:140-153 | a clean transaction sends nothing; otherwise success means the buffer is empty, the commit was acknowledged last, and all keys sent are enqueued; on an error no commit was acknowledged; as long as the buffer is not acknowledged whole no end is sent and the status stays; what the transaction sees never changes; when no node accepts the end of a flushed transaction the error is retryable, and the status says aborted if they were down but committed if they reported a conflict |
| `Txn.DbTxn.Rollback` | client/txn.go:156-163 | marks the transaction aborted and sends an end exactly if it had begun |
| `Txn.DbTxn.Add` | client/resolve_intent.go:29-40 | adds exactly one key under one range |
| `Txn.DbTxn.AddAll` | client/txn.go:204-206 | the pool gains the keys of the batch under its range, and only buffered keys |
| `Txn.DbTxn.Send` | client/resolve_intent.go:42-70 | the enqueued lists hold exactly the keys the pool held under each range, and the pool is gone |
| `TxnLog.WritingTracks` | client/txn.go:121-137 | a write makes its value the latest and leaves every other key as it was |
| `TxnLog.LatestOfWrites` | client/txn.go:121-138 | the last write of a key is all that the writes of a history say about it |
| `TxnLog.WritesInQuiet` | client/txn.go:228-262 | flushing and ending add no write to the history |
| `TxnLog.SaneAfterWrite` | client/txn.go:121-137 | writing keeps the transaction invariant |
| `TxnLog.SaneAfterRequest` | client/txn.go:70-101 | beginning and ending keep it, with all their attempts, if a commit is sent only when it may be |
| `TxnLog.SaneAfterFlush` | client/txn.go:226-264 | flushing keeps it, completed or not |
| `TxnLog.KeptAfterSend` | client/resolve_intent.go:51-70 | handing the pool over keeps the invariant |
| `TxnLog.EndsKeepSafe` | client/txn.go:150-152 | sending a commit when the transaction has begun and every key's latest value is acknowledged keeps the history commit-safe |
| `TxnLog.SaneMayCommit` | client/txn.go:146-152 | once the buffer is empty and the transaction has begun, a commit may be sent |
| `TxnLog.PooledMore` | client/txn.go:202-220 | sending a chunk whose keys are pooled keeps every key sent in the pool under its range |
| `TxnLog.WellSentMore` | client/txn.go:245-257 | a chunk sent to a range of its keys keeps every put so far sent to a range of its keys |
| `Txn.RoutedIsHeld` | client/txn.go:182-192 | the range a key is routed to held the key at some time |
| `Txn.GroupIsHeld` | client/txn.go:171-200 | so did the range of a batch all keys of the batch |
| `Session.Run` | client/txn.go:103-163 | over any sequence of Set, Delete, Get, Seek, Commit and Rollback, with any failures: a commit is only ever sent after begin succeeded and every key's latest write was acknowledged; every put went to a range of its keys; every key sent is in the pool or enqueued under its range; the writes in the history are exactly those of the calls, in order; every key shows the last of them, or what it showed before; and every Get and Seek tells of the writes before it |
| `Session.Step` | client/txn.go:103-163 | each call makes exactly its own write, leaves what every other key shows as it was, and tells what is shown; a successful commit of a dirty transaction is acknowledged last, a rollback aborts |
| `Session.SeekFirst` | client/snapshot.go:65-78 | the iterator starts at the first key from the one sought that shows a value, own unflushed writes included; where nothing goes wrong it starts nowhere only if there is none |
| `Session.CalledMore` | client/txn.go:103-163 | one more call: the view after the calls is the view before it with its write put in |
| `Session.RunsOn` | client/txn.go:103-163 | what holds of a run so far holds after one more call |
| `Session.UnacceptedCommit` | client/txn.go:88-94 | the pushed transaction as a run: Commit returns the same retryable error whether the transaction was pushed aside or no node was found, but the status stays committed in the first case, and no commit was acknowledged |
| `Session.EmptyKeyIsLost` | client/snapshot.go:26-29 | a run in which a value set under the empty key is read back, flushed by Seek, and then refused |
| `Iteration.NoRows` | client/iter.go:33-52 | an empty scan means nothing exists in the scanned interval |
| `Iteration.FirstRow` | client/iter.go:54-58 | the first row is the first existing entry, and nothing exists between it and where the iterator goes on |
| `Iteration.Onward` | client/iter.go:33-58 | stepping over an empty range loses nothing and leaves fewer range ends ahead |
| `Iteration.YieldsOneMore` | client/iter.go:63-72 | one step extends the yielded entries to the existing entries up to the new scan key |
| `Iteration.YieldsToTheEnd` | client/iter.go:34-36 | at the end everything up to the end prefix has been yielded |
| `Iteration.StaysOnCourse` | client/iter.go:63-72 | after any step, under whatever intents it was made, entries are ascending and below the scan key; as long as the intents stay, they are all that exists there |
| `Iteration.NothingBehind` | client/iter.go:58 | a step never yields what lies below the scan key, even if it was written since |
| `Iteration.Iter.constructor` | client/iter.go:20-26 | an iterator at the prefixed key that has yielded nothing |
| `Iteration.Iter.ScanMutilRange` | client/iter.go:28-60 | terminates, and finds the first existing entry from a key on and a key past it with nothing between, or that there is none |
| `Iteration.Iter.Next` | client/iter.go:63-72 | yields the first entry from the scan key on that exists now, flushes since Seek included, or ends; on an ended iterator it panics |
| `Iteration.WrittenBehind` | client/iter.go:54-72 | a write flushed between the current entry and the prefetched key is seen by the transaction and never yielded, to the end of the iteration |
| `Iteration.Rest` | client/iter.go:54-101 | from wherever an iterator stands, whatever was flushed before: Next to the end yields, without an error, exactly what exists now from the scan key on, ascending, each once, after what was yielded before |
| `Iteration.RestGoesOn` | client/iter.go:54-72 | one step of the rest extends what it has yielded and leaves fewer entries to come |
| `Iteration.YieldedIffAhead` | client/iter.go:54-101 | a key is among the rest exactly when it exists and lies at or above the scan key |
| `Iteration.WrittenMeanwhile` | client/iter.go:54-72 | a key written and flushed while an iterator is open is yielded by its error-free rest exactly when the scan key has not passed it |
| `Iteration.Iter.CurrentKey` | client/iter.go:85-91 | the user key whose prefixed form is the current entry's key |
| `Iteration.Seek` | client/snapshot.go:65-78 | refuses exactly the empty key; otherwise the iterator walks over what the transaction saw, unflushed writes included |
| `Iteration.Exhaust` | client/iter.go:63-101 | calling Next while valid terminates from any state of the iterator; without an error it gives the current entry and then exactly what exists from the scan key on; fresh from Seek, exactly the existing entries, ascending, each once |
| `Iteration.SeekAll` | client/snapshot.go:65-78 | Seek then Next to the end yields exactly the entries the transaction saw from the key on, its own writes over the snapshot, ascending, each once, however ranges split meanwhile; where nothing goes wrong it does not fail |
| `Iteration.YieldsAllSeen` | client/iter.go:63-72 | entries yielded from flushed intents are those of the buffer overlay |
| `BatchRead.PartialIsLookup` | client/snapshot.go:156-179 | with no key waited for, what is known is the pointwise lookup of the requested keys |
| `BatchRead.StoreKeepsPartial` | client/snapshot.go:169-175 | storing or deleting one answered key is right and takes exactly that key off the pending ones |
| `BatchRead.Merge` | client/snapshot.go:169-175 | the loop over a round's answers leaves none of them pending |
| `BatchRead.BatchIsAsked` | client/snapshot.go:83-97 | a batch asks only for pending keys and is never empty |
| `BatchRead.NothingAsked` | client/snapshot.go:122-124 | there is no batch exactly when nothing is pending |
| `BatchRead.AskedIsNamed` | client/snapshot.go:125-151 | with every batch answered, every key waited for is |
| `BatchRead.Snapshot.CreateBatchRequests` | client/snapshot.go:80-100 | every key waited for is asked for and no other, grouped by a range of each key, as a descriptor said that was right when it was fetched |
| `BatchRead.Snapshot.ParseBatchGetResponse` | client/snapshot.go:102-112 | one answer for each key in order, its value with the prefix taken off the key |
| `BatchRead.Snapshot.GetBatch` | client/snapshot.go:126-151 | right answers for every key of the batch, asked of nodes of a range of the batch's key; or none because the range has moved |
| `BatchRead.Snapshot.DoBatchGet` | client/snapshot.go:114-154 | end of input exactly when nothing is waited for; otherwise right answers, and for every key waited for unless a range has moved meanwhile |
| `BatchRead.Snapshot.Round` | client/snapshot.go:164-176 | a round leaves nothing to wait for, unless a range has moved meanwhile; what is known stays right |
| `BatchRead.Snapshot.BatchGetWithin` | client/snapshot.go:156-179 | whatever the ranges do, whenever it ends it returns exactly the wanted keys that exist with their values; more than two rounds are only needed while ranges keep moving |
| `BatchRead.Snapshot.BatchGet` | client/snapshot.go:156-179 | where ranges stop moving the loop ends, with the same result |
| `Retry.RunInNewTxn` | client/util.go:43-79 | either a Begin fails, at once or after attempts that were all retryable, and its error is returned, retryable or not; or the last attempt decides: nil exactly when its function and Commit returned nil, its error otherwise, a retryable one only after 51 attempts; each attempt has a transaction of its own, of the attempt's number as priority; in each the function was run: what was written is what it wrote, in order, and it was told of it; what a successful last attempt wrote last under each key is what the store shows; every attempt before the last met a retryable error and was rolled back: it is aborted, and had never begun, or its end was acknowledged last, or the rollback reported an error; no attempt but a successful last one has an acknowledged commit, unless the function committed by itself |
| `Retry.OneMore` | client/util.go:49-77 | one turn of the loop leaves the transactions of earlier attempts as they were; there is no attempt exactly when Begin fails, and then the error is its own |
| `Retry.RunOnce` | client/util.go:56-76 | the function is run: its writes are those of the transaction and its reads tell of them; Commit is called exactly when the function returned nil, Rollback when the function failed or the commit did in a retryable way; what became of the transaction follows |
| `Retry.GiveUp` | client/util.go:59-71 | the rollback aborts the transaction and ends it if it had begun |
| `Retry.CommittedShows` | client/txn.go:140-153 | after a commit every key shows the last write of the calls to it |
| `Retry.TurnTaken` | client/util.go:49-77 | what one turn means for the attempts so far: the loop goes on, or its outcome is settled |
| `Retry.Storage.Begin` | client/store.go:75-93 | a new transaction of its own, of the priority asked for, over the shared cache, or an error exactly when the store is closed or the driver gives no timestamp, and then that error |
| `Varint.ReadWritten` | meta/data.pb.go:1068-1081 | decoding the varint of any uint64 gives the value and stops at its last byte |
| `Varint.VarintWidth` | meta/data.pb.go:1049-1058 | a varint takes at most 10 bytes, and 10 exactly from 2^63 on, where every negative integer falls |
| `Varint.SignRoundTrip` | meta/data.pb.go:617-633 | a negative int64 or int32 sign-extended to uint64 converts back to itself |
| `Varint.Sov` | meta/data.pb.go:1049-1058 | counts exactly the bytes the encoder writes |
| `Varint.EncodeVarint` | meta/data.pb.go:894-902 | writes exactly the varint of the value at the offset and nothing else |
| `Varint.PutByte` | meta/data.pb.go:617-633 | writes one byte at the index and nothing else |
| `Varint.CopyBytes` | meta/data.pb.go:645-663 | copies a slice to the index and nothing else |
| `Varint.DecodeVarint` | meta/data.pb.go:1068-1081 | the shift loop refines the recursive reading, truncated to the width of its accumulator |
| `Wire.SkipOneField` | meta/data.pb.go:2035-2133 | skipping advances by exactly one field, of any wire type, nested groups included |
| `Wire.SkipWholeGroup` | meta/data.pb.go:2094-2121 | skipping a group advances to just past its matching end tag |
| `Wire.SkipData` | meta/data.pb.go:2035-2133 | the loop refines the recursive skip on all inputs, errors included |
| `Wire.SkipDataGroup` | meta/data.pb.go:2094-2121 | the loop over a group refines the recursive skip |
| `Wire.ReadTagAt` | meta/data.pb.go:1066-1089 | the tag of a field is read and checked as the specification does, for all input |
| `Wire.FinishField` | meta/data.pb.go:1129-1143 | after the message's own case, or past an unknown field, the index is where one decoding step ends |
| `Wire.OneTurn` | meta/data.pb.go:1065-1143 | one turn of the decoding loop is one step of the recursive decoder |
| `Fields.ReadIntAt` | meta/data.pb.go:1091-1109 | a varint case collects into a variable of its width and refines the reading, truncated |
| `Fields.ReadBytesAt` | meta/data.pb.go:1180-1209 | a bytes case, with its length loop and bounds, refines the reading of bytes |
| `Fields.TimestampField` | meta/data.pb.go:1090-1128 | the cases of Timestamp, an int32 collected in 32 bits, refine its switch |
| `Fields.UnmarshalTimestamp` | meta/data.pb.go:1062-1149 | the decoding loop of Timestamp with its cases refines the recursive decoder on all inputs, errors included |
| `Fields.SpanField` | meta/data.pb.go:1178-1240 | the cases of Span refine its switch |
| `Fields.UnmarshalSpan` | meta/data.pb.go:1150-1261 | the decoding loop of Span with its cases refines the recursive decoder on all inputs, errors included |
| `Fields.ValueField` | meta/data.pb.go:1290-1383 | the cases of Value refine its switch |
| `Fields.UnmarshalValue` | meta/data.pb.go:1262-1404 | the decoding loop of Value with its cases, the timestamp decoded by its own loop, refines the recursive decoder on all inputs, errors included |
| `Fields.MVCCKeyValueField` | meta/data.pb.go:1544-1606 | the cases of MVCCKeyValue refine its switch |
| `Fields.UnmarshalMVCCKeyValue` | meta/data.pb.go:1516-1627 | the decoding loop of MVCCKeyValue with its cases refines the recursive decoder on all inputs, errors included |
| `Fields.SnapshotKeyValuesField` | meta/data.pb.go:1656-1687 | the case of SnapshotKeyValues refines its switch |
| `Fields.UnmarshalSnapshotKeyValues` | meta/data.pb.go:1628-1708 | the decoding loop of SnapshotKeyValues with its cases, each element decoded by its own loop, refines the recursive decoder on all inputs, errors included |
| `Fields.TransactionField` | meta/data.pb.go:1737-1903 | the cases of Transaction refine its switch |
| `Fields.UnmarshalTransaction` | meta/data.pb.go:1709-1924 | the decoding loop of Transaction with its cases, the timestamp decoded by its own loop, refines the recursive decoder on all inputs, errors included |
| `Fields.IntentField` | meta/data.pb.go:1953-2013 | the cases of Intent refine its switch |
| `Fields.UnmarshalIntent` | meta/data.pb.go:1925-2034 | the decoding loop of Intent with its cases, span and transaction decoded by their own loops, refines the recursive decoder on all inputs, errors included |
| `Fields.RequestHeaderField` | meta/api.pb.go:8279-8442 | the cases of RequestHeader refine its switch |
| `Fields.UnmarshalRequestHeader` | meta/api.pb.go:8251-8463 | the decoding loop of RequestHeader with its cases, its nested messages decoded by their own loops, refines the recursive decoder on all inputs, errors included |
| `Fields.GetRangeStatsRequestField` | meta/api.pb.go:10139-10242 | the cases of GetRangeStatsRequest, packed or not, refine its switch |
| `Fields.UnmarshalGetRangeStatsRequest` | meta/api.pb.go:10111-10263 | the decoding loop of GetRangeStatsRequest with its cases, the header decoded by its own loop, refines the recursive decoder on all inputs, errors included |
| `Wire.DecodeOneField` | meta/data.pb.go:1066-1143 | decoding the bytes of one field applies its step and stops at its end |
| `Wire.DecodeIsFold` | meta/data.pb.go:1062-1149 | decoding encoded fields is folding the message's steps over the fields |
| `Wire.UnknownFieldsAreTransparent` | meta/data.pb.go:1904-1916 | fields with unused numbers, anywhere and of any wire type, leave the decoded message unchanged |
| `Wire.FoldIgnoresUnknown` | meta/data.pb.go:1904-1916 | folding over all fields is folding over the known ones |
| `Messages.TimestampRoundTrip` | meta/data.pb.go:617-633 | unmarshalling what was marshalled into a zero Timestamp gives it back |
| `Messages.SpanRoundTrip` | meta/data.pb.go:645-663 | the same for Span |
| `Messages.ValueRoundTrip` | meta/data.pb.go:675-708 | the same for Value, with its fixed32 checksum, optional timestamp and absent zero fields |
| `Messages.MVCCKeyValueRoundTrip` | meta/data.pb.go:752-770 | the same for MVCCKeyValue |
| `Messages.SnapshotRoundTrip` | meta/data.pb.go:782-800 | the same for SnapshotKeyValues, a repeated message in order |
| `Messages.TransactionRoundTrip` | meta/data.pb.go:812-858 | the same for Transaction, negative integers and nested timestamp included |
| `Messages.IntentRoundTrip` | meta/data.pb.go:870-892 | the same for Intent, with nested Span and Transaction |
| `Messages.RequestHeaderRoundTrip` | meta/api.pb.go:3806-3852 | the same for RequestHeader, with its optional Transaction |
| `Layouts.TimestampLayout` | meta/data.proto:14-23 | the bytes of a Timestamp: tag 8 and the wall time, tag 16 and the logical time, each left out when zero |
| `Layouts.SpanLayout` | meta/data.proto:42-51 | the bytes of a Span: tags 26 and 34, each left out when empty |
| `Layouts.MVCCKeyValueLayout` | meta/data.proto:81-84 | the bytes of an MVCCKeyValue: tags 10 and 18 |
| `Layouts.ValueLayout` | meta/data.proto:55-78 | the bytes of a Value: tag 10, tag 21 with four bytes, tag 26 if there is a timestamp, tag 32 |
| `Layouts.SnapshotLayout` | meta/data.proto:87-89 | the elements of a snapshot one after the other, each under tag 10 |
| `Layouts.TransactionLayout` | meta/data.proto:113-130 | the bytes of a Transaction: tags 10, 18, 24, 32, 40, 50 and 56 in this order |
| `Layouts.IntentLayout` | meta/data.proto:135-138 | the bytes of an Intent: the span under tag 10, the transaction under tag 18 |
| `Layouts.RequestHeaderLayout` | meta/api.proto:53-65 | the bytes of a RequestHeader: tags 10, 18, 26, 32, 42 if there is a transaction, and 48 |
| `Layouts.GetRangeStatsLayout` | meta/api.proto:169-172 | the bytes of a GetRangeStatsRequest: the header under tag 10, the packed identifiers under tag 18 |
| `Messages.RoundTripAmongUnknown` | meta/data.pb.go:1904-1916 | any message that round-trips still does when unknown fields are put between its own |
| `Messages.TransactionAmongUnknown` | meta/data.pb.go:1709-1924 | Transaction, with unknown fields among its own and inside its timestamp |
| `Messages.ValueAmongUnknown` | meta/data.pb.go:1262-1404 | Value, with unknown fields among its own and inside its timestamp |
| `Messages.IntentAmongUnknown` | meta/data.pb.go:1925-2034 | Intent, with unknown fields at three levels: its own, its span's and transaction's, and the timestamp's |
| `PackedIDs.UnmarshalPacked` | meta/api.pb.go:10170-10242 | the packed loop refines the recursive reading, also where the last varint runs past the announced length |
| `PackedIDs.PackedReadsBack` | meta/api.pb.go:10170-10242 | reading packed identifiers gives the list and stops at its end |
| `PackedIDs.AnyPackingDecodesAlike` | meta/api.pb.go:10111-10242 | identifiers sent one by one, packed, or in any mix of both decode to the same list |
| `PackedIDs.GetRangeStatsRoundTrip` | meta/api.pb.go:4396-4428 | unmarshalling a marshalled GetRangeStatsRequest gives it back |
| `PackedIDs.PackedSize` | meta/api.pb.go:4396-4428 | packed identifiers take at most 10 bytes each, so the scratch buffer suffices |
| `Marshal.MarshalTimestampTo` | meta/data.pb.go:617-633 | writes exactly the encoded fields from the index on and nothing else |
| `Marshal.TimestampSize` | meta/data.pb.go:903-917 | the length of the encoding |
| `Marshal.MarshalSpanTo` | meta/data.pb.go:645-663 | writes exactly the encoding |
| `Marshal.SpanSize` | meta/data.pb.go:918-934 | the length of the encoding |
| `Marshal.MarshalValueTo` | meta/data.pb.go:675-708 | writes exactly the encoding |
| `Marshal.ValueSize` | meta/data.pb.go:935-957 | the length of the encoding |
| `Marshal.MarshalMVCCKeyValueTo` | meta/data.pb.go:752-770 | writes exactly the encoding |
| `Marshal.MVCCKeyValueSize` | meta/data.pb.go:973-989 | the length of the encoding |
| `Marshal.MarshalSnapshotTo` | meta/data.pb.go:782-800 | writes exactly the encoding of all elements |
| `Marshal.SnapshotSize` | meta/data.pb.go:990-1004 | the length of the encoding |
| `Marshal.MarshalTransactionTo` | meta/data.pb.go:812-858 | writes exactly the encoding |
| `Marshal.TransactionSize` | meta/data.pb.go:1005-1035 | the length of the encoding |
| `Marshal.MarshalIntentTo` | meta/data.pb.go:870-892 | writes exactly the encoding |
| `Marshal.IntentSize` | meta/data.pb.go:1036-1048 | the length of the encoding |
| `Marshal.MarshalIntent` | meta/data.pb.go:860-868 | a buffer of Size bytes is filled exactly, and unmarshalling it gives the Intent back |
| `Marshal.MarshalTransaction` | meta/data.pb.go:802-810 | the same for Transaction |
| `Marshal.MarshalValue` | meta/data.pb.go:665-673 | the same for Value |
| `Marshal.MarshalSnapshot` | meta/data.pb.go:772-780 | the same for SnapshotKeyValues |
| `Marshal.MarshalGetRangeStats` | meta/api.pb.go:4386-4394 | the same for GetRangeStatsRequest |
| `Marshal.MarshalRequestHeaderTo` | meta/api.pb.go:3806-3852 | writes exactly the encoding |
| `Marshal.RequestHeaderSize` | meta/api.pb.go:6697-6724 | the length of the encoding |
| `Marshal.PackIDs` | meta/api.pb.go:4405-4424 | the scratch buffer never overflows and holds the packed identifiers |
| `Marshal.MarshalGetRangeStatsTo` | meta/api.pb.go:4396-4428 | writes exactly the encoding |
| `Marshal.GetRangeStatsSize` | meta/api.pb.go:6951-6967 | the length of the encoding |
| `IdAllocator.Reachable` | pd/id.go:23-59 | in every reachable state the effects count up by one, each call has at most one, and it is the one it returns |
| `IdAllocator.StepKeepsInv` | pd/id.go:29-56 | every read, write, lost reply and late landing of any call keeps that |
| `IdAllocator.IdsAreUnique` | pd/id.go:23-59 | up to 2^64 effects no two calls return the same identifier, however calls interleave and replies are lost |
| `IdAllocator.UniqueInAllRunsExactly` | pd/id.go:23-59 | all runs with n effects return unique identifiers if and only if n is at most 2^64 |
| `IdAllocator.EffectsAreDistinctUntilRepeat` | pd/id.go:46-48 | the identifiers that took effect are pairwise distinct if and only if there are at most 2^64 |
| `IdAllocator.IdsIncreaseUntilWrap` | pd/id.go:46-48 | identifiers strictly increase in the order their writes take effect, if and only if fewer than 2^63 have |
| `IdAllocator.LaterCallsGetLargerIds` | pd/id.go:23-59 | a call that starts after another has returned gets the larger identifier |
| `IdAllocator.HistoryGrows` | pd/id.go:23-59 | effects are never undone |
| `IdAllocator.FailsExactlyByErrors` | pd/id.go:29-52 | over all runs a call fails exactly when a read or the reply to a write of it was lost; losing a comparison sends it round again |
| `IdAllocator.AnyRequestMayFail` | pd/id.go:29-55 | whenever a call reads the read may fail, whenever it writes the reply may be lost, and nothing else can happen to it |
| `IdAllocator.WritesAfterLastRead` | pd/id.go:35-48 | a write, made or in flight, is guarded by what its call last read and counts up from it |
| `IdAllocator.EffectIffUnchanged` | pd/id.go:48-52 | compare and swap: a write takes effect exactly when the key is as its call last read it, whether the reply arrives or the write lands late; then the reply returns its identifier, otherwise the call goes round again |
| `IdAllocator.OtherStepsWriteNothing` | pd/id.go:29-48 | no other step touches the key or another call; a lost reply leaves the write in flight |
| `IdAllocator.UndisturbedCallReturns` | pd/id.go:28-58 | in every reachable state a call that has neither returned nor failed, left to itself, returns the identifier after the one the key holds in at most three steps, also after a lost comparison |
| `MasterElection.FlagsReachable` | pd/master.go:61-178 | in every reachable state the flags of every server agree with where it stands |
| `MasterElection.ReadyMeansLoaded` | pd/master.go:132-156 | ready implies timestamp, ranges and nodes were loaded, in this order, after this tenure was won |
| `MasterElection.ReadyIsMasterUnlessStopped` | pd/master.go:132-157 | a ready server is master if and only if the run has no Stop of it after it last became master |
| `MasterElection.AgreementReachable` | pd/master.go:132-157 | from the win to the clearing of the flags the master flag says exactly that, in every run |
| `MasterElection.ReadyIsMaster` | pd/master.go:132-157 | so in runs without Stop, ready implies master at every step |
| `MasterElection.StopSplitsTheFlags` | pd/server.go:137-142 | a run with Stop in which a server is ready but not master |
| `MasterElection.ServesWhenUndisturbed` | pd/master.go:61-87 | in every reachable state in which the key is absent or its own, a server left to itself becomes master and ready, wherever in its loop it is |
| `MasterElection.ElectionSucceeds` | pd/master.go:67-165 | asking with the key absent a server acquires it and serves; finding its own value it renews it without waiting or a deletion; when a watch ends with the key absent it acquires it |
| `MasterElection.ElectedInRun` | pd/master.go:67-165 | so in every run, where etcd sees exactly the renewal or acquisition and the write of the timestamp |
| `MasterElection.ReturnsToAsk` | pd/master.go:61-87 | from every point of the loop its own steps lead back to asking who is master, with the key as it was or its own |
| `MasterElection.TakesOver` | pd/master.go:90-107 | when the lease of the holder runs out the key is deleted, and any server left to itself takes over |
| `MasterElection.LostWinIsRenewed` | pd/master.go:117-129 | a campaign accepted although its reply was lost: the server goes back to the loop head and then renews the key |
| `MasterElection.LandsOnceAndInTime` | pd/util.go:45-60 | in every run a campaign whose reply was lost lands at most once, and none wins under a lease that has run out |
| `MasterElection.WatchesBeforeCampaign` | pd/master.go:72-78 | a server that finds another's value does not campaign before its watch has ended |
| `MasterElection.FlagsByHistory` | pd/master.go:61-65 | in every run both flags are what the history says: set by their step and cleared by the loop head, by stepping down, by a crash and, the master flag, by Stop |
| `MasterElection.MasterHasWon` | pd/master.go:124-131 | a master or ready server is in a tenure that began with a campaign of its own that etcd accepted |
| `MasterElection.LeasesReachable` | pd/master.go:123 | in every run the key is attached to a live lease |
| `MasterElection.CrashForgets` | pd/master.go:61-65 | a crash leaves a fresh server, and etcd and the others as they were |
| `MasterElection.PutsExactlyWhenHolding` | pd/master.go:57-59 | a master's write goes through exactly when the key holds its value, whatever its flags |
| `MasterElection.KeyPassesThroughDeletion` | pd/master.go:119-129 | the master key never passes from one server to another without being absent between |
| `MasterElection.WritesAreFenced` | pd/master.go:57-59 | between the guarded writes of two servers the key was deleted and then won by the second |
| `SplitBackoff.NoLaterCallBefore` | pd/check.go:42-60 | over all rounds, with a clock that never goes back: after a failed split check of a range recorded at time t with interval d, no later call for it, by whatever node's stats, is made before the clock is past t + d |
| `SplitBackoff.CallsExactlyWhenDue` | pd/check.go:42-60 | in every run a visit calls checkRangeSplit exactly when its range was never tried, last succeeded, or the clock is past its last failure and interval; the call fails exactly when the split does, with the interval of its run of failures |
| `SplitBackoff.NoCallWithinInterval` | pd/check.go:42-60 | the next call on the range finds the clock past t + d |
| `SplitBackoff.RunsAreClocked` | pd/check.go:24-60 | calls come in the order of the clock, with their readings just before and after |
| `SplitBackoff.IntervalsAreBounded` | pd/check.go:24-40 | every recorded interval is between 1 and 60 seconds |
| `SplitBackoff.BackoffTable` | pd/check.go:34-40 | the first six failures in a row wait 1, 2, 4, 8, 16 and 32 seconds |
| `SplitBackoff.BackoffSaturates` | pd/check.go:34-40 | and 60 from the seventh on |
| `SplitBackoff.FailureRecorded` | pd/check.go:52-55 | a failure with the new interval keeps calls spaced and records in step with them |
| `SplitBackoff.SuccessRecorded` | pd/check.go:58 | a success drops the record and keeps calls spaced |
| `SplitBackoff.VisitsKeepConsistent` | pd/check.go:125-136 | a whole pass over the stats keeps that |
| `SplitBackoff.RunsAreSpaced` | pd/check.go:125-136 | over all runs, from any nodes' stats, calls are spaced |
| `SplitBackoff.Server.constructor` | pd/check.go:42 | no records at the start |
| `SplitBackoff.Server.CheckDelayRecord` | pd/check.go:42-60 | handles a range with a record as one visit of the schedule |
| `SplitBackoff.Server.CheckRange` | pd/check.go:128-134 | one visit of the schedule |
| `SplitBackoff.Server.CheckNode` | pd/check.go:127-135 | the visits of one node's stats |
| `SplitBackoff.Server.CheckSplit` | pd/check.go:125-138 | the visits of all stats in order |
| `Replicas.Pigeonhole` | pd/cluster.go:47-67 | fewer identifiers than nodes leave a node out |
| `Replicas.GrownDistinct` | pd/check.go:93-108 | replicas sit on pairwise distinct nodes after the top-up exactly when they did before |
| `Replicas.Cluster.GetIdleNode` | pd/cluster.go:47-67 | a node none of the identifiers names, and not found exactly when they name all |
| `Replicas.Cluster.TopUp` | pd/check.go:86-108 | with enough nodes it never gets stuck, and ends with distinct replicas, exactly three if it began below, numbered by the identifiers allocated, in order |

## Left out

- RangeCache.Cache.Lookup: requires a valid cache; a range from the empty key to no end can be filed but is never found (`RangeCache.OverlapMeansContains`).
- Retry.RunInNewTxn: the function is a script of calls and a result for each attempt, both arbitrary, which stand for whatever a function does in a given run; a failing Rollback is ignored, as in the source.
- BatchRead.Snapshot.BatchGet: requires that ranges stop moving, since the loop has no other bound on its rounds; `BatchRead.Snapshot.BatchGetWithin` says what it returns without that.
- Iteration.Iter.Next: an error that ends an iteration is recorded in ghost state only; the panic on an ended iterator is an error result, not an unwinding.
- Cluster.ApplyPutEffect: a put that failed takes effect at that moment or never; one that lands after a later flush of the same key is not modelled.
- NodeRequest.Base.Call: nodes are a contract, so reads of one request are answered at one moment and a batch is answered whole.
- Txn.DbTxn.Send: enqueues the lists; the workers that send them to the ranges run on their own and are not modelled.
- Txn.DbTxn.SplitBatchPutRequest: the panic on a pool already drained is an error result, not an unwinding.
- Messages whose parts are longer than a Go slice can be, and index overflow on malformed input: decoding is proved on well-formed input, and the loops refine the recursive decoder on all input with unbounded indices.
- The difference between nil and empty slices in messages and keys; bitwise OR of disjoint bits is written as addition.
- KeyValue and the other generated messages, and `skipApi`, `sovApi`, `encodeVarintApi` beside their twins: the same field patterns again.
- The balanced trees behind the ordered and the interval cache: both are maps here, walked in key order or searched by overlap.
- Sharing: the range cache is one per process in the source and guarded by locks; here one transaction at a time uses it. Transactions that run at the same time on one client are not modelled.
- The loops of `newID` and the master election as methods: they are state machines over their steps, so that any interleaving of servers is covered; back-off delays between their attempts are not modelled.
- `checkReplica` around the top-up: creating the replicas, saving the descriptor and opening a store.
- Heartbeats, the worker pool, raising the priority of a transaction whose reads are aborted, timestamps, connection and node-address caches, gRPC and etcd plumbing: calls that may fail, or nothing.
- MVCC key encoding, value encodings of numbers, range splitting itself, region and timestamp storage of the driver.
