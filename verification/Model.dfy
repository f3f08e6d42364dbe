/** The values that travel between the parts of the pipeline (packages/core/src/model). */
module Model {
  import opened Wrappers

  /** model/state.ts:48-63 without the state itself; `uniqueId` is the pair of key and seqNum. */
  datatype StateRef = StateRef(key: string, seqNum: nat, epoch: Option<nat>)

  datatype ConflictDetails = ConflictDetails(
    key: string, newSn: nat, expectedSn: nat, actualSn: nat, actualEpoch: Option<nat>, expectedEpoch: Option<nat>)

  datatype Error =
    | SequenceConflict(details: ConflictDetails)
    | InvalidBatchSize(size: int)
    | Failure(reason: string)

  datatype BatchError = BatchError(error: Error, retryable: bool)

  /** batching/index.ts, `IBatchResult`. */
  datatype BatchResult<+C> = BatchResult(successful: seq<C>, failed: seq<C>, error: Option<BatchError>)

  datatype Consistency = Unordered | Atomic | AtomicPerPartition

  /** What a store sink is given (`IStoredMessage | IStateVerification`). */
  datatype Item<+M> = Stored(state: StateRef, message: M) | Verification(state: StateRef)

  datatype StoredMessage<+M> = StoredMessage(state: StateRef, message: M)

  /** What one handler invocation leaves behind (internal/BufferedDispatchContext.ts): `id` tells contexts
      apart, `sequence` numbers the source message, `loaded` is in insertion order, one per key. */
  datatype Context<+M, +P> = Context(
    id: nat, sequence: nat, loaded: seq<StateRef>, stored: seq<StoredMessage<M>>, published: seq<P>)

  /** JavaScript's `slice(0, n)` and `slice(n)` for a non-negative `n`. */
  function Take<T>(s: seq<T>, n: nat): seq<T> {
    if n <= |s| then s[..n] else s
  }

  function Drop<T>(s: seq<T>, n: nat): seq<T> {
    if n <= |s| then s[n..] else []
  }
}
