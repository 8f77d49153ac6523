/** The client facade: it starts and stops a connection worker, and on every raw
    chunk the worker hands it, appends the chunk to its one frame parser, extracts
    every complete event and delivers them as one batch. Delivery is modelled as
    appending the batch to a log; the synchronisation-context hop and the .NET event
    are left out. */
module Proxy {
  import opened Wrappers
  import opened Seqs
  import opened Constants
  import opened Messages
  import opened ParsingStrategy
  import opened Instance

  /** A cancellation source, told apart from earlier ones by its generation. */
  datatype CancellationSource = CancellationSource(generation: nat, isCancellationRequested: bool)

  /** The current worker and the generation of the source whose token it holds. */
  datatype CurrentInstance = CurrentInstance(generation: nat, worker: Worker)

  /** The `NullReferenceException` that `Stop` raises before any cancellation
      source exists. */
  datatype Fault = NullReference

  /** The facade's state: the parser's cache (the parser is created once with the
      facade and never replaced), the running flag, the current cancellation source
      and worker, the number of sources created so far, and the batches delivered. */
  datatype Proxy = Proxy(
    messageParser: string,
    isRunning: bool,
    cancellationSource: Option<CancellationSource>,
    currentInstance: Option<CurrentInstance>,
    generations: nat,
    delivered: seq<seq<EventMessage>>)

  /** What every reachable state satisfies: no complete frame waits in the parser,
      no delivered batch is empty, a running facade has a live (uncancelled) source
      shared with its worker, and the newest source is the latest generation. */
  predicate Valid(p: Proxy) {
    && !HasSeparator(p.messageParser)
    && NoEmptyBatch(p.delivered)
    && (p.cancellationSource.Some? <==> p.currentInstance.Some?)
    && (p.cancellationSource.Some? ==>
          && p.cancellationSource.value.generation == p.generations
          && p.currentInstance.value.generation == p.generations
          && p.currentInstance.value.worker.isStarted)
    && (p.isRunning ==>
          p.cancellationSource.Some? && !p.cancellationSource.value.isCancellationRequested)
  }

  predicate NoEmptyBatch(delivered: seq<seq<EventMessage>>) {
    forall k :: 0 <= k < |delivered| ==> |delivered[k]| > 0
  }

  lemma NoEmptyBatchAppend(delivered: seq<seq<EventMessage>>, batch: seq<EventMessage>)
    requires NoEmptyBatch(delivered) && |batch| > 0
    ensures NoEmptyBatch(delivered + [batch])
  {
  }

  /** The facade as constructed: not running, no source, no worker, empty parser. */
  function NewProxy(): (p: Proxy)
    ensures Valid(p) && !p.isRunning && p.messageParser == ""
  {
    Proxy("", false, None, None, 0, [])
  }

  /** `Start`: a no-op while running; otherwise a fresh cancellation source and a
      fresh worker, started, whose retry hint is still 0. */
  function Start(p: Proxy): (r: Proxy)
    requires Valid(p)
    ensures Valid(r) && r.isRunning
    ensures p.isRunning ==> r == p
    ensures !p.isRunning ==>
              && r.generations > p.generations
              && r.cancellationSource == Some(CancellationSource(r.generations, false))
              && r.currentInstance == Some(CurrentInstance(r.generations, StartAsync(NewWorker())))
    ensures r.messageParser == p.messageParser && r.delivered == p.delivered
  {
    if p.isRunning then p
    else
      var generation := p.generations + 1;
      p.(cancellationSource := Some(CancellationSource(generation, false)),
         currentInstance := Some(CurrentInstance(generation, StartAsync(NewWorker()))),
         generations := generation,
         isRunning := true)
  }

  /** `Stop` as the source writes it: it cancels the current source without
      checking that there is one, so before any `Start` it faults. */
  function StopAsWritten(p: Proxy): (r: Result<Proxy, Fault>)
    ensures r.Failure? <==> p.cancellationSource.None?
    ensures r.Success? ==> !r.value.isRunning && r.value.messageParser == p.messageParser
    ensures r.Success? ==>
              && r.value.cancellationSource
                 == Some(p.cancellationSource.value.(isCancellationRequested := true))
              && r.value.currentInstance == p.currentInstance
              && r.value.generations == p.generations
              && r.value.delivered == p.delivered
  {
    match p.cancellationSource
    case None => Failure(NullReference)
    case Some(source) =>
      Success(p.(cancellationSource := Some(source.(isCancellationRequested := true)),
                 isRunning := false))
  }

  /** `Stop` with the missing guard: before any `Start` it does nothing; otherwise
      it is the source's `Stop`. */
  function Stop(p: Proxy): (r: Proxy)
    requires Valid(p)
    ensures Valid(r) && !r.isRunning
    ensures StopAsWritten(p).Success? ==> r == StopAsWritten(p).value
    ensures p.cancellationSource.None? ==> r == p
    ensures p.cancellationSource.Some? ==>
              r.cancellationSource.Some? && r.cancellationSource.value.isCancellationRequested
    ensures r.messageParser == p.messageParser && r.delivered == p.delivered
  {
    match StopAsWritten(p)
    case Failure(_) => p
    case Success(stopped) => stopped
  }

  /** The defect: stopping a facade that was never started faults. */
  lemma StopBeforeStartFaults()
    ensures StopAsWritten(NewProxy()) == Failure(NullReference)
  {
  }

  /** After the fix, stopping a facade that was never started leaves it as it was. */
  lemma StopBeforeStartIsNoOp()
    ensures Stop(NewProxy()) == NewProxy()
  {
  }

  /** `Start` twice is `Start` once. */
  lemma StartIdempotent(p: Proxy)
    requires Valid(p)
    ensures Start(Start(p)) == Start(p)
  {
  }

  /** The parser survives a stop and a restart, partial frame included. */
  lemma RestartKeepsParser(p: Proxy)
    requires Valid(p)
    ensures Start(Stop(p)).messageParser == p.messageParser
    ensures Start(Stop(p)).isRunning
  {
  }

  /** The chunk callback: append the chunk, extract every complete event, and when
      there is at least one, set the worker's retry hint from the last of them and
      deliver them all as one batch. The callback exists only once a worker does;
      it runs whether or not the facade is still running. */
  function OnChunk(p: Proxy, rawMessage: string): (r: Proxy)
    requires Valid(p) && p.currentInstance.Some?
    ensures Valid(r) && r.currentInstance.Some?
    ensures r.isRunning == p.isRunning && r.cancellationSource == p.cancellationSource
    ensures r.generations == p.generations
    ensures r.currentInstance.value.generation == p.currentInstance.value.generation
    ensures r.currentInstance.value.worker
            == p.currentInstance.value.worker.(retryDelay := r.currentInstance.value.worker.retryDelay)
  {
    var extracted := ExtractCompleteMessageFromCache(AddMessagePart(p.messageParser, rawMessage));
    var messages := extracted.messages;
    if |messages| == 0 then p.(messageParser := extracted.cache)
    else
      var current := p.currentInstance.value;
      var hint := messages[|messages| - 1].retry;
      NoEmptyBatchAppend(p.delivered, messages);
      p.(messageParser := extracted.cache,
         currentInstance := Some(current.(worker := current.worker.(retryDelay := hint))),
         delivered := p.delivered + [messages])
  }

  /** What one chunk does: the batch is the events of the chunk's extraction, in
      order; an empty batch is not delivered and leaves the retry hint alone; a
      non-empty one is delivered once and sets the hint to its last event's retry. */
  lemma OnChunkDelivers(p: Proxy, rawMessage: string)
    requires Valid(p) && p.currentInstance.Some?
    ensures var extracted := ExtractCompleteMessageFromCache(p.messageParser + rawMessage);
            var messages := extracted.messages;
            var r := OnChunk(p, rawMessage);
            && r.messageParser == extracted.cache
            && r.delivered == p.delivered + (if |messages| == 0 then [] else [messages])
            && r.currentInstance.value.worker.retryDelay
               == if |messages| == 0 then p.currentInstance.value.worker.retryDelay
                  else messages[|messages| - 1].retry
  {
  }

  /** The callback run on each chunk in turn. */
  function OnChunks(p: Proxy, chunks: seq<string>): (r: Proxy)
    requires Valid(p) && p.currentInstance.Some?
    ensures Valid(r) && r.currentInstance.Some?
    decreases |chunks|
  {
    if |chunks| == 0 then p else OnChunks(OnChunk(p, chunks[0]), chunks[1..])
  }

  /** The worker's retry hint. */
  function RetryHint(p: Proxy): int32
    requires p.currentInstance.Some?
  {
    p.currentInstance.value.worker.retryDelay
  }

  /** The retry of the last of `messages`, or `current` when there are none. */
  function LastRetryOr(messages: seq<EventMessage>, current: int32): int32 {
    if |messages| == 0 then current else messages[|messages| - 1].retry
  }

  lemma LastRetryOrConcat(front: seq<EventMessage>, back: seq<EventMessage>, current: int32)
    ensures LastRetryOr(front + back, current) == LastRetryOr(back, LastRetryOr(front, current))
  {
    if |back| > 0 {
      assert (front + back)[|front + back| - 1] == back[|back| - 1];
    } else {
      assert front + back == front;
    }
  }

  /** One chunk adds exactly its extracted events to the delivered stream. */
  lemma OnChunkStream(p: Proxy, rawMessage: string)
    requires Valid(p) && p.currentInstance.Some?
    ensures var extracted := ExtractCompleteMessageFromCache(AddMessagePart(p.messageParser, rawMessage));
            var r := OnChunk(p, rawMessage);
            && Concat(r.delivered) == Concat(p.delivered) + extracted.messages
            && r.messageParser == extracted.cache
            && RetryHint(r) == LastRetryOr(extracted.messages, RetryHint(p))
            && |r.delivered| >= |p.delivered| && r.delivered[..|p.delivered|] == p.delivered
  {
    var extracted := ExtractCompleteMessageFromCache(AddMessagePart(p.messageParser, rawMessage));
    OnChunkDelivers(p, rawMessage);
    if |extracted.messages| > 0 {
      ConcatAppend(p.delivered, [extracted.messages]);
      assert Concat([extracted.messages]) == extracted.messages;
    } else {
      assert Concat(p.delivered) + extracted.messages == Concat(p.delivered);
    }
  }

  /** Chunk by chunk, the facade delivers the events of alternating add and
      extract, keeps the leftover cache, and ends with the retry of the last event. */
  lemma {:induction false} OnChunksFeed(p: Proxy, chunks: seq<string>)
    requires Valid(p) && p.currentInstance.Some?
    ensures var fed := Feed(p.messageParser, chunks);
            var r := OnChunks(p, chunks);
            && Concat(r.delivered) == Concat(p.delivered) + fed.messages
            && r.messageParser == fed.cache
            && RetryHint(r) == LastRetryOr(fed.messages, RetryHint(p))
            && |r.delivered| >= |p.delivered| && r.delivered[..|p.delivered|] == p.delivered
    decreases |chunks|
  {
    if |chunks| == 0 {
      assert Concat(p.delivered) + [] == Concat(p.delivered);
    } else {
      var q := OnChunk(p, chunks[0]);
      var first := ExtractCompleteMessageFromCache(AddMessagePart(p.messageParser, chunks[0]));
      var more := Feed(first.cache, chunks[1..]);
      var r := OnChunks(q, chunks[1..]);
      OnChunkStream(p, chunks[0]);
      OnChunksFeed(q, chunks[1..]);
      assert Feed(p.messageParser, chunks) == Extraction(first.messages + more.messages, more.cache);
      AppendAssociates(Concat(p.delivered), first.messages, more.messages);
      LastRetryOrConcat(first.messages, more.messages, RetryHint(p));
      assert r.delivered[..|p.delivered|] == r.delivered[..|q.delivered|][..|p.delivered|];
    }
  }

  /** The facade's deliveries do not depend on how the stream was chunked: across
      any sequence of chunks, the delivered events, in order, are those of the whole
      text extracted at once, the parser keeps that extraction's leftover, and the
      retry hint is the retry of the last event of the whole stream. */
  lemma OnChunksDeliverStream(p: Proxy, chunks: seq<string>)
    requires Valid(p) && p.currentInstance.Some?
    ensures var all := ExtractCompleteMessageFromCache(AddMessagePart(p.messageParser, Concat(chunks)));
            var r := OnChunks(p, chunks);
            && Concat(r.delivered) == Concat(p.delivered) + all.messages
            && r.messageParser == all.cache
            && RetryHint(r) == LastRetryOr(all.messages, RetryHint(p))
            && |r.delivered| >= |p.delivered| && r.delivered[..|p.delivered|] == p.delivered
  {
    OnChunksFeed(p, chunks);
    ChunkingInvariance(p.messageParser, chunks);
  }
}
