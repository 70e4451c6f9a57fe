/**
 * The older, top-level variant of the pipe writer: a ten-slot queue, no
 * genre monitor, no clipping before the int16 cast, and a writer whose inner
 * loop keeps pulling chunks until one frame is buffered.
 */
module LegacyPipe {
  import opened Pcm
  import opened Quantise
  import opened Stream
  import Fade

  /** `queue.Queue(maxsize=10)`. */
  const QueueCapacity: nat := 10

  /**
   * What the writer's inner loop leaves behind: chunks are taken from the
   * front of the queue and appended to the buffer until it holds a frame or
   * the queue runs dry.
   */
  function Refill(buffer: PcmChunk, queue: seq<PcmChunk>): (r: (PcmChunk, seq<PcmChunk>))
    decreases |queue|
  {
    if |buffer| >= PipeFrameSize || queue == [] then (buffer, queue)
    else Refill(buffer + queue[0], queue[1..])
  }

  /**
   * The refill loses and reorders nothing: buffer then queue hold the same rows
   * before and after; afterwards a frame is buffered or the queue is empty, and
   * what is left queued is a suffix of what was queued.
   */
  lemma {:induction false} RefillKeepsRows(buffer: PcmChunk, queue: seq<PcmChunk>)
    ensures var (b, q) := Refill(buffer, queue);
      && b + Concat(q) == buffer + Concat(queue)
      && (|b| >= PipeFrameSize || q == [])
      && |q| <= |queue| && q == queue[|queue| - |q|..]
      && |b| >= |buffer| && b[..|buffer|] == buffer
    decreases |queue|
  {
    if |buffer| >= PipeFrameSize || queue == [] {
    } else {
      var c := queue[0];
      assert queue == [c] + queue[1..];
      ConcatAppend([c], queue[1..]);
      ConcatOne(c);
      RefillKeepsRows(buffer + c, queue[1..]);
      var (b, q) := Refill(buffer + c, queue[1..]);
      assert b[..|buffer|] == (b[..|buffer + c|])[..|buffer|];
    }
  }

  /** A refill that found a frame's worth already buffered takes nothing. */
  lemma RefillIdleOnFullBuffer(buffer: PcmChunk, queue: seq<PcmChunk>)
    requires |buffer| >= PipeFrameSize
    ensures Refill(buffer, queue) == (buffer, queue)
  {
  }

  /**
   * One generator iteration: the chunk was queued, discarded on `queue.Full`, or
   * the loop stopped. The legacy loop takes no peak amplitude, so unlike the
   * container variant it reports no hot flag.
   */
  datatype ProduceOutcome = Queued | Dropped | GeneratorStopped

  class LegacyWriter {
    const fade: Fade.AudioFade
    const styleEmbedding: Embedding
    var queue: seq<PcmChunk>
    /** `buffered_audio`, local to the writer thread, kept here across iterations. */
    var buffer: PcmChunk
    var generationState: GenState
    var chunkCount: nat
    var stopEvent: bool

    ghost var history: seq<PcmChunk>
    ghost var sent: seq<PcmChunk>
    ghost var dequeued: seq<PcmChunk>
    ghost var enqueued: seq<PcmChunk>

    ghost predicate Valid()
      reads this, fade
    {
      && fade.Valid()
      && |queue| <= QueueCapacity
      && AllFrames(history) && AllFrames(sent)
      && Concat(sent) + buffer == Concat(dequeued)
      && dequeued + queue == enqueued
    }

    constructor (embedding: Embedding, chunkSize: nat, channels: nat, ramp: seq<real>)
      requires chunkSize > 0 && |ramp| == chunkSize && Fade.RampInRange(ramp)
      ensures Valid() && fresh(fade)
      ensures fade.fadeSize == chunkSize && fade.channels == channels && fade.ramp == ramp
      ensures styleEmbedding == embedding && generationState == NoState
      ensures queue == [] && buffer == [] && chunkCount == 0 && !stopEvent
      ensures history == [] && sent == [] && dequeued == [] && enqueued == []
    {
      fade := new Fade.AudioFade(chunkSize, 1, channels, ramp);
      styleEmbedding := embedding;
      queue, buffer := [], [];
      generationState, chunkCount, stopEvent := NoState, 0, false;
      history, sent, dequeued, enqueued := [], [], [], [];
    }

    /**
     * One iteration of `_generation_loop`: as in the container variant, except
     * that the faded floats are scaled and cast to int16 without clipping, and a
     * full queue (after the put's timeout) discards the chunk.
     */
    method GenerateStep(generate: Generator) returns (outcome: ProduceOutcome)
      requires Valid() && !stopEvent
      modifies this`chunkCount, this`stopEvent, this`generationState, this`queue, this`enqueued, fade
      ensures Valid()
      ensures chunkCount == old(chunkCount) + 1
      ensures buffer == old(buffer) && history == old(history) && sent == old(sent) && dequeued == old(dequeued)
      ensures Consumed(generate(old(generationState), styleEmbedding, old(chunkCount) + 1), outcome)
    {
      var seed := chunkCount + 1;
      var g := generate(generationState, styleEmbedding, seed);
      outcome := Consume(g, seed);
    }

    /**
     * The state after the loop dealt with one `generate_chunk` result: a
     * generator exception, or rows the fade cannot take, set the stop event with
     * the queue and the fade untouched; otherwise the generation state advances
     * and the chunk is produced.
     */
    twostate predicate Consumed(g: Generated, outcome: ProduceOutcome)
      reads this`stopEvent, this`generationState, this`queue, this`enqueued, fade
      requires old(fade.Valid())
    {
      if g.GenerateFailed? || !FadeAccepts(g.samples, fade.fadeSize, fade.channels) then
        && outcome == GeneratorStopped && stopEvent
        && queue == old(queue) && enqueued == old(enqueued) && fade.previous == old(fade.previous)
        && generationState == if g.GenerateFailed? then old(generationState) else g.next
      else
        generationState == g.next && stopEvent == old(stopEvent) && Produced(g.samples, outcome)
    }

    /**
     * What follows `generate_chunk(seed=chunk_count)`: record the bumped count,
     * stop on an exception, otherwise adopt the new state and produce.
     */
    method Consume(g: Generated, seed: nat) returns (outcome: ProduceOutcome)
      requires Valid()
      modifies this`chunkCount, this`stopEvent, this`generationState, this`queue, this`enqueued, fade
      ensures Valid()
      ensures chunkCount == seed
      ensures Consumed(g, outcome)
    {
      chunkCount := seed;
      if g.GenerateFailed? {
        stopEvent := true;
        return GeneratorStopped;
      }
      generationState := g.next;
      if !FadeAccepts(g.samples, fade.fadeSize, fade.channels) {
        stopEvent := true;
        return GeneratorStopped;
      }
      outcome := Produce(g.samples);
    }

    /** Fade and quantise one generated chunk, then offer it to the queue; an empty chunk is offered too. */
    method Produce(samples: seq<Fade.Row>) returns (outcome: ProduceOutcome)
      requires Valid() && FadeAccepts(samples, fade.fadeSize, fade.channels)
      modifies this`queue, this`enqueued, fade
      ensures Valid()
      ensures Produced(samples, outcome)
    {
      var emitted := FadeSamples(fade, samples);
      var q := QuantiseRowsUnclipped(emitted);
      var queued := Offer(q);
      outcome := if queued then Queued else Dropped;
    }

    /**
     * The state after one generated chunk was faded, quantised and offered: the
     * stored tail is the new fade tail, and the quantised chunk is queued when
     * there is room and discarded otherwise.
     */
    twostate predicate Produced(samples: seq<Fade.Row>, outcome: ProduceOutcome)
      reads this`stopEvent, this`queue, this`enqueued, fade
      requires old(fade.Valid()) && FadeAccepts(samples, fade.fadeSize, fade.channels)
    {
      var faded := Fade.Faded(samples, fade.ramp, old(fade.previous));
      var emitted := Fade.DropLast(faded, fade.fadeSize);
      var q := QuantiseRowsUnclipped(emitted);
      && fade.previous == Fade.Tail(faded, fade.ramp)
      && (if |old(queue)| < QueueCapacity
          then outcome == Queued && queue == old(queue) + [q] && enqueued == old(enqueued) + [q]
          else outcome == Dropped && queue == old(queue) && enqueued == old(enqueued))
    }

    /** `generation_queue.put`: the chunk is queued when there is room and discarded on `queue.Full`. */
    method Offer(q: PcmChunk) returns (queued: bool)
      requires Valid()
      modifies this`queue, this`enqueued
      ensures Valid()
      ensures queued <==> |old(queue)| < QueueCapacity
      ensures queued ==> queue == old(queue) + [q] && enqueued == old(enqueued) + [q]
      ensures !queued ==> queue == old(queue) && enqueued == old(enqueued)
    {
      queued := |queue| < QueueCapacity;
      if queued {
        queue := queue + [q];
        enqueued := enqueued + [q];
      }
    }

    /** Opening the pipe; a failure stops everything and returns before the loop. */
    method OpenPipe(pipeOpened: bool) returns (outcome: OpenOutcome)
      requires Valid()
      modifies this`stopEvent
      ensures Valid()
      ensures outcome == (if pipeOpened then Opened else OpenFailed)
      ensures stopEvent == (old(stopEvent) || !pipeOpened)
    {
      if !pipeOpened {
        stopEvent := true;
        return OpenFailed;
      }
      return Opened;
    }

    /**
     * One iteration of `_pipe_writer_loop`: the inner loop refills the buffer;
     * an empty queue on the way (`queue.Empty`) ends the iteration with what was
     * pulled kept in the buffer. Otherwise one frame is written.
     */
    method WriterIteration(writeOk: bool) returns (outcome: WriteOutcome)
      requires Valid() && !stopEvent
      modifies this
      ensures Valid()
      ensures var (b, q) := Refill(old(buffer), old(queue));
        && queue == q
        && (outcome == Starved <==> |b| < PipeFrameSize)
        && (outcome == Starved ==> buffer == b && q == [] && history == old(history))
        && (outcome != Starved ==>
              && buffer == b[PipeFrameSize..]
              && (if writeOk then outcome == Wrote(b[..PipeFrameSize]) && history == old(history) + [b[..PipeFrameSize]]
                  else outcome == WriteFailed(b[..PipeFrameSize]) && history == old(history)))
      ensures outcome != Short
      ensures stopEvent <==> outcome.WriteFailed?
      ensures enqueued == old(enqueued) && chunkCount == old(chunkCount) && generationState == old(generationState)
    {
      ghost var start := Refill(buffer, queue);
      while |buffer| < PipeFrameSize
        modifies this`queue, this`buffer, this`dequeued
        invariant Valid()
        invariant Refill(buffer, queue) == start
        decreases |queue|
      {
        if queue == [] {
          return Starved;
        }
        PullChunk();
      }
      outcome := SendFrame(writeOk);
    }

    /** `generation_queue.get()` appended to the buffer (`np.vstack`). */
    method PullChunk()
      requires Valid() && queue != []
      modifies this`queue, this`buffer, this`dequeued
      ensures Valid()
      ensures queue == old(queue)[1..] && buffer == old(buffer) + old(queue)[0]
    {
      var c := queue[0];
      PullKeepsRows(dequeued, c);
      assert queue == [c] + queue[1..];
      queue := queue[1..];
      buffer := buffer + c;
      dequeued := dequeued + [c];
    }

    method SendFrame(writeOk: bool) returns (outcome: WriteOutcome)
      requires Valid() && |buffer| >= PipeFrameSize
      modifies this`buffer, this`sent, this`history, this`stopEvent
      ensures Valid()
      ensures buffer == old(buffer)[PipeFrameSize..]
      ensures writeOk ==> outcome == Wrote(old(buffer)[..PipeFrameSize]) && history == old(history) + [old(buffer)[..PipeFrameSize]]
      ensures !writeOk ==> outcome == WriteFailed(old(buffer)[..PipeFrameSize]) && history == old(history)
      ensures stopEvent == (old(stopEvent) || !writeOk)
    {
      var frame := buffer[..PipeFrameSize];
      SendKeepsRows(sent, buffer, PipeFrameSize);
      buffer := buffer[PipeFrameSize..];
      sent := sent + [frame];
      if writeOk {
        history := history + [frame];
        outcome := Wrote(frame);
      } else {
        stopEvent := true;
        outcome := WriteFailed(frame);
      }
    }

    /** `start()` clears the stop event before the threads are launched. */
    method Start()
      modifies this`stopEvent
      ensures !stopEvent
    {
      stopEvent := false;
    }

    /** `stop()`: a no-op once stopped; otherwise sets the stop event. */
    method Stop() returns (acted: bool)
      requires Valid()
      modifies this`stopEvent
      ensures Valid()
      ensures acted == !old(stopEvent) && stopEvent
    {
      if stopEvent {
        return false;
      }
      stopEvent := true;
      return true;
    }
  }
}
