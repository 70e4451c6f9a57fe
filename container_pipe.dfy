/**
 * The container variant of the continuous music pipe writer: a generator
 * iteration, a pipe-writer iteration and a genre-monitor iteration over one
 * shared writer object. Each locked region, and each queue operation, is one
 * atomic step; the three loops interleave only at step boundaries.
 */
module ContainerPipe {
  import opened Wrappers
  import opened Text
  import opened Pcm
  import opened Quantise
  import opened Stream
  import Fade

  /** `queue.Queue(maxsize=5)`. */
  const QueueCapacity: nat := 5

  const SmoothPrefix: string := "SMOOTH:"

  // ---- the genre request file ----

  /** A request as read from the genre file: the genre and the (never consulted) transition flag. */
  datatype GenreRequest = GenreRequest(genre: string, smooth: bool)

  /** Splits a leading `SMOOTH:` off the (already stripped) file content; nothing else is stripped. */
  function ParseRequest(content: string): (r: GenreRequest)
    ensures r.smooth == StartsWith(content, SmoothPrefix)
    ensures |r.genre| == if r.smooth then |content| - 7 else |content|
    ensures r.genre == content[|content| - |r.genre|..]
  {
    if StartsWith(content, SmoothPrefix) then GenreRequest(content[7..], true)
    else GenreRequest(content, false)
  }

  /** The file text a request corresponds to. */
  function RenderRequest(r: GenreRequest): string {
    (if r.smooth then SmoothPrefix else "") + r.genre
  }

  /** Parsing inverts rendering, unless a hard request's genre itself starts with `SMOOTH:`. */
  lemma ParseRenderRequest(r: GenreRequest)
    requires r.smooth || !StartsWith(r.genre, SmoothPrefix)
    ensures ParseRequest(RenderRequest(r)) == r
  {
    var c := RenderRequest(r);
    if r.smooth {
      assert c[..7] == SmoothPrefix;
      assert c[7..] == r.genre;
    } else {
      assert c == r.genre;
    }
  }

  /** Rendering inverts parsing: no content is lost. */
  lemma RenderParseRequest(content: string)
    ensures RenderRequest(ParseRequest(content)) == content
  {
    if StartsWith(content, SmoothPrefix) {
      assert content == content[..7] + content[7..];
    }
  }

  /** The genre file as the monitor sees it: absent, or present with its mtime and the result of reading it. */
  datatype GenreFile = Absent | Present(mtime: real, content: Option<string>)

  /** What one monitor iteration decides. */
  datatype GenreDecision =
    | NotModified                           // no file, or mtime not newer than `last_genre_check`
    | ReadFailed                            // reading raised: `last_genre_check` is left alone
    | Unchanged(mtime: real)                // empty or same genre: only the mtime is recorded
    | Change(genre: string, mtime: real)    // a new, non-empty genre

  /** The genre a successfully read file asks for. */
  function RequestedGenre(content: string): string {
    ParseRequest(Strip(content)).genre
  }

  /**
   * One pass of `_genre_monitor_loop`: only a file newer than the last check is
   * read; a read records its mtime, and only a non-empty genre other than the
   * current one is a change.
   */
  function Decide(file: GenreFile, lastCheck: real, current: string): (d: GenreDecision)
    ensures d != NotModified ==> file.Present? && file.mtime > lastCheck
    ensures d.Unchanged? || d.Change? ==> file.Present? && file.content.Some? && d.mtime == file.mtime
    ensures d.Change? ==> d.genre == RequestedGenre(file.content.value) && d.genre != [] && d.genre != current
    ensures d.Unchanged? ==> RequestedGenre(file.content.value) in {[], current}
  {
    if file.Absent? || file.mtime <= lastCheck then NotModified
    else if file.content.None? then ReadFailed
    else
      var g := RequestedGenre(file.content.value);
      if g != [] && g != current then Change(g, file.mtime) else Unchanged(file.mtime)
  }

  /**
   * A change is decided exactly when the file is newer than the last check,
   * could be read, and asks for a non-empty genre other than the current one.
   */
  lemma DecideCases(file: GenreFile, lastCheck: real, current: string)
    ensures var d := Decide(file, lastCheck, current);
      && (d == NotModified <==> (file.Absent? || file.mtime <= lastCheck))
      && (d == ReadFailed <==> (file.Present? && file.mtime > lastCheck && file.content.None?))
      && (d.Change? <==> (file.Present? && file.mtime > lastCheck && file.content.Some?
                          && RequestedGenre(file.content.value) !in {[], current}))
      && (d.Change? ==> d == Change(RequestedGenre(file.content.value), file.mtime))
      && (d.Unchanged? ==> d.mtime == file.mtime)
  {
  }

  lemma {:induction false} RStripAfterNonSpace(a: string, b: string)
    requires a != [] && !IsSpace(a[|a| - 1])
    ensures RStrip(a + b) == a + RStrip(b)
    decreases |b|
  {
    if b != [] && IsSpace(b[|b| - 1]) {
      assert (a + b)[..|a + b| - 1] == a + b[..|b| - 1];
      RStripAfterNonSpace(a, b[..|b| - 1]);
    } else {
      assert b != [] ==> (a + b)[|a + b| - 1] == b[|b| - 1];
    }
  }

  lemma StripAfterPrefix(g: string)
    ensures Strip(SmoothPrefix + g) == SmoothPrefix + RStrip(g)
  {
    var c := SmoothPrefix + g;
    assert c[0] == 'S';
    LStripNoLeadingSpace(c);
    RStripAfterNonSpace(SmoothPrefix, g);
  }

  lemma StripWithoutLeadingSpace(g: string)
    requires g == [] || !IsSpace(g[0])
    ensures Strip(g) == RStrip(g)
  {
    LStripNoLeadingSpace(g);
  }

  lemma ParseAfterPrefix(t: string)
    ensures ParseRequest(SmoothPrefix + t).genre == t
  {
    var s := SmoothPrefix + t;
    assert s[..7] == SmoothPrefix && s[7..] == t;
  }

  /** `SMOOTH:g` asks for the same genre as `g` when `g` has no leading whitespace. */
  lemma SmoothRequestSameGenre(g: string)
    requires g == [] || !IsSpace(g[0])
    requires !StartsWith(g, SmoothPrefix)
    ensures RequestedGenre(SmoothPrefix + g) == RequestedGenre(g)
  {
    StripAfterPrefix(g);
    StripWithoutLeadingSpace(g);
    ParseAfterPrefix(RStrip(g));
    RStripKeepsNoPrefix(g);
  }

  lemma RStripKeepsNoPrefix(g: string)
    requires !StartsWith(g, SmoothPrefix)
    ensures ParseRequest(RStrip(g)).genre == RStrip(g)
  {
    var t := RStrip(g);
    if |t| >= 7 {
      assert t[..7] == g[..7];
    }
  }

  /** Smooth and hard requests lead to the same decision, because the transition flag is never read. */
  lemma SmoothFlagIgnored(mtime: real, g: string, lastCheck: real, current: string)
    requires g == [] || !IsSpace(g[0])
    requires !StartsWith(g, SmoothPrefix)
    ensures Decide(Present(mtime, Some(SmoothPrefix + g)), lastCheck, current)
         == Decide(Present(mtime, Some(g)), lastCheck, current)
  {
    SmoothRequestSameGenre(g);
  }

  /**
   * `current_genre` is assigned before the embed is attempted, so once an embed
   * has failed, the same request written again with a newer mtime is decided
   * `Unchanged` and is never embedded again.
   */
  lemma RetryAfterFailedEmbedIsUnchanged(content: string, mtime: real, lastCheck: real)
    requires mtime > lastCheck
    ensures Decide(Present(mtime, Some(content)), lastCheck, RequestedGenre(content)) == Unchanged(mtime)
  {
  }

  /** After a leading `SMOOTH:` nothing more is stripped: `SMOOTH: jazz` asks for the genre ` jazz`. */
  lemma SmoothPrefixKeepsInnerSpace()
    ensures ParseRequest("SMOOTH: jazz") == GenreRequest(" jazz", true)
  {
    assert "SMOOTH: jazz"[..7] == SmoothPrefix;
  }

  /**
   * The faded rows hold no sample exactly when the chunk had no more rows than
   * the fade (`chunk[:-f]` is empty) or the rows have no channels, so a chunk
   * of exactly `fade_size` rows stops the container's generator.
   */
  lemma FadedToNothing(samples: seq<Fade.Row>, ramp: seq<real>, previous: seq<Fade.Row>, channels: nat)
    requires 0 < |ramp| == |previous| && FadeAccepts(samples, |ramp|, channels)
    requires Fade.HasWidth(previous, channels)
    ensures NoSamples(Fade.DropLast(Fade.Faded(samples, ramp, previous), |ramp|)) <==> |samples| == |ramp| || channels == 0
  {
    var emitted := Fade.DropLast(Fade.Faded(samples, ramp, previous), |ramp|);
    if |samples| > |ramp| {
      assert |emitted[0]| == |samples[0]| == channels;
    }
  }

  // ---- the writer ----

  /** One generator iteration: the chunk was queued or dropped on `queue.Full`, with its hot flag, or the loop stopped. */
  datatype ProduceOutcome = Queued(hot: bool) | Dropped(hot: bool) | GeneratorStopped

  class ContainerWriter {
    const fade: Fade.AudioFade
    var queue: seq<PcmChunk>
    var buffer: PcmChunk
    var currentGenre: string
    var lastGenreCheck: real
    var styleEmbedding: Embedding
    var generationState: GenState
    /** The generator loop's `chunk_count`: the seed of the latest `generate_chunk` call. */
    var chunkCount: nat
    var stopEvent: bool

    /** Every frame `os.write` accepted, in order. */
    ghost var history: seq<PcmChunk>
    /** Since the last genre reset: frames handed to `os.write`, chunks dequeued, chunks enqueued. */
    ghost var sent: seq<PcmChunk>
    ghost var dequeued: seq<PcmChunk>
    ghost var enqueued: seq<PcmChunk>

    ghost predicate Valid()
      reads this, fade
    {
      && fade.Valid()
      && |queue| <= QueueCapacity
      && AllFrames(history) && AllFrames(sent)
      && Concat(sent) + buffer == Concat(dequeued)
      && dequeued + queue == enqueued
    }

    /** `ContinuousMusicPipeWriter(style)` after the model has embedded `style` and reported the crossfade length. */
    constructor (style: string, embedding: Embedding, chunkSize: nat, channels: nat, ramp: seq<real>)
      requires chunkSize > 0 && |ramp| == chunkSize && Fade.RampInRange(ramp)
      ensures Valid() && fresh(fade)
      ensures fade.fadeSize == chunkSize && fade.channels == channels && fade.ramp == ramp
      ensures queue == [] && buffer == [] && chunkCount == 0 && !stopEvent
      ensures currentGenre == style && lastGenreCheck == 0.0
      ensures styleEmbedding == embedding && generationState == NoState
      ensures history == [] && sent == [] && dequeued == [] && enqueued == []
    {
      fade := new Fade.AudioFade(chunkSize, 1, channels, ramp);
      queue, buffer := [], [];
      currentGenre, lastGenreCheck := style, 0.0;
      styleEmbedding, generationState := embedding, NoState;
      chunkCount, stopEvent := 0, false;
      history, sent, dequeued, enqueued := [], [], [], [];
    }

    /**
     * One iteration of `_generation_loop`: bump the seed, generate, fade,
     * clip and quantise, then `put`. On `queue.Full` the chunk is discarded; the
     * fade and the generation state have already advanced. A generator or fade
     * exception sets the stop event.
     */
    method GenerateStep(generate: Generator) returns (outcome: ProduceOutcome)
      requires Valid() && !stopEvent
      modifies this`chunkCount, this`stopEvent, this`generationState, this`queue, this`enqueued, fade
      ensures Valid()
      ensures chunkCount == old(chunkCount) + 1
      ensures buffer == old(buffer) && currentGenre == old(currentGenre)
      ensures lastGenreCheck == old(lastGenreCheck) && styleEmbedding == old(styleEmbedding)
      ensures history == old(history) && sent == old(sent) && dequeued == old(dequeued)
      ensures Consumed(generate(old(generationState), old(styleEmbedding), old(chunkCount) + 1), outcome)
    {
      var seed := chunkCount + 1;
      var g := generate(generationState, styleEmbedding, seed);
      outcome := Consume(g, seed);
    }

    /**
     * The state after the loop dealt with one `generate_chunk` result: a
     * generator exception, or rows the fade cannot take, set the stop event with
     * the queue and the fade untouched; otherwise the generation state advances
     * and the chunk is produced.
     */
    twostate predicate Consumed(g: Generated, outcome: ProduceOutcome)
      reads this`stopEvent, this`generationState, this`queue, this`enqueued, fade
      requires old(fade.Valid())
    {
      if g.GenerateFailed? || !FadeAccepts(g.samples, fade.fadeSize, fade.channels) then
        && outcome == GeneratorStopped && stopEvent
        && queue == old(queue) && enqueued == old(enqueued) && fade.previous == old(fade.previous)
        && generationState == if g.GenerateFailed? then old(generationState) else g.next
      else
        generationState == g.next && Produced(g.samples, outcome)
    }

    /**
     * What follows `generate_chunk(seed=chunk_count)`: record the bumped count,
     * stop on an exception, otherwise adopt the new state and produce.
     */
    method Consume(g: Generated, seed: nat) returns (outcome: ProduceOutcome)
      requires Valid()
      modifies this`chunkCount, this`stopEvent, this`generationState, this`queue, this`enqueued, fade
      ensures Valid()
      ensures chunkCount == seed
      ensures Consumed(g, outcome)
    {
      chunkCount := seed;
      if g.GenerateFailed? {
        stopEvent := true;
        return GeneratorStopped;
      }
      generationState := g.next;
      if !FadeAccepts(g.samples, fade.fadeSize, fade.channels) {
        stopEvent := true;
        return GeneratorStopped;
      }
      outcome := Produce(g.samples);
    }

    /**
     * Fade one generated chunk, take its peak amplitude, clip and quantise it,
     * then offer it to the queue. The peak of a zero-size array raises, so a
     * chunk that fades to no samples stops the generator after the fade has
     * already stored its new tail.
     */
    method Produce(samples: seq<Fade.Row>) returns (outcome: ProduceOutcome)
      requires Valid() && FadeAccepts(samples, fade.fadeSize, fade.channels)
      modifies this`stopEvent, this`queue, this`enqueued, fade
      ensures Valid()
      ensures Produced(samples, outcome)
    {
      var emitted := FadeSamples(fade, samples);
      if NoSamples(emitted) {
        stopEvent := true;
        return GeneratorStopped;
      }
      var hot := IsHot(emitted);
      var q := QuantiseRowsClipped(emitted);
      var queued := Offer(q);
      outcome := if queued then Queued(hot) else Dropped(hot);
    }

    /**
     * The state after one generated chunk was faded: the stored tail is the new
     * fade tail either way. Emitted rows holding no samples stop the generator
     * with nothing queued; otherwise the quantised chunk is queued when there is
     * room and discarded otherwise, and the outcome says whether it was hot.
     */
    twostate predicate Produced(samples: seq<Fade.Row>, outcome: ProduceOutcome)
      reads this`stopEvent, this`queue, this`enqueued, fade
      requires old(fade.Valid()) && FadeAccepts(samples, fade.fadeSize, fade.channels)
    {
      var faded := Fade.Faded(samples, fade.ramp, old(fade.previous));
      var emitted := Fade.DropLast(faded, fade.fadeSize);
      var q := QuantiseRowsClipped(emitted);
      && fade.previous == Fade.Tail(faded, fade.ramp)
      && if NoSamples(emitted) then
           outcome == GeneratorStopped && stopEvent && queue == old(queue) && enqueued == old(enqueued)
         else
           && stopEvent == old(stopEvent)
           && (if |old(queue)| < QueueCapacity
               then outcome == Queued(IsHot(emitted)) && queue == old(queue) + [q] && enqueued == old(enqueued) + [q]
               else outcome == Dropped(IsHot(emitted)) && queue == old(queue) && enqueued == old(enqueued))
    }

    /** `generation_queue.put`: the chunk is queued when there is room and discarded on `queue.Full`. */
    method Offer(q: PcmChunk) returns (queued: bool)
      requires Valid()
      modifies this`queue, this`enqueued
      ensures Valid()
      ensures queued <==> |old(queue)| < QueueCapacity
      ensures queued ==> queue == old(queue) + [q] && enqueued == old(enqueued) + [q]
      ensures !queued ==> queue == old(queue) && enqueued == old(enqueued)
    {
      queued := |queue| < QueueCapacity;
      if queued {
        queue := queue + [q];
        enqueued := enqueued + [q];
      }
    }

    /** The writer's pipe open: a failure stops the pipeline before anything is written. */
    method OpenPipe(pipeOpened: bool) returns (outcome: OpenOutcome)
      requires Valid()
      modifies this`stopEvent
      ensures Valid()
      ensures outcome == (if pipeOpened then Opened else OpenFailed)
      ensures stopEvent == (old(stopEvent) || !pipeOpened)
    {
      if !pipeOpened {
        stopEvent := true;
        return OpenFailed;
      }
      return Opened;
    }

    /**
     * One iteration of `_pipe_writer_loop`: a chunk is dequeued only while the
     * buffer holds fewer than 960 rows; then exactly one 960-row frame is
     * sliced off and handed to `os.write`, whose failure stops the writer.
     */
    method WriteStep(writeOk: bool) returns (outcome: WriteOutcome)
      requires Valid() && !stopEvent
      modifies this`queue, this`buffer, this`dequeued, this`sent, this`history, this`stopEvent
      ensures Valid()
      ensures |old(buffer)| >= PipeFrameSize ==> queue == old(queue)
      ensures outcome == Starved <==> |old(buffer)| < PipeFrameSize && old(queue) == []
      ensures outcome == Starved ==> buffer == old(buffer) && queue == old(queue) && history == old(history)
      ensures outcome != Starved ==>
        var pull := |old(buffer)| < PipeFrameSize;
        var grown := if pull then old(buffer) + old(queue)[0] else old(buffer);
        && queue == (if pull then old(queue)[1..] else old(queue))
        && (|grown| < PipeFrameSize ==> outcome == Short && buffer == grown && history == old(history))
        && (|grown| >= PipeFrameSize ==>
              && buffer == grown[PipeFrameSize..]
              && (if writeOk then outcome == Wrote(grown[..PipeFrameSize]) && history == old(history) + [grown[..PipeFrameSize]]
                  else outcome == WriteFailed(grown[..PipeFrameSize]) && history == old(history)))
      ensures outcome.Wrote? ==> |outcome.frame| == PipeFrameSize
      ensures stopEvent <==> outcome.WriteFailed?
      ensures enqueued == old(enqueued) && chunkCount == old(chunkCount) && currentGenre == old(currentGenre)
      ensures generationState == old(generationState) && styleEmbedding == old(styleEmbedding)
      ensures lastGenreCheck == old(lastGenreCheck)
    {
      if |buffer| < PipeFrameSize {
        var pulled := PullChunk();
        if !pulled {
          return Starved;
        }
      }
      if |buffer| < PipeFrameSize {
        return Short;
      }
      outcome := SendFrame(writeOk);
    }

    /** `audio_queue.get()` into the running buffer; nothing happens when the queue is empty. */
    method PullChunk() returns (pulled: bool)
      requires Valid()
      modifies this`queue, this`buffer, this`dequeued
      ensures Valid()
      ensures pulled <==> old(queue) != []
      ensures pulled ==> queue == old(queue)[1..] && buffer == old(buffer) + old(queue)[0]
      ensures !pulled ==> queue == old(queue) && buffer == old(buffer)
    {
      if queue == [] {
        return false;
      }
      var c := queue[0];
      PullKeepsRows(dequeued, c);
      assert queue == [c] + queue[1..];
      queue := queue[1..];
      buffer := buffer + c;
      dequeued := dequeued + [c];
      return true;
    }

    /** Slice one frame off the buffer and hand it to `os.write`; a failed write sets the stop event. */
    method SendFrame(writeOk: bool) returns (outcome: WriteOutcome)
      requires Valid() && |buffer| >= PipeFrameSize
      modifies this`buffer, this`sent, this`history, this`stopEvent
      ensures Valid()
      ensures buffer == old(buffer)[PipeFrameSize..]
      ensures writeOk ==> outcome == Wrote(old(buffer)[..PipeFrameSize]) && history == old(history) + [old(buffer)[..PipeFrameSize]]
      ensures !writeOk ==> outcome == WriteFailed(old(buffer)[..PipeFrameSize]) && history == old(history)
      ensures stopEvent == (old(stopEvent) || !writeOk)
    {
      var frame := buffer[..PipeFrameSize];
      SendKeepsRows(sent, buffer, PipeFrameSize);
      buffer := buffer[PipeFrameSize..];
      sent := sent + [frame];
      if writeOk {
        history := history + [frame];
        outcome := Wrote(frame);
      } else {
        stopEvent := true;
        outcome := WriteFailed(frame);
      }
    }

    /**
     * The locked region of a successful genre change: empty the queue, clear
     * the running buffer and reset the fade. The generation state is kept.
     */
    method ResetForNewGenre()
      requires Valid()
      modifies this`queue, this`buffer, this`sent, this`dequeued, this`enqueued, fade
      ensures Valid()
      ensures queue == [] && buffer == []
      ensures fade.previous == Fade.ZerosLike(old(fade.previous))
      ensures sent == [] && dequeued == [] && enqueued == []
      ensures generationState == old(generationState) && chunkCount == old(chunkCount)
      ensures history == old(history) && stopEvent == old(stopEvent)
      ensures currentGenre == old(currentGenre) && lastGenreCheck == old(lastGenreCheck)
      ensures styleEmbedding == old(styleEmbedding)
    {
      while queue != []
        modifies this`queue
        decreases |queue|
      {
        queue := queue[1..];
      }
      buffer := [];
      fade.Reset();
      sent, dequeued, enqueued := [], [], [];
    }

    /**
     * One iteration of `_monitor_genre_changes` on what the file looks like now.
     * A change sets `current_genre` before embedding; only a successful embed
     * swaps the style and resets the buffers. `last_genre_check` follows the
     * mtime whenever the file was read.
     */
    method MonitorStep(file: GenreFile, embed: Embedder) returns (decision: GenreDecision)
      requires Valid()
      modifies this`lastGenreCheck, this`currentGenre, this`styleEmbedding, this`queue, this`buffer
      modifies this`sent, this`dequeued, this`enqueued, fade
      ensures Valid()
      ensures decision == Decide(file, old(lastGenreCheck), old(currentGenre))
      ensures Acted(decision, embed)
      ensures generationState == old(generationState) && chunkCount == old(chunkCount)
      ensures history == old(history) && stopEvent == old(stopEvent)
    {
      decision := Decide(file, lastGenreCheck, currentGenre);
      Act(decision, embed);
    }

    /**
     * The state after the monitor acted on `decision`: the mtime is recorded unless
     * nothing was read or reading failed; a change records the genre, and only a
     * successful embed swaps the style and empties the queue, the buffer and the
     * stored fade tail.
     */
    twostate predicate Acted(decision: GenreDecision, embed: Embedder)
      reads this, fade
    {
      && lastGenreCheck == (if decision.Unchanged? || decision.Change? then decision.mtime else old(lastGenreCheck))
      && currentGenre == (if decision.Change? then decision.genre else old(currentGenre))
      && var reset := decision.Change? && embed(decision.genre).Some?;
        && styleEmbedding == (if reset then embed(decision.genre).value else old(styleEmbedding))
        && (if reset
            then queue == [] && buffer == [] && fade.previous == Fade.ZerosLike(old(fade.previous))
            else queue == old(queue) && buffer == old(buffer) && fade.previous == old(fade.previous))
    }

    /** What the monitor does with its decision. */
    method Act(decision: GenreDecision, embed: Embedder)
      requires Valid()
      modifies this`lastGenreCheck, this`currentGenre, this`styleEmbedding, this`queue, this`buffer
      modifies this`sent, this`dequeued, this`enqueued, fade
      ensures Valid()
      ensures Acted(decision, embed)
    {
      if decision.Change? {
        SwitchGenre(decision.genre, embed(decision.genre));
        lastGenreCheck := decision.mtime;
      } else if decision.Unchanged? {
        lastGenreCheck := decision.mtime;
      }
    }

    /** The genre-change branch: record the genre, then embed it; only a successful embed resets the stream. */
    method SwitchGenre(genre: string, embedded: Option<Embedding>)
      requires Valid()
      modifies this`currentGenre, this`styleEmbedding, this`queue, this`buffer
      modifies this`sent, this`dequeued, this`enqueued, fade
      ensures Valid()
      ensures currentGenre == genre
      ensures styleEmbedding == (if embedded.Some? then embedded.value else old(styleEmbedding))
      ensures embedded.Some? ==> queue == [] && buffer == [] && fade.previous == Fade.ZerosLike(old(fade.previous))
      ensures embedded.None? ==> queue == old(queue) && buffer == old(buffer) && fade.previous == old(fade.previous)
      ensures generationState == old(generationState) && chunkCount == old(chunkCount)
      ensures history == old(history) && stopEvent == old(stopEvent) && lastGenreCheck == old(lastGenreCheck)
    {
      currentGenre := genre;
      if embedded.Some? {
        styleEmbedding := embedded.value;
        ResetForNewGenre();
      }
    }

    /** `stop()`: does nothing once the stop event is set; otherwise sets it (thread joins are not modelled). */
    method Stop() returns (acted: bool)
      requires Valid()
      modifies this`stopEvent
      ensures Valid()
      ensures acted == !old(stopEvent) && stopEvent
    {
      if stopEvent {
        return false;
      }
      stopEvent := true;
      return true;
    }
  }

  /**
   * Byte-exact continuity since the last genre reset: the frames handed to the
   * pipe, then the running buffer, then the chunks still queued, are exactly the
   * chunks enqueued, in FIFO order.
   */
  lemma {:induction false} ContinuitySinceReset(sent: seq<PcmChunk>, buffer: PcmChunk, dequeued: seq<PcmChunk>, queue: seq<PcmChunk>, enqueued: seq<PcmChunk>)
    requires Concat(sent) + buffer == Concat(dequeued)
    requires dequeued + queue == enqueued
    ensures Concat(sent) + buffer + Concat(queue) == Concat(enqueued)
  {
    ConcatAppend(dequeued, queue);
  }
}
