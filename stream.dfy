/**
 * What flows between the generator, the queue and the pipe writer in both
 * writer variants: quantised chunks, their concatenation, the collaborator
 * interface of the generative model, and the outcomes of one loop iteration.
 */
module Stream {
  import opened Pcm
  import opened Wrappers
  import Fade

  type PcmRow = seq<Int16>
  /** A block of rows: a queued chunk, the running buffer, or one pipe frame. */
  type PcmChunk = seq<PcmRow>

  /** `np.vstack` of a list of chunks. */
  function Concat(chunks: seq<PcmChunk>): (rows: PcmChunk)
    ensures chunks == [] ==> rows == []
  {
    if chunks == [] then [] else chunks[0] + Concat(chunks[1..])
  }

  lemma {:induction false} ConcatAppend(a: seq<PcmChunk>, b: seq<PcmChunk>)
    ensures Concat(a + b) == Concat(a) + Concat(b)
  {
    if a == [] {
      assert a + b == b;
    } else {
      assert (a + b)[1..] == a[1..] + b;
      ConcatAppend(a[1..], b);
    }
  }

  lemma ConcatOne(c: PcmChunk)
    ensures Concat([c]) == c
  {
    assert [c][1..] == [];
  }

  /** Sending the buffer's first `n` rows as a frame keeps "sent, then buffered" the same rows. */
  lemma SendKeepsRows(sent: seq<PcmChunk>, buffer: PcmChunk, n: nat)
    requires n <= |buffer|
    ensures Concat(sent + [buffer[..n]]) + buffer[n..] == Concat(sent) + buffer
  {
    var head, rest := buffer[..n], buffer[n..];
    PullKeepsRows(sent, head);
    assert head + rest == buffer;
    calc {
      Concat(sent + [head]) + rest;
      (Concat(sent) + head) + rest;
      Concat(sent) + (head + rest);
    }
  }

  /** Moving the queue's head into the buffer keeps "dequeued" equal to "sent, then buffered". */
  lemma PullKeepsRows(dequeued: seq<PcmChunk>, c: PcmChunk)
    ensures Concat(dequeued + [c]) == Concat(dequeued) + c
  {
    ConcatAppend(dequeued, [c]);
    ConcatOne(c);
  }

  /** Every element is exactly one pipe frame long. */
  predicate AllFrames(frames: seq<PcmChunk>) {
    forall k :: 0 <= k < |frames| ==> |frames[k]| == PipeFrameSize
  }

  /** Whole frames only: rows sent so far are a multiple of the frame size. */
  lemma {:induction false} FramesAreWhole(frames: seq<PcmChunk>)
    requires AllFrames(frames)
    ensures |Concat(frames)| == PipeFrameSize * |frames|
  {
    if frames != [] {
      FramesAreWhole(frames[1..]);
    }
  }

  // ---- the generative model, a collaborator ----

  /** The style embedding returned by `embed_style`. */
  type Embedding = seq<real>

  /** The continuity token threaded through `generate_chunk` (None before the first call). */
  datatype GenState = NoState | State(token: seq<int>)

  /** What `generate_chunk(state, style, seed)` yields: float rows and the next state, or an exception. */
  datatype Generated = Generated(samples: seq<Fade.Row>, next: GenState) | GenerateFailed

  type Generator = (GenState, Embedding, nat) -> Generated

  /** `embed_style(name)`: an embedding, or None when it raises. */
  type Embedder = string -> Option<Embedding>

  /** Rows `AudioFade` can process without numpy raising: at least `fade_size` rows, all of the tail's width. */
  predicate FadeAccepts(samples: seq<Fade.Row>, fadeSize: nat, channels: nat) {
    |samples| >= fadeSize && Fade.HasWidth(samples, channels)
  }

  /**
   * `self.fade(chunk.samples)` on the generated rows: they are copied into
   * the array the fade works on in place, and the emitted rows come back.
   */
  method FadeSamples(fade: Fade.AudioFade, samples: seq<Fade.Row>) returns (emitted: seq<Fade.Row>)
    requires fade.Valid() && FadeAccepts(samples, fade.fadeSize, fade.channels)
    modifies fade
    ensures fade.Valid()
    ensures emitted == Fade.DropLast(Fade.Faded(samples, fade.ramp, old(fade.previous)), fade.fadeSize)
    ensures fade.previous == Fade.Tail(Fade.Faded(samples, fade.ramp, old(fade.previous)), fade.ramp)
  {
    var chunk := new Fade.Row[|samples|](i requires 0 <= i < |samples| => samples[i]);
    assert chunk[..] == samples;
    emitted := fade.Apply(chunk);
  }

  // ---- outcomes of one loop iteration ----

  /**
   * One writer iteration: `queue.Empty`, too few rows for a frame (`continue`),
   * a frame written, or a failed write that stops the writer.
   */
  datatype WriteOutcome = Starved | Short | Wrote(frame: PcmChunk) | WriteFailed(frame: PcmChunk)

  /** Opening the pipe: the writer proceeds, or the pipeline is stopped before any write. */
  datatype OpenOutcome = Opened | OpenFailed
}
