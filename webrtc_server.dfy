/**
 * The Go side of the pipe: the paced read/decode loop of `generateAudio` and
 * the decision logic of the `/genre` HTTP handler.
 */
module WebRtcServer {
  import opened Wrappers
  import opened Pcm

  // 48 kHz, stereo, 20 ms frames: 960 rows, 1920 samples, 3840 bytes per frame
  // (the same constants as the pipe writer's, defined once in module Pcm).
  const SampleRate: nat := 48000

  /**
   * The decode loop: sample `i` is `int16(LittleEndian.Uint16(buf[2i:]))`.
   * It reads bytes `2i` and `2i + 1` only, so the byte buffer must hold two
   * bytes per sample (a shorter slice panics in Go).
   */
  method DecodeFrame(pcmBuffer: array<Byte>, pcmInt16: array<Int16>)
    requires pcmBuffer.Length >= 2 * pcmInt16.Length
    modifies pcmInt16
    ensures pcmInt16[..] == Decode(pcmBuffer[..2 * pcmInt16.Length])
  {
    for i := 0 to pcmInt16.Length
      invariant forall k :: 0 <= k < i ==> pcmInt16[k] == ToSigned(Uint16LE(pcmBuffer[2 * k], pcmBuffer[2 * k + 1]))
    {
      pcmInt16[i] := ToSigned(Uint16LE(pcmBuffer[2 * i], pcmBuffer[2 * i + 1]));
    }
    assert forall k :: 0 <= k < 2 * pcmInt16.Length ==> pcmBuffer[..2 * pcmInt16.Length][k] == pcmBuffer[k];
  }

  /** A full frame decodes to exactly `SamplesPerFrame` samples, the frame's own when it came from the writer. */
  lemma DecodedFrameIsWriterFrame(rows: seq<seq<Int16>>)
    requires |rows| == PipeFrameSize
    requires forall i :: 0 <= i < |rows| ==> |rows[i]| == Channels
    ensures |Decode(FrameBytes(rows))| == SamplesPerFrame
    ensures Decode(FrameBytes(rows)) == Interleave(rows)
  {
    FrameBytesRoundTrip(rows);
  }

  // ---- the paced loop on one open pipe ----

  /** What `io.ReadFull` returned: the bytes read, or an error (EOF or short read). */
  datatype Read = Filled(bytes: seq<Byte>) | ReadError

  /** One ticker period: the read, and whether the Opus encoder accepted the frame. */
  datatype Tick = Tick(read: Read, encodes: bool)

  /** `io.ReadFull` succeeds only when the whole frame buffer was filled. */
  predicate ReadOk(r: Read) {
    r.Filled? && |r.bytes| == BytesPerFrame
  }

  datatype SessionResult = SessionResult(frames: seq<seq<Int16>>, reconnect: bool)

  /**
   * The frames handed to the encoder successfully, in order, over a run of
   * ticks on one open pipe; the flag says whether a read error ended the run
   * (and sent the outer loop back to reopening the pipe).
   */
  function Session(ticks: seq<Tick>): (r: SessionResult)
  {
    if ticks == [] then SessionResult([], false)
    else if !ReadOk(ticks[0].read) then SessionResult([], true)
    else
      var rest := Session(ticks[1..]);
      SessionResult(if ticks[0].encodes then [Decode(ticks[0].read.bytes)] + rest.frames else rest.frames, rest.reconnect)
  }

  /**
   * Every frame passed on holds `SamplesPerFrame` samples, no more frames than
   * ticks are passed on, and the run ends in a reconnect exactly when some read
   * failed.
   */
  lemma {:induction false} SessionShape(ticks: seq<Tick>)
    ensures forall k :: 0 <= k < |Session(ticks).frames| ==> |Session(ticks).frames[k]| == SamplesPerFrame
    ensures |Session(ticks).frames| <= |ticks|
    ensures Session(ticks).reconnect <==> exists t :: 0 <= t < |ticks| && !ReadOk(ticks[t].read)
  {
    if ticks != [] && ReadOk(ticks[0].read) {
      SessionShape(ticks[1..]);
      if Session(ticks[1..]).reconnect {
        var t :| 0 <= t < |ticks[1..]| && !ReadOk(ticks[1..][t].read);
        assert !ReadOk(ticks[t + 1].read);
      }
      if exists t :: 0 <= t < |ticks| && !ReadOk(ticks[t].read) {
        var t :| 0 <= t < |ticks| && !ReadOk(ticks[t].read);
        assert t > 0 && !ReadOk(ticks[1..][t - 1].read);
      }
    }
  }

  /** An int16 frame as the writer emits it: 960 rows of two channels. */
  predicate IsWriterFrame(rows: seq<seq<Int16>>) {
    |rows| == PipeFrameSize && forall i :: 0 <= i < |rows| ==> |rows[i]| == Channels
  }

  /** The interleaved samples of each frame, in order. */
  function InterleaveEach(frames: seq<seq<seq<Int16>>>): (r: seq<seq<Int16>>)
    ensures |r| == |frames|
  {
    if frames == [] then [] else [Interleave(frames[0])] + InterleaveEach(frames[1..])
  }

  /**
   * End to end over the pipe: when every tick reads a frame the writer wrote
   * and the encoder accepts it, the encoder is given exactly the writer's
   * frames, interleaved, in order, and no reconnect happens.
   */
  lemma {:induction false} WriterFramesArriveIntact(frames: seq<seq<seq<Int16>>>, ticks: seq<Tick>)
    requires |ticks| == |frames|
    requires forall k :: 0 <= k < |frames| ==> IsWriterFrame(frames[k])
    requires forall k :: 0 <= k < |ticks| ==> ticks[k] == Tick(Filled(FrameBytes(frames[k])), true)
    ensures Session(ticks) == SessionResult(InterleaveEach(frames), false)
  {
    if ticks != [] {
      FrameBytesRoundTrip(frames[0]);
      assert ReadOk(ticks[0].read);
      forall k | 0 <= k < |ticks[1..]|
        ensures ticks[1..][k] == Tick(Filled(FrameBytes(frames[1..][k])), true)
        ensures IsWriterFrame(frames[1..][k])
      {
        assert ticks[1..][k] == ticks[k + 1] && frames[1..][k] == frames[k + 1];
      }
      WriterFramesArriveIntact(frames[1..], ticks[1..]);
    }
  }

  /**
   * The inner `for range ticker.C` loop: read a frame into the reused byte
   * buffer, decode it into the reused sample buffer, and pass it on unless the
   * encoder fails; a read error breaks out to reconnect.
   */
  method PacedLoop(ticks: seq<Tick>) returns (encoded: seq<seq<Int16>>, reconnect: bool)
    ensures SessionResult(encoded, reconnect) == Session(ticks)
  {
    var pcmBuffer := new Byte[BytesPerFrame];
    var pcmInt16 := new Int16[SamplesPerFrame];
    encoded, reconnect := [], false;
    var t := 0;
    assert ticks[t..] == ticks;
    while t < |ticks|
      invariant 0 <= t <= |ticks| && !reconnect
      invariant Session(ticks) == SessionResult(encoded + Session(ticks[t..]).frames, Session(ticks[t..]).reconnect)
    {
      var tick := ticks[t];
      assert ticks[t..][0] == tick && ticks[t..][1..] == ticks[t + 1..];
      if !ReadOk(tick.read) {
        reconnect := true;
        break;
      }
      var bytes := tick.read.bytes;
      forall k | 0 <= k < BytesPerFrame {
        pcmBuffer[k] := bytes[k];
      }
      assert pcmBuffer[..] == bytes;
      DecodeFrame(pcmBuffer, pcmInt16);
      assert pcmBuffer[..2 * pcmInt16.Length] == bytes;
      if tick.encodes {
        encoded := encoded + [pcmInt16[..]];
      }
      t := t + 1;
    }
    assert t == |ticks| ==> ticks[t..] == [];
  }

  // ---- the /genre handler ----

  const StatusOK: nat := 200
  const StatusBadRequest: nat := 400
  const StatusMethodNotAllowed: nat := 405
  const StatusInternalServerError: nat := 500

  /**
   * The handler's outcome: the status code, the text it tried to write to the
   * genre request file, and the genre echoed in a success body.
   */
  datatype GenreReply = GenreReply(status: nat, fileWrite: Option<string>, echoed: Option<string>)

  /**
   * `handleGenreChange` with the JSON decode of the body (`decoded`, the
   * `genre` field) and the file write's success given.
   */
  function HandleGenreChange(httpMethod: string, decoded: Option<string>, writeOk: bool): (r: GenreReply)
    ensures r.status in {StatusOK, StatusBadRequest, StatusMethodNotAllowed, StatusInternalServerError}
    ensures r.status == StatusOK <==> httpMethod == "OPTIONS" || (httpMethod == "POST" && decoded.Some? && writeOk)
    ensures r.status == StatusMethodNotAllowed <==> httpMethod != "OPTIONS" && httpMethod != "POST"
    ensures r.status == StatusBadRequest <==> httpMethod == "POST" && decoded.None?
    ensures r.status == StatusInternalServerError <==> httpMethod == "POST" && decoded.Some? && !writeOk
    ensures r.fileWrite.Some? <==> httpMethod == "POST" && decoded.Some?
    ensures r.fileWrite.Some? ==> r.fileWrite == decoded
    ensures r.echoed.Some? <==> httpMethod == "POST" && r.status == StatusOK
    ensures r.echoed.Some? ==> r.echoed == decoded
  {
    if httpMethod == "OPTIONS" then GenreReply(StatusOK, None, None)
    else if httpMethod != "POST" then GenreReply(StatusMethodNotAllowed, None, None)
    else if decoded.None? then GenreReply(StatusBadRequest, None, None)
    else if !writeOk then GenreReply(StatusInternalServerError, decoded, None)
    else GenreReply(StatusOK, decoded, decoded)
  }
}

/**
 * The hand-off between the Go handler and the container writer through the
 * genre request file.
 */
module GenreHandoff {
  import opened Wrappers
  import opened Text
  import WebRtcServer
  import ContainerPipe

  /**
   * A genre posted to `/genre` and written verbatim is adopted by the next
   * monitor iteration, unchanged, when it is non-empty, carries no surrounding
   * whitespace and no `SMOOTH:` prefix, differs from the current genre, and the
   * file's mtime is newer than the last check.
   */
  lemma PostedGenreIsAdopted(g: string, mtime: real, lastCheck: real, current: string)
    requires g != [] && !IsSpace(g[0]) && !IsSpace(g[|g| - 1])
    requires !StartsWith(g, ContainerPipe.SmoothPrefix)
    requires g != current && mtime > lastCheck
    ensures var reply := WebRtcServer.HandleGenreChange("POST", Some(g), true);
      && reply.status == WebRtcServer.StatusOK
      && ContainerPipe.Decide(ContainerPipe.Present(mtime, reply.fileWrite), lastCheck, current)
         == ContainerPipe.Change(g, mtime)
  {
    StripKeepsTrimmed(g);
  }
}
