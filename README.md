# InfiniteRadio — a Dafny model of the audio pipeline and its controllers

InfiniteRadio streams endless generated music. This project models its core:

- A Python writer runs a generative model chunk by chunk. It crossfades the chunks (`AudioFade`) and quantises them to int16. It queues them in a bounded queue, and a writer thread slices them into 960-row frames for a named pipe. A monitor thread watches a genre-request file and switches the style.
- There are two writer variants, modelled separately:
  - `MusicContainer/music_server_pipe.py` clips to [-1, 1], has a five-slot queue, has the genre monitor, and keeps its frame buffer on the object.
  - The older top-level `music_server_pipe.py` has no clipping, a ten-slot queue and an inner refill loop.
- A Go server (`webrtc_server.go`) reads 3840-byte frames from the pipe on a 20 ms ticker. It decodes them as little-endian int16 and hands them to the Opus encoder. Its `/genre` endpoint writes a requested genre into the request file.
- `system_music.py` maps the busiest processes to genres through an ordered regex table. It weights those genres by CPU share and assembles a suggestion.
- `mac_app.py` is a menu-bar app. It validates an `IP:PORT` setting and starts and stops the DJ subprocess.
- `llm_dj.py` asks a vision model for a genre and posts the genre to the server only when it changed.

Modules:

| module | file | models |
|---|---|---|
| `Wrappers` | `wrappers.dfy` | Option and Result |
| `Text` | `text.dfy` | the Python `str` operations the core uses: `strip`, `lower`, `startswith`, `split(None, n)`, `split(sep)`, `rsplit(c, 1)`, `str(int)`, `int(str)` |
| `Pcm` | `pcm.dfy` | int16 samples and their little-endian bytes (`tobytes()` in Python, `binary.LittleEndian` in Go) |
| `Quantise` | `quantise.dfy` | the clipped and the unclipped float-to-int16 conversions |
| `Fade` | `fade.dfy` | `AudioFade` (the same class in both writer variants), as a class whose call updates an `array` in place |
| `Stream` | `stream.dfy` | chunks, frames, `np.vstack`, the generative-model interface and the outcome of one loop iteration |
| `ContainerPipe` | `container_pipe.dfy` | the container writer: genre-request parsing and the monitor decision, and a class with the generator, writer and monitor iterations |
| `LegacyPipe` | `legacy_pipe.dfy` | the older writer: the refill loop and a class with its iterations |
| `WebRtcServer`, `GenreHandoff` | `webrtc_server.dfy` | the Go decode loop, the paced read loop, the `/genre` handler, and what the handler's file write makes the monitor do |
| `GenreMapper`, `GenreWeights`, `SystemMonitor`, `Suggester` | `genre_mapper.dfy`, `genre_weights.dfy`, `system_monitor.dfy`, `suggester.dfy` | `system_music.py` |
| `MacApp` | `mac_app.py` → `mac_app.dfy` | settings parsing, `ProcessRunner`, the menu titles |
| `LlmDj` | `llm_dj.dfy` | provider names, monitor fallback, genre extraction, the update rule of the main loop |

Each loop of the Python and Go programs becomes a `method`. Each method is proved against a specification function, and the properties are lemmas about those functions. Each thread's loop body is one method call. Each locked region or queue operation is one atomic step.

Ghost fields on the writer classes record four sequences: the frames written, the frames sent since the last reset, the chunks dequeued and the chunks enqueued. Their class invariant `Valid()` states byte-exact continuity: frames sent, then the buffer, equal the dequeued chunks concatenated.

Collaborators are parameters:
- the generative model's `generate_chunk` and `embed_style`;
- the pipe open and write and the genre file's mtime and contents;
- `ps` output and Python's `float()`;
- JSON decoding, the model query and the HTTP result;
- whether the DJ script exists.

### Where the code departs from its comments and names (the model follows the code)

- On `queue.Full` the generator does not retry the chunk. It goes on to the next iteration, and the chunk is lost (`music_server_pipe.py:95-97`, `MusicContainer/music_server_pipe.py:185-188`).
- The `SMOOTH:` flag is parsed but never read. Every successful change empties the queue and the buffer and resets the fade tail. The generation state is always kept (`MusicContainer/music_server_pipe.py:107-141`).
- A failed re-embedding does not keep the previous genre. `current_genre` is assigned before the embed is attempted (`MusicContainer/music_server_pipe.py:117`).
- The stored fade tail is taken from the chunk after its head was faded in place, not from the raw chunk (`MusicContainer/music_server_pipe.py:35-37`). The two differ when a chunk is shorter than twice the fade.
- The older writer does not clip before the int16 cast (`music_server_pipe.py:90`).
- The container writer's peak-amplitude check is not only a diagnostic. A chunk of exactly `fade_size` rows fades to an empty array, `max` raises on it, and the generic handler stops the generator (`MusicContainer/music_server_pipe.py:170-173`, `189-192`).

## Model

| member | source | states |
|---|---|---|
| Fade.AudioFade.constructor | MusicContainer/music_server_pipe.py:19-29 | `fade_size = chunk_size * num_chunks`; the stored tail is `fade_size` zero rows of the writer's channel width (the same values numpy's broadcast zero column gives); the ramp is kept |
| Fade.AudioFade.Reset | MusicContainer/music_server_pipe.py:31-32 | the tail becomes zeros of the same shape; ramp and size unchanged |
| Fade.AudioFade.Apply | MusicContainer/music_server_pipe.py:34-38 | the chunk array is faded in place (head row i is `chunk[i]*ramp[i] + previous[i]`); the new tail is the faded chunk's last `fade_size` rows times the reversed ramp; the result is all rows but the last `fade_size` |
| Fade.FadeShape | MusicContainer/music_server_pipe.py:34-38 | the call emits `len(chunk) - fade_size` rows and keeps `fade_size` tail rows, all of the channel width |
| Fade.ConstantSignalCrossesSeam | MusicContainer/music_server_pipe.py:25-37 | with complementary ramp weights, a constant signal crosses the seam between two chunks unchanged |
| Fade.SeamStaysInRange | MusicContainer/music_server_pipe.py:35-37 | samples within [-1, 1] on both sides of a seam stay within [-1, 1] after the fade |
| Fade.ResetTailAddsNothing | MusicContainer/music_server_pipe.py:31-36 | after `reset()` the next chunk's head is only `chunk[i]*ramp[i]` |
| Fade.PySliceToNegative | MusicContainer/music_server_pipe.py:38 | `chunk[:-f]` is empty when `f == 0`, not the whole chunk |
| Fade.ZerosLike | MusicContainer/music_server_pipe.py:32 | same shape, every value zero |
| Quantise.Trunc | MusicContainer/music_server_pipe.py:178 | the cast truncates toward zero |
| Quantise.Clip | MusicContainer/music_server_pipe.py:178 | `np.clip` lies in the bounds and is the identity inside them |
| Quantise.QuantiseClipped | MusicContainer/music_server_pipe.py:178 | every queued sample lies in [-32767, 32767]; ±1 and beyond saturate; inside, it is `trunc(x*32767)` |
| Quantise.QuantiseRowsClipped | MusicContainer/music_server_pipe.py:173-178 | a chunk keeps its shape and every sample is clipped and quantised |
| Quantise.ClippingInertWhenCool | MusicContainer/music_server_pipe.py:173-178 | when no sample is hot, clipped and unclipped conversion agree on the whole chunk |
| Quantise.Wrap16 | music_server_pipe.py:90 | two's-complement reduction to int16, the identity within range |
| Quantise.QuantiseUnclipped | music_server_pipe.py:90 | within [-1, 1] the older conversion is `trunc(x*32767)` in [-32767, 32767] |
| Quantise.QuantiseRowsUnclipped | music_server_pipe.py:90 | a chunk keeps its shape and every sample is converted without clipping |
| Quantise.UnclippedAgreesInRange | music_server_pipe.py:90 | both conversions agree within [-1, 1] |
| Quantise.HotSampleWrapsWithoutClipping | music_server_pipe.py:90 | the older cast turns 1.5 into -16386, where clipping gives 32767 |
| Pcm.ToUnsigned | MusicContainer/music_server_pipe.py:231 | the two's-complement bit pattern of a sample |
| Pcm.ToSigned | webrtc_server.go:123 | Go's `int16(u)`: values of 32768 and more become negative |
| Pcm.SignedUnsignedInverse | webrtc_server.go:123 | the two conversions invert each other |
| Pcm.Encode | MusicContainer/music_server_pipe.py:231 | `tobytes()` gives two bytes per sample |
| Pcm.Decode | webrtc_server.go:122-124 | one sample per byte pair |
| Pcm.DecodeEncode | webrtc_server.go:122-124 | decoding the bytes of any sample sequence gives it back |
| Pcm.EncodeDecode | webrtc_server.go:122-124 | encoding the decoded samples of an even-length byte string gives the bytes back |
| Pcm.Interleave | MusicContainer/music_server_pipe.py:231 | a stereo block flattens to two samples per row |
| Pcm.FrameBytes | MusicContainer/music_server_pipe.py:231 | a frame's bytes are four per stereo row |
| Pcm.FrameBytesRoundTrip | webrtc_server.go:71-72 | a 960-row stereo frame is 3840 bytes and decodes to its 1920 interleaved samples |
| Stream.FadeSamples | MusicContainer/music_server_pipe.py:170 | `self.fade(chunk.samples)` returns the faded rows minus the tail, and stores the new tail |
| Stream.SendKeepsRows | MusicContainer/music_server_pipe.py:223-226 | slicing a frame off the buffer keeps "sent, then buffered" the same rows |
| Stream.PullKeepsRows | MusicContainer/music_server_pipe.py:217-220 | stacking a dequeued chunk under the buffer appends its rows |
| Stream.FramesAreWhole | MusicContainer/music_server_pipe.py:224-231 | the rows written are 960 times the number of frames |
| ContainerPipe.ParseRequest | MusicContainer/music_server_pipe.py:107-113 | the smooth flag is exactly "starts with `SMOOTH:`"; the genre is the content with those 7 characters removed and nothing else stripped |
| ContainerPipe.ParseRenderRequest | MusicContainer/music_server_pipe.py:107-113 | parsing inverts rendering, unless a hard request's genre starts with `SMOOTH:` |
| ContainerPipe.RenderParseRequest | MusicContainer/music_server_pipe.py:107-113 | rendering inverts parsing: the file content is recovered |
| ContainerPipe.Decide | MusicContainer/music_server_pipe.py:99-115 | only a present file newer than the last check is acted on; a read records the file's mtime; a change carries the requested genre, non-empty and different from the current one, and any other read is Unchanged |
| ContainerPipe.DecideCases | MusicContainer/music_server_pipe.py:99-115 | nothing is done unless the mtime is newer than `last_genre_check`; a change happens exactly for a readable, non-empty, different genre; the mtime is recorded whenever the file was read |
| ContainerPipe.SmoothRequestSameGenre | MusicContainer/music_server_pipe.py:105-113 | `SMOOTH:g` asks for the same genre as `g` |
| ContainerPipe.SmoothFlagIgnored | MusicContainer/music_server_pipe.py:107-145 | smooth and hard requests lead to the same monitor decision |
| ContainerPipe.SmoothPrefixKeepsInnerSpace | MusicContainer/music_server_pipe.py:108-109 | `SMOOTH: jazz` asks for ` jazz`: no second strip |
| ContainerPipe.RetryAfterFailedEmbedIsUnchanged | MusicContainer/music_server_pipe.py:115-117 | once `current_genre` holds a request's genre (even after a failed embed), rewriting that request is decided Unchanged |
| ContainerPipe.ContainerWriter.constructor | MusicContainer/music_server_pipe.py:41-84 | empty queue and buffer, `current_genre = style`, `last_genre_check = 0`, no generation state, a one-chunk fade |
| ContainerPipe.ContainerWriter.GenerateStep | MusicContainer/music_server_pipe.py:161-192 | the seed is the previous one plus 1; a generator or fade failure sets the stop event; otherwise the fade and state advance; a chunk that fades to no samples (exactly `fade_size` rows) stops the generator at the peak-amplitude check; otherwise the clipped chunk is queued, or dropped when the queue is full, and its hot flag is reported; the queue never exceeds 5 |
| ContainerPipe.ContainerWriter.Consume | MusicContainer/music_server_pipe.py:165-192 | a generator failure, or rows the fade cannot take, set the stop event and leave queue and fade alone; otherwise the generation state advances and the chunk is produced (which may itself stop, see Produce) |
| ContainerPipe.ContainerWriter.Produce | MusicContainer/music_server_pipe.py:170-192 | the fade advances its tail; emitted rows with no samples make `max` raise, so the stop event is set and nothing is queued; otherwise the rows are clipped and quantised and offered to the queue with their hot flag |
| ContainerPipe.FadedToNothing | MusicContainer/music_server_pipe.py:170-173 | the faded rows hold no sample exactly when the chunk has only `fade_size` rows or no channels |
| ContainerPipe.ContainerWriter.Offer | MusicContainer/music_server_pipe.py:181-188 | `put` queues the chunk exactly when fewer than 5 are waiting; on `queue.Full` nothing changes and the chunk is lost |
| ContainerPipe.ContainerWriter.OpenPipe | MusicContainer/music_server_pipe.py:201-208 | a failed open sets the stop event before any write; nothing else changes and the writer's invariant holds for the loops that follow |
| ContainerPipe.ContainerWriter.WriteStep | MusicContainer/music_server_pipe.py:210-231 | a chunk is dequeued only while the buffer has fewer than 960 rows; exactly one 960-row frame is written; an empty queue or a short buffer writes nothing; a failed write stops; continuity is kept; only the queue, buffer, sent frames and stop event change, so `last_genre_check` and the generator's fields are untouched |
| ContainerPipe.ContainerWriter.PullChunk | MusicContainer/music_server_pipe.py:217-220 | the queue's head is appended to the buffer |
| ContainerPipe.ContainerWriter.SendFrame | MusicContainer/music_server_pipe.py:223-231 | the first 960 rows are sent and dropped from the buffer; a failed write sets the stop event |
| ContainerPipe.ContainerWriter.ResetForNewGenre | MusicContainer/music_server_pipe.py:128-141 | queue and buffer empty, fade tail zeroed, generation state and everything else untouched |
| ContainerPipe.ContainerWriter.MonitorStep | MusicContainer/music_server_pipe.py:96-147 | the decision and `last_genre_check` follow `Decide`; `current_genre` changes on every change decision; embedding, queue, buffer and fade change only after a successful embed |
| ContainerPipe.ContainerWriter.Act | MusicContainer/music_server_pipe.py:115-147 | `last_genre_check` follows the mtime whenever the file was read; a change sets the genre; only a successful embed resets queue, buffer and fade |
| ContainerPipe.ContainerWriter.SwitchGenre | MusicContainer/music_server_pipe.py:115-145 | the genre is set first; a failed embed keeps the style and all buffers |
| ContainerPipe.ContainerWriter.Stop | MusicContainer/music_server_pipe.py:276-281 | a no-op once stopped, otherwise sets the stop event; no other field changes |
| ContainerPipe.ContinuitySinceReset | MusicContainer/music_server_pipe.py:213-231 | frames sent, then the buffer, then the queue, equal the chunks enqueued since the last reset, in FIFO order |
| LegacyPipe.RefillKeepsRows | music_server_pipe.py:124-127 | the refill loses and reorders no row; afterwards a frame is buffered or the queue is empty |
| LegacyPipe.RefillIdleOnFullBuffer | music_server_pipe.py:124 | a buffer already holding a frame takes nothing |
| LegacyPipe.LegacyWriter.constructor | music_server_pipe.py:41-69 | empty queue and buffer, no generation state, a one-chunk fade |
| LegacyPipe.LegacyWriter.GenerateStep | music_server_pipe.py:76-101 | as in the container variant, but unclipped and with a queue of 10 |
| LegacyPipe.LegacyWriter.Consume | music_server_pipe.py:83-101 | a generator failure, or rows the fade cannot take, set the stop event and leave queue and fade alone; otherwise the generation state advances and the chunk is produced |
| LegacyPipe.LegacyWriter.Produce | music_server_pipe.py:88-91 | the fade advances its tail; the emitted rows, even none, are quantised without clipping and offered to the queue; no amplitude is taken, so the outcome carries no hot flag |
| LegacyPipe.LegacyWriter.Offer | music_server_pipe.py:91-97 | `put` queues the chunk exactly when fewer than 10 are waiting; on `queue.Full` the chunk is lost |
| LegacyPipe.LegacyWriter.OpenPipe | music_server_pipe.py:110-117 | a failed open sets the stop event before any write; nothing else changes and the writer's invariant holds for the loops that follow |
| LegacyPipe.LegacyWriter.WriterIteration | music_server_pipe.py:121-142 | the inner loop refills until one frame is buffered; on an empty queue the pulled rows are kept and nothing is written; otherwise exactly one frame is written |
| LegacyPipe.LegacyWriter.PullChunk | music_server_pipe.py:126-127 | the queue's head is appended to the buffer |
| LegacyPipe.LegacyWriter.SendFrame | music_server_pipe.py:129-134 | the first 960 rows are sent and dropped from the buffer |
| LegacyPipe.LegacyWriter.Start | music_server_pipe.py:148-149 | `start()` clears the stop event |
| LegacyPipe.LegacyWriter.Stop | music_server_pipe.py:172-177 | a no-op once stopped, otherwise sets the stop event; no other field changes |
| WebRtcServer.DecodeFrame | webrtc_server.go:122-124 | the loop writes sample i from bytes 2i and 2i+1 into the reused buffer, reading only within it |
| WebRtcServer.DecodedFrameIsWriterFrame | webrtc_server.go:89-90 | a writer frame decodes to exactly its 1920 interleaved samples |
| WebRtcServer.PacedLoop | webrtc_server.go:111-143 | frames are decoded only after a full read; a read error breaks out to reconnect; an encode error skips the frame |
| WebRtcServer.SessionShape | webrtc_server.go:111-131 | every frame passed on has 1920 samples; there is at most one per tick; a reconnect happens exactly when a read failed |
| WebRtcServer.WriterFramesArriveIntact | webrtc_server.go:111-131 | frames the writer wrote reach the encoder unchanged and in order |
| WebRtcServer.HandleGenreChange | webrtc_server.go:330-365 | OPTIONS gives 200 and nothing else; other non-POST methods give 405; an undecodable body gives 400; a failed write gives 500; the genre is written verbatim and echoed on success |
| GenreHandoff.PostedGenreIsAdopted | webrtc_server.go:350-358 | a posted genre written to the file is adopted unchanged by the monitor when it has no surrounding space and no `SMOOTH:` prefix |
| GenreMapper.AnyRMatchesScientific | system_music.py:68 | the alternative `r` matches any text containing an r |
| GenreMapper.FirstHitFrom | system_music.py:97-99 | the first rule in table order that the name or the command hits |
| GenreMapper.GetGenreForProcess | system_music.py:91-102 | returns the first hit rule's genres, and the fallback only when no rule hits |
| GenreMapper.DefaultTableShape | system_music.py:33-89 | fifteen rules, each with at least one alternative and at least one genre; the scientific rule's genres and the fallback list as in `__init__` |
| GenreMapper.PythonShadowsTensorflow | system_music.py:37-73 | any process the `python.*tensorflow` alternative matches is decided at or before the coding rule, so that alternative never decides a genre |
| GenreMapper.NoFallbackWithR | system_music.py:68-99 | with the default table, any process whose name or command contains an r gets a rule at or before the scientific one |
| GenreWeights.Find | system_music.py:120 | dictionary membership: a found position holds the key; absence means the key is not present |
| GenreWeights.Normalise | system_music.py:127 | same keys in the same order, each value divided by the sum |
| GenreWeights.SumCpu | system_music.py:107 | the loop computes the CPU total |
| GenreWeights.CollectVotes | system_music.py:112-122 | the loop skips processes under 1% CPU and adds `cpu / total` to each genre of the others |
| GenreWeights.Vote | system_music.py:119-122 | a new genre is inserted at 0 and then increased |
| GenreWeights.InsertThenAdd | system_music.py:120-122 | insert-zero-then-add is one dictionary update |
| GenreWeights.GetWeightedGenreSuggestion | system_music.py:104-131 | computes the weighted suggestion |
| GenreWeights.AccumulateSigned | system_music.py:112-122 | every accumulated weight has the sign of the total |
| GenreWeights.SumOfNormalised | system_music.py:126-127 | the normalised values sum to the old sum over the divisor |
| GenreWeights.WeightsAreADistribution | system_music.py:104-131 | the result is non-empty, every weight is positive and the weights sum to 1 |
| GenreWeights.AmbientWhenIdle | system_music.py:107-129 | a zero total, or no process at 1% CPU or more, gives exactly `{'ambient': 1.0}` |
| GenreWeights.KeysAreVotedGenres | system_music.py:112-127 | otherwise the keys are exactly the genres of the counted processes, each once |
| GenreWeights.AccumulateIsRawOverTotal | system_music.py:107-122 | the raw weights are CPU sums divided by the full total, skipped processes included |
| GenreWeights.NormalisedIgnoresTotal | system_music.py:107-127 | after normalisation the full total cancels out |
| SystemMonitor.ProcessName | system_music.py:156 | the name is the text after the last `/` of the command's first token |
| SystemMonitor.ParseLine | system_music.py:147-166 | a line is kept exactly when it splits into 11 fields (at most 10 splits) and its CPU, memory and pid parse; the command is the 11th field and the name its base name |
| SystemMonitor.FirstLines | system_music.py:146 | `lines[:limit]` |
| SystemMonitor.GetTopProcesses | system_music.py:136-172 | the header is dropped, the first `limit` lines are parsed in order, and a failed `ps` gives nothing |
| SystemMonitor.ParsedAtMostLines | system_music.py:146-164 | at most one process per examined line |
| SystemMonitor.AtMostLimit | system_music.py:144-146 | at most `limit` processes |
| SystemMonitor.ParsedProcessesWellFormed | system_music.py:147-156 | commands are non-empty and names have no `/` or whitespace |
| Suggester.DisplayCommand | system_music.py:224 | commands of 50 characters or fewer are shown whole, longer ones as their first 50 plus `...` |
| Suggester.FirstMaximum | system_music.py:211 | the first entry of maximal weight |
| Suggester.Summaries | system_music.py:227-234 | at most 3 entries, each the name, CPU and genres of the corresponding process |
| Suggester.GetCurrentMusicSuggestion | system_music.py:194-235 | no processes give ambient without `all_processes`; otherwise the primary genre has maximal weight and the top process is the first |
| Suggester.PrimaryGenreIsWeighted | system_music.py:210-211 | the primary genre's weight is positive |
| Text.SplitWhitespaceParts | system_music.py:147 | `split(None, n)` gives at most n+1 non-empty parts, all but the last without whitespace |
| Text.StripKeepsTrimmed | mac_app.py:162-166 | `strip` leaves text alone that neither starts nor ends with whitespace |
| Text.RSplitOnce | mac_app.py:162 | `rsplit(':', 1)` splits at the last colon |
| Text.ParseIntOfIntToString | mac_app.py:189 | `int(str(n)) == n` |
| MacApp.DefaultText | mac_app.py:132-137 | the example text when nothing is set; `ip:port` when both are set; `ip` alone when only the ip is set; `:port` when only the port is set |
| MacApp.ParseSettings | mac_app.py:151-176 | empty and colon-free input are rejected; the split is at the last colon; both parts are stripped; an empty ip is rejected; the port error happens exactly when the stripped port is not an integer in (0, 65536), and otherwise the input is accepted with that ip and port |
| MacApp.Ipv6Loopback | mac_app.py:162 | `::1:8080` gives ip `::1` and port 8080 |
| MacApp.DefaultTextRoundTrip | mac_app.py:132-176 | saving the default text of stored settings gives those settings back |
| MacApp.ProcessRunner.Start | mac_app.py:16-28 | launches with the current args exactly when not running and the script exists |
| MacApp.ProcessRunner.Stop | mac_app.py:30-37 | acts exactly when running and then leaves no process |
| MacApp.ProcessRunner.ChildExits | mac_app.py:39-40 | after the child exits, `is_running` is false |
| MacApp.InfiniteRadioApp.constructor | mac_app.py:43-58 | unconfigured, no process, the start and open items disabled, labels "Not Set" |
| MacApp.InfiniteRadioApp.RebuildMenu | mac_app.py:60-99 | items are enabled exactly when configured; the labels show the settings or "Not Set" |
| MacApp.InfiniteRadioApp.UpdateStatus | mac_app.py:101-111 | when configured, the title is Stop exactly while running; when unconfigured nothing changes |
| MacApp.InfiniteRadioApp.ToggleDjProcess | mac_app.py:113-119 | a running process is stopped, otherwise one is started, and the title follows |
| MacApp.InfiniteRadioApp.ConfigureSettings | mac_app.py:127-197 | cancelled or rejected input changes nothing; a save stores ip, port and `args == [ip, str(port)]`, stopping a running process first and restarting it afterwards |
| MacApp.InfiniteRadioApp.SaveSettings | mac_app.py:181-197 | the save path keeps the app invariant: ip and port set together, validated and mirrored in the args |
| MacApp.InfiniteRadioApp.Quit | mac_app.py:199-210 | the process is stopped before quitting |
| LlmDj.ProviderToHuman | llm_dj.py:112-120 | the three display names, and `Unkown Provider` for any other name |
| LlmDj.GetProvider | llm_dj.py:122-132 | `vllm` raises, `ollama` gives the Ollama client, any other name the OpenAI client |
| LlmDj.ProviderTablesAgree | llm_dj.py:112-132 | the two tables agree name by name |
| LlmDj.SelectMonitor | llm_dj.py:26-30 | an index at or past the monitor count falls back to 0; otherwise Python indexing applies |
| LlmDj.Lookup | llm_dj.py:78-79 | the last member with the key, or none |
| LlmDj.ParsedGenre | llm_dj.py:79-83 | a genre only from an object whose `music_genre` member is a string |
| LlmDj.MatchAt | llm_dj.py:88 | a capture is non-empty and has no quote |
| LlmDj.SearchFrom | llm_dj.py:88 | the leftmost match at or after a position |
| LlmDj.FallbackGenre | llm_dj.py:84-91 | the capture of the leftmost `{"music_genre":<ws>"…"}`, or none when nothing matches |
| LlmDj.GenreFromReply | llm_dj.py:63-95 | a failed query gives none; a decoded reply uses the parsed genre; an undecodable one the fallback |
| LlmDj.FallbackRecoversRenderedReply | llm_dj.py:61-91 | a reply in the requested format, after chatter without a brace, is recovered by the fallback |
| LlmDj.RunCycles | llm_dj.py:165-197 | the loop of `main` computes the specified run: `last_genre` and the genres posted |
| LlmDj.NoneSuggestionSkippedAtStart | llm_dj.py:188 | because `str(None)` is `"None"`, a first suggestion "none" is not posted |
| LlmDj.SkippedCycleChangesNothing | llm_dj.py:172-183 | a cycle without a screenshot or a genre changes nothing |
| LlmDj.LastGenreChangesOnlyOnSuccess | llm_dj.py:188-192 | `last_genre` changes only to a genre whose post succeeded |
| LlmDj.RepeatIsNotPosted | llm_dj.py:188 | a suggestion equal, ignoring case, to the last genre is not posted |
| LlmDj.RunInvariant | llm_dj.py:165-197 | at most one post per cycle; every post is a suggestion; the last genre was posted |

## Left out

- Threads, locks, `Event` waits, queue timeouts, `sleep` and `join` are left out. Each locked region and each queue operation is one atomic method. A stale chunk can still land in the buffer after a reset: the writer dequeues outside the lock and appends later. The model does not claim that no audio from before a change reaches the pipe.
- The generative model, the named pipe, the genre file, `ps`, `/proc/loadavg`, screenshots, HTTP, dialogs, notifications, `webbrowser` and `subprocess.Popen` are left out. Their results are parameters.
- The sine ramp's values are left out. The proofs use two hypotheses over reals: values lie in [0, 1], and ramp plus reversed ramp is 1.
- Fade.AudioFade.constructor: the initial tail is one zero column of shape (`fade_size`, 1) that numpy broadcasts, so the first chunk may have any channel count and its width then becomes the tail's; the model gives the tail the writer's channel width from the start, so a first chunk of another width, which numpy accepts, is treated as one the fade cannot take. Both writers build the fade with `stereo=(channels == 2)`. For any other channel count the source keeps a one-dimensional tail and ramp, against which a two-dimensional chunk does not broadcast in place once `fade_size > 1`, so the generic handler stops the generator on the first chunk. The model always uses a two-dimensional tail of the writer's channel width, so on a non-stereo model it fades and queues chunks the source would stop on.
- Fade.AudioFade.constructor requires `fade_size > 0`. With a zero fade, numpy broadcasting of the tail raises. `Fade.PySliceToNegative` records what `chunk[:-0]` would give.
- Quantise.QuantiseUnclipped: numpy leaves an out-of-range float-to-int16 cast unspecified. The model assumes the common two's-complement wrap of the truncated value.
- Floating-point rounding is left out. Samples, CPU shares and weights are exact reals, so "sums to 1" holds over reals only.
- Go's `float64` computation of the samples per frame is left out; the model uses the constant 960. Opus encoding, `WriteSample` and the outer reconnect loop are left out; a session is one open pipe.
- The regex engine is not modelled in general. The rule table uses only `|`, literals and `.*`, and that fragment is modelled concretely. `GetGenreForProcess` takes the matcher as a parameter.
- The markdown-fence removal before `json.loads` is left out. The decode result is a parameter, and the fallback regex is modelled exactly.
- JSON decoding in Go (`/genre` body) is left out; its result is a parameter.
- Text.Lower: lowercases ASCII letters only; Python's `lower` also folds other scripts.
- Text.ParseInt: accepts ASCII digits, a sign and single underscores; Python's `int` also accepts non-ASCII digits.
- SystemMonitor.ParseLine: Python's `float()` is a parameter. `limit` is a natural number, so the negative slice limits of `lines[:limit]` are not modelled.
- `get_system_load` parsing and the printing `main` loops of `system_music.py` and `llm_dj.py` are left out, apart from the `last_genre` rule. The formatted reasoning text is kept as its name and CPU value.
- `serveHome`, `handleOffer`, WebRTC setup, `provider.py`, `test.py` and `setup.py` are UI or library plumbing.
- `--list-monitors`, argument parsing and the startup messages of `llm_dj.py` are left out.
- MacApp.InfiniteRadioApp.UiUrl has no contract: `open_ui` only formats the URL.

## Findings

| source | as written | input that shows it | evidently intended | confidence | as-written member | corrected member |
|---|---|---|---|---|---|---|
| music_server_pipe.py:90 | `(faded_audio * 32767).astype(np.int16)` converts hot samples without clipping, so they wrap around | a faded sample 1.5 becomes 49150.5, truncated to 49150, stored as -16386 | clip to [-1, 1] first, as the container variant does "to prevent crackling", giving 32767 | not executed | Quantise.HotSampleWrapsWithoutClipping | Quantise.QuantiseClipped |
