/**
 * The LLM DJ's decisions: provider names, the monitor fallback, extracting a
 * genre from the model's reply, and the rule for when a genre is posted to the
 * music server. Screenshots, the model call, JSON decoding and HTTP are
 * outcomes passed in.
 */
module LlmDj {
  import opened Wrappers
  import opened Text

  // ---- providers ----

  const LmStudio: string := "lm-studio"
  const Ollama: string := "ollama"
  const Vllm: string := "vllm"
  /** The fallback display name, spelled as the program spells it. */
  const UnknownProviderName: string := "Unkown Provider"

  /** `model_provider_to_human`. */
  function ProviderToHuman(provider: string): (name: string)
    ensures provider == LmStudio ==> name == "LM Studio"
    ensures provider == Ollama ==> name == "Ollama"
    ensures provider == Vllm ==> name == "vLLM"
    ensures name == UnknownProviderName <==> provider !in {LmStudio, Ollama, Vllm}
  {
    if provider == LmStudio then "LM Studio"
    else if provider == Ollama then "Ollama"
    else if provider == Vllm then "vLLM"
    else UnknownProviderName
  }

  datatype ProviderClass = OpenAiProvider | OllamaProvider

  /** `get_provider`: vLLM raises `NotImplementedError`; unknown names default to the OpenAI client. */
  function GetProvider(provider: string): (r: Result<ProviderClass, string>)
    ensures r.Err? <==> provider == Vllm
    ensures r == Ok(OllamaProvider) <==> provider == Ollama
    ensures r == Ok(OpenAiProvider) <==> provider != Ollama && provider != Vllm
  {
    if provider == LmStudio then Ok(OpenAiProvider)
    else if provider == Ollama then Ok(OllamaProvider)
    else if provider == Vllm then Err("vLLM support is not implemented yet")
    else Ok(OpenAiProvider)
  }

  /**
   * The two tables agree: a provider is refused exactly when it is shown as
   * vLLM, the Ollama client is chosen exactly when it is shown as Ollama, and
   * every name shown as unknown gets the OpenAI client.
   */
  lemma ProviderTablesAgree(provider: string)
    ensures GetProvider(provider).Err? <==> ProviderToHuman(provider) == "vLLM"
    ensures GetProvider(provider) == Ok(OllamaProvider) <==> ProviderToHuman(provider) == "Ollama"
    ensures ProviderToHuman(provider) == UnknownProviderName ==> GetProvider(provider) == Ok(OpenAiProvider)
  {
  }

  // ---- monitors ----

  /**
   * The monitor `examine_activity` captures: an index at or past the end falls
   * back to 0 (all monitors combined); otherwise Python indexing applies, so a
   * negative index counts from the end and one below `-count` raises (the
   * screenshot then fails, `None`).
   */
  function SelectMonitor<M>(monitors: seq<M>, requested: int): (r: Option<M>)
    ensures requested >= |monitors| ==> r == (if monitors == [] then None else Some(monitors[0]))
    ensures 0 <= requested < |monitors| ==> r == Some(monitors[requested])
    ensures r.Some? ==> r.value in monitors
    ensures r.None? <==> monitors == [] || requested < -|monitors|
  {
    var index := if requested >= |monitors| then 0 else requested;
    if 0 <= index < |monitors| then Some(monitors[index])
    else if -|monitors| <= index < 0 then Some(monitors[|monitors| + index])
    else None
  }

  // ---- the model's reply ----

  /** A decoded JSON value; an object keeps its members in document order. */
  datatype Json =
    | JNull
    | JBool(b: bool)
    | JNumber(n: real)
    | JString(s: string)
    | JArray(items: seq<Json>)
    | JObject(members: seq<Member>)

  datatype Member = Member(key: string, value: Json)

  const GenreKey: string := "music_genre"

  /** The value of the last member with key `key` (Python's `json.loads` keeps the last duplicate). */
  function Lookup(members: seq<Member>, key: string): (r: Option<Json>)
    ensures r.None? <==> forall k :: 0 <= k < |members| ==> members[k].key != key
    ensures r.Some? ==> exists k :: 0 <= k < |members| && members[k] == Member(key, r.value)
  {
    if members == [] then None
    else if members[|members| - 1].key == key then Some(members[|members| - 1].value)
    else
      var r := Lookup(members[..|members| - 1], key);
      assert forall k :: 0 <= k < |members| - 1 ==> members[..|members| - 1][k] == members[k];
      r
  }

  /**
   * The genre in a decoded reply: only an object whose `music_genre` member is
   * a string yields one. For an array or a string, `in` tests membership or a
   * substring and the indexing that follows raises; Python then returns `None`
   * from the outer handler, as for every other kind of value.
   */
  function ParsedGenre(reply: Json): (r: Option<string>)
    ensures r.Some? <==> reply.JObject? && Lookup(reply.members, GenreKey).Some? && Lookup(reply.members, GenreKey).value.JString?
    ensures r.Some? ==> r == Some(Lookup(reply.members, GenreKey).value.s)
  {
    match reply
    case JObject(members) =>
      (match Lookup(members, GenreKey)
       case Some(JString(g)) => Some(g)
       case _ => None)
    case _ => None
  }

  const FallbackOpen: string := "{\"music_genre\":"
  const FallbackClose: string := "\"}"

  /** Length of the leading run of whitespace (`\s*`). */
  function SpaceRun(s: string): (n: nat)
    ensures n <= |s|
    ensures forall k :: 0 <= k < n ==> IsSpace(s[k])
    ensures n < |s| ==> !IsSpace(s[n])
  {
    if s != [] && IsSpace(s[0]) then 1 + SpaceRun(s[1..]) else 0
  }

  /** Length of the leading run of characters other than `"` (`[^"]*`). */
  function QuoteFreeRun(s: string): (n: nat)
    ensures n <= |s|
    ensures '"' !in s[..n]
    ensures n < |s| ==> s[n] == '"'
  {
    if s != [] && s[0] != '"' then 1 + QuoteFreeRun(s[1..]) else 0
  }

  /**
   * The match of `\{"music_genre":\s*"([^"]+)"\}` starting exactly at `i`, as
   * its capture. Neither run can give back characters and still match, so the
   * greedy runs are the only candidates.
   */
  function MatchAt(s: string, i: nat): (r: Option<string>)
    requires i <= |s|
    ensures r.Some? ==> r.value != [] && '"' !in r.value
  {
    var t := s[i..];
    if !StartsWith(t, FallbackOpen) then None
    else
      var u := t[|FallbackOpen|..];
      var w := SpaceRun(u);
      var v := u[w..];
      if v == [] || v[0] != '"' then None
      else
        var n := QuoteFreeRun(v[1..]);
        if n == 0 || !StartsWith(v[1 + n..], FallbackClose) then None
        else Some(v[1..1 + n])
  }

  /** `re.search` from position `i`: the leftmost match at or after `i`. */
  function SearchFrom(s: string, i: nat): (r: Option<string>)
    requires i <= |s|
    ensures r.None? <==> forall j :: i <= j <= |s| ==> MatchAt(s, j).None?
    ensures r.Some? ==> exists j :: i <= j <= |s| && MatchAt(s, j) == r && forall k :: i <= k < j ==> MatchAt(s, k).None?
    decreases |s| - i
  {
    var here := MatchAt(s, i);
    if here.Some? then here
    else if i == |s| then None
    else
      var r := SearchFrom(s, i + 1);
      LeftmostStep(s, i, r);
      r
  }

  /** A leftmost match after position `i` is the leftmost from `i` when none starts at `i`. */
  lemma LeftmostStep(s: string, i: nat, r: Option<string>)
    requires i < |s| && MatchAt(s, i).None?
    requires r.None? <==> forall j :: i + 1 <= j <= |s| ==> MatchAt(s, j).None?
    requires r.Some? ==> exists j :: i + 1 <= j <= |s| && MatchAt(s, j) == r && forall k :: i + 1 <= k < j ==> MatchAt(s, k).None?
    ensures r.None? <==> forall j :: i <= j <= |s| ==> MatchAt(s, j).None?
    ensures r.Some? ==> exists j :: i <= j <= |s| && MatchAt(s, j) == r && forall k :: i <= k < j ==> MatchAt(s, k).None?
  {
    if r.Some? {
      var j :| i + 1 <= j <= |s| && MatchAt(s, j) == r && forall k :: i + 1 <= k < j ==> MatchAt(s, k).None?;
      assert forall k :: i <= k < j ==> MatchAt(s, k).None?;
    }
  }

  /** The fallback extractor: the capture of the leftmost match in the raw reply. */
  function FallbackGenre(content: string): (r: Option<string>)
    ensures r.Some? ==> r.value != [] && '"' !in r.value
    ensures r.None? <==> forall j :: 0 <= j <= |content| ==> MatchAt(content, j).None?
    ensures r.Some? ==> exists j :: 0 <= j <= |content| && MatchAt(content, j) == r && forall k :: 0 <= k < j ==> MatchAt(content, k).None?
  {
    SearchFrom(content, 0)
  }

  /**
   * `get_genre_from_llm_local`: the model's reply (`None` when the query
   * raised) and the result of decoding its fence-stripped text (`None` on a
   * decode error, in which case the raw reply is searched).
   */
  function GenreFromReply(content: Option<string>, decoded: Option<Json>): (r: Option<string>)
    ensures content.None? ==> r.None?
    ensures content.Some? && decoded.Some? ==> r == ParsedGenre(decoded.value)
    ensures content.Some? && decoded.None? ==> r == FallbackGenre(content.value)
  {
    if content.None? then None
    else if decoded.Some? then ParsedGenre(decoded.value)
    else FallbackGenre(content.value)
  }

  /** The reply the system prompt asks for. */
  function RenderReply(genre: string): string {
    FallbackOpen + " \"" + genre + FallbackClose
  }

  lemma MatchAtRendered(lead: string, genre: string)
    requires genre != [] && '"' !in genre
    ensures MatchAt(lead + RenderReply(genre), |lead|) == Some(genre)
  {
    var s := lead + RenderReply(genre);
    var t := s[|lead|..];
    assert t == RenderReply(genre);
    var u := t[|FallbackOpen|..];
    assert u == " \"" + genre + FallbackClose;
    assert SpaceRun(u) == 1 by {
      assert IsSpace(u[0]) && !IsSpace(u[1]);
      assert u[1..][0] == '"';
    }
    var v := u[1..];
    assert v == "\"" + genre + FallbackClose;
    assert v[1..] == genre + FallbackClose;
    QuoteFreeRunOf(genre, FallbackClose);
    assert v[1 + |genre|..] == FallbackClose;
    assert v[1..1 + |genre|] == genre;
  }

  lemma {:induction false} QuoteFreeRunOf(a: string, b: string)
    requires '"' !in a && b != [] && b[0] == '"'
    ensures QuoteFreeRun(a + b) == |a|
  {
    if a != [] {
      assert (a + b)[1..] == a[1..] + b;
      QuoteFreeRunOf(a[1..], b);
    }
  }

  /** No match can start inside text without an opening brace. */
  lemma NoMatchWithoutBrace(s: string, j: nat)
    requires j <= |s|
    requires forall k :: 0 <= k < j ==> s[k] != '{'
    ensures forall k :: 0 <= k < j ==> MatchAt(s, k).None?
  {
    forall k | 0 <= k < j
      ensures MatchAt(s, k).None?
    {
      OpenNeedsBrace(s[k..]);
    }
  }

  /** The pattern opens with a brace. */
  lemma OpenNeedsBrace(t: string)
    requires |t| > 0 && t[0] != '{'
    ensures !StartsWith(t, FallbackOpen)
  {
    if |FallbackOpen| <= |t| {
      assert t[..|FallbackOpen|][0] == t[0];
    }
  }

  /**
   * A reply in the requested format, after any chatter without a brace, is
   * recovered by the fallback extractor.
   */
  lemma FallbackRecoversRenderedReply(lead: string, genre: string)
    requires genre != [] && '"' !in genre
    requires '{' !in lead
    ensures FallbackGenre(lead + RenderReply(genre)) == Some(genre)
  {
    var s := lead + RenderReply(genre);
    MatchAtRendered(lead, genre);
    assert forall k :: 0 <= k < |lead| ==> s[k] == lead[k];
    NoMatchWithoutBrace(s, |lead|);
    SearchSkips(s, 0, |lead|);
  }

  lemma {:induction false} SearchSkips(s: string, i: nat, j: nat)
    requires i <= j <= |s|
    requires forall k :: i <= k < j ==> MatchAt(s, k).None?
    ensures SearchFrom(s, i) == SearchFrom(s, j)
    decreases j - i
  {
    if i < j {
      SearchSkips(s, i + 1, j);
    }
  }

  // ---- the main loop ----

  /** What one cycle of `main` observes: the screenshot, the genre extracted from the model, and whether the POST succeeded. */
  datatype Cycle = Cycle(screenshot: Option<string>, suggested: Option<string>, postSucceeds: bool)

  /** `last_genre` and the genres posted so far (successfully or not). */
  datatype DjState = DjState(lastGenre: Option<string>, posted: seq<string>)

  /** Python's `str` of the optional last genre. */
  function LastGenreText(last: Option<string>): string {
    match last
    case None => "None"
    case Some(g) => g
  }

  /** Whether a cycle goes as far as comparing a suggestion (a falsy screenshot or genre skips it). */
  predicate Proceeds(c: Cycle) {
    c.screenshot.Some? && c.screenshot.value != [] && c.suggested.Some? && c.suggested.value != []
  }

  /** Whether a comparing cycle posts: the suggestion differs, ignoring case, from `str(last_genre)`. */
  predicate Differs(last: Option<string>, genre: string) {
    Lower(genre) != Lower(LastGenreText(last))
  }

  ghost function Step(st: DjState, c: Cycle): DjState {
    if !Proceeds(c) || !Differs(st.lastGenre, c.suggested.value) then st
    else DjState(if c.postSucceeds then Some(c.suggested.value) else st.lastGenre, st.posted + [c.suggested.value])
  }

  ghost function Run(cycles: seq<Cycle>): DjState {
    if cycles == [] then DjState(None, [])
    else Step(Run(cycles[..|cycles| - 1]), cycles[|cycles| - 1])
  }

  /** `main`'s loop over a finite run of cycles, starting with no last genre. */
  method RunCycles(cycles: seq<Cycle>) returns (lastGenre: Option<string>, posted: seq<string>)
    ensures DjState(lastGenre, posted) == Run(cycles)
  {
    lastGenre, posted := None, [];
    var i := 0;
    while i < |cycles|
      invariant 0 <= i <= |cycles|
      invariant DjState(lastGenre, posted) == Run(cycles[..i])
    {
      assert cycles[..i + 1][..i] == cycles[..i];
      var c := cycles[i];
      i := i + 1;
      if c.screenshot.None? || c.screenshot.value == [] {
        continue;
      }
      if c.suggested.None? || c.suggested.value == [] {
        continue;
      }
      var genre := c.suggested.value;
      if Lower(genre) != Lower(LastGenreText(lastGenre)) {
        posted := posted + [genre];
        if c.postSucceeds {
          lastGenre := Some(genre);
        }
      }
    }
    assert cycles[..|cycles|] == cycles;
  }

  /** Because `str(None)` is `"None"`, a first suggestion of "none" in any case is never posted. */
  lemma NoneSuggestionSkippedAtStart(c: Cycle)
    requires Proceeds(c) && Lower(c.suggested.value) == "none"
    ensures Step(DjState(None, []), c) == DjState(None, [])
  {
    assert Lower(LastGenreText(None)) == "none";
  }

  /** A cycle that fails to capture or to get a genre changes nothing. */
  lemma SkippedCycleChangesNothing(st: DjState, c: Cycle)
    requires !Proceeds(c)
    ensures Step(st, c) == st
  {
  }

  /** `last_genre` changes only to a genre whose POST succeeded in that cycle. */
  lemma LastGenreChangesOnlyOnSuccess(st: DjState, c: Cycle)
    ensures Step(st, c).lastGenre != st.lastGenre ==>
      Proceeds(c) && c.postSucceeds && Step(st, c).lastGenre == c.suggested
      && Step(st, c).posted == st.posted + [c.suggested.value]
  {
  }

  /**
   * Over any run: every post is one cycle's suggestion, there is at most one
   * post per cycle, and the last genre is always one that was posted.
   */
  lemma {:induction false} RunInvariant(cycles: seq<Cycle>)
    ensures |Run(cycles).posted| <= |cycles|
    ensures Run(cycles).lastGenre.Some? ==> Run(cycles).lastGenre.value in Run(cycles).posted
    ensures forall p :: p in Run(cycles).posted ==> exists k :: 0 <= k < |cycles| && cycles[k].suggested == Some(p)
  {
    if cycles != [] {
      var init := cycles[..|cycles| - 1];
      RunInvariant(init);
      var c := cycles[|cycles| - 1];
      forall p | p in Run(cycles).posted
        ensures exists k :: 0 <= k < |cycles| && cycles[k].suggested == Some(p)
      {
        if p in Run(init).posted {
          var k :| 0 <= k < |init| && init[k].suggested == Some(p);
          assert cycles[k] == init[k];
        } else {
          assert cycles[|cycles| - 1].suggested == Some(p);
        }
      }
    }
  }

  /** A suggestion equal, ignoring case, to the genre last posted successfully is not posted again. */
  lemma RepeatIsNotPosted(st: DjState, c: Cycle)
    requires Proceeds(c) && st.lastGenre.Some? && Lower(c.suggested.value) == Lower(st.lastGenre.value)
    ensures Step(st, c) == st
  {
  }
}
