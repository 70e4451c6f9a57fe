/**
 * `ProcessGenreMapper`: an ordered table of regex rules from process names and
 * commands to genre lists, searched first-match-first.
 */
module GenreMapper {
  import opened Wrappers
  import opened Text

  /** A `ps` row: the process name, its CPU and memory shares, its pid and its full command. */
  datatype ProcessInfo = ProcessInfo(name: string, cpuPercent: real, memoryPercent: real, pid: int, command: string)

  /** One `|`-separated alternative of a rule pattern: literal segments joined by `.*`. */
  type Alternative = seq<string>

  /** A rule pattern: its alternatives in order. */
  type Pattern = seq<Alternative>

  /** `re.search(pattern, text) is not None`. */
  type Matcher = (Pattern, string) -> bool

  datatype Rule = Rule(pattern: Pattern, genres: seq<string>)

  /** The mapper's state: the rules in dictionary (insertion) order and the fallback list. */
  datatype GenreTable = GenreTable(rules: seq<Rule>, fallback: seq<string>)

  // ---- the regex fragment the table uses: literals, `.*` and `|` ----

  predicate OccursAt(segment: string, text: string, i: nat) {
    i + |segment| <= |text| && text[i..i + |segment|] == segment
  }

  predicate NoNewline(s: string) {
    '\n' !in s
  }

  /** The remaining segments occur in order, each gap free of newlines (`.` does not match `\n`). */
  predicate SegmentsFollow(segments: seq<string>, rest: string)
    decreases |segments|
  {
    segments == [] ||
    exists j :: 0 <= j <= |rest| && OccursAt(segments[0], rest, j) && NoNewline(rest[..j])
      && SegmentsFollow(segments[1..], rest[j + |segments[0]|..])
  }

  /** `re.search` for one alternative: its first segment occurs anywhere, the rest follow it. */
  predicate AlternativeSearch(alt: Alternative, text: string) {
    alt == [] ||
    exists i :: 0 <= i <= |text| && OccursAt(alt[0], text, i) && SegmentsFollow(alt[1..], text[i + |alt[0]|..])
  }

  /** `re.search` for a whole pattern: some alternative matches. */
  predicate Search(p: Pattern, text: string) {
    exists a :: 0 <= a < |p| && AlternativeSearch(p[a], text)
  }

  const ScientificRule: nat := 9

  /** The rule table of `ProcessGenreMapper.__init__`, in order. */
  const DefaultRules: seq<Rule> := [
    Rule([["code"], ["vscode"], ["vim"], ["emacs"], ["atom"], ["sublime"], ["intellij"], ["pycharm"], ["webstorm"]],
         ["lo-fi hip hop", "ambient", "electronic", "jazz"]),
    Rule([["python"], ["node"], ["java"], ["gcc"], ["make"], ["cmake"], ["git"]],
         ["coding beats", "lo-fi", "ambient electronic"]),
    Rule([["docker"], ["kubernetes"], ["kubectl"]],
         ["techno", "electronic", "cyberpunk"]),
    Rule([["steam"], ["game"], ["unity"], ["unreal"], ["minecraft"], ["wow"], ["cs2"], ["dota"]],
         ["epic orchestral", "video game music", "electronic rock"]),
    Rule([["firefox"], ["chrome"], ["chromium"], ["brave"], ["safari"], ["edge"]],
         ["pop", "indie", "acoustic", "chill"]),
    Rule([["vlc"], ["mpv"], ["spotify"], ["youtube"], ["netflix"], ["obs"], ["kdenlive"], ["gimp"], ["blender"], ["photoshop"]],
         ["cinematic", "soundtrack", "ambient", "creative"]),
    Rule([["audacity"], ["reaper"], ["fl", "studio"], ["ableton"], ["cubase"]],
         ["experimental", "electronic", "ambient"]),
    Rule([["bash"], ["zsh"], ["fish"], ["terminal"], ["gnome-terminal"], ["konsole"], ["htop"], ["top"]],
         ["cyberpunk", "synthwave", "dark ambient"]),
    Rule([["discord"], ["slack"], ["teams"], ["zoom"], ["skype"], ["telegram"], ["whatsapp"]],
         ["upbeat", "pop", "indie pop", "cheerful"]),
    Rule([["jupyter"], ["matlab"], ["r"], ["rstudio"], ["mathematica"], ["sage"]],
         ["classical", "minimalist", "focus music"]),
    Rule([["python", "tensorflow"], ["pytorch"], ["cuda"], ["nvidia"]],
         ["futuristic", "synthwave", "electronic", "ambient techno"]),
    Rule([["mysql"], ["postgres"], ["mongodb"], ["redis"], ["elasticsearch"]],
         ["minimal techno", "ambient", "downtempo"]),
    Rule([["virtualbox"], ["vmware"], ["qemu"]],
         ["trance", "electronic", "synthwave"]),
    Rule([["apache"], ["nginx"], ["httpd"]],
         ["elevator music", "background"]),
    Rule([["systemd"], ["init"], ["kernel"]],
         ["dark ambient", "drone"])
  ]

  const DefaultFallback: seq<string> := ["ambient", "lo-fi", "chill", "background music"]

  const DefaultTable: GenreTable := GenreTable(DefaultRules, DefaultFallback)

  /**
   * The default table has fifteen rules; every rule has at least one
   * alternative and at least one genre; the scientific rule suggests focus music.
   */
  lemma DefaultTableShape()
    ensures |DefaultRules| == 15 && ScientificRule < |DefaultRules|
    ensures forall i :: 0 <= i < |DefaultRules| ==> |DefaultRules[i].pattern| > 0 && |DefaultRules[i].genres| > 0
    ensures DefaultRules[ScientificRule].genres == ["classical", "minimalist", "focus music"]
    ensures DefaultFallback == ["ambient", "lo-fi", "chill", "background music"]
  {
  }

  const CodingRule: nat := 1
  const MachineLearningRule: nat := 10

  /**
   * The `python.*tensorflow` alternative of the machine-learning rule can never
   * decide a process: any text it matches contains `python`, which the earlier
   * coding rule already catches.
   */
  lemma PythonShadowsTensorflow(p: ProcessInfo)
    requires AlternativeSearch(DefaultRules[MachineLearningRule].pattern[0], Lower(p.name))
      || AlternativeSearch(DefaultRules[MachineLearningRule].pattern[0], Lower(p.command))
    ensures var hit := FirstHit(DefaultRules, Search, Lower(p.name), Lower(p.command));
      hit.Some? && hit.value <= CodingRule
  {
    var name, command := Lower(p.name), Lower(p.command);
    if AlternativeSearch(DefaultRules[MachineLearningRule].pattern[0], name) {
      PythonCaught(name);
    } else {
      PythonCaught(command);
    }
    assert RuleHits(DefaultRules[CodingRule], Search, name, command);
  }

  lemma PythonCaught(text: string)
    requires AlternativeSearch(["python", "tensorflow"], text)
    ensures Search(DefaultRules[CodingRule].pattern, text)
  {
    var i :| 0 <= i <= |text| && OccursAt("python", text, i) && SegmentsFollow(["tensorflow"], text[i + 6..]);
    var alt := DefaultRules[CodingRule].pattern[0];
    assert alt == ["python"] && alt[1..] == [];
    assert SegmentsFollow(alt[1..], text[i + 6..]);
    assert AlternativeSearch(alt, text);
  }

  /** The alternative `r` of the scientific rule matches any text containing the letter r. */
  lemma AnyRMatchesScientific(text: string)
    requires 'r' in text
    ensures Search(DefaultRules[ScientificRule].pattern, text)
  {
    var i :| 0 <= i < |text| && text[i] == 'r';
    var p := DefaultRules[ScientificRule].pattern;
    assert p[2] == ["r"];
    assert text[i..i + 1] == "r";
    assert OccursAt("r", text, i);
    assert p[2][0] == "r" && p[2][1..] == [];
    assert SegmentsFollow(p[2][1..], text[i + 1..]);
    assert AlternativeSearch(p[2], text);
  }

  // ---- first match ----

  /** The rule is hit by the lowercased name or the lowercased command. */
  predicate RuleHits(r: Rule, matches: Matcher, name: string, command: string) {
    matches(r.pattern, name) || matches(r.pattern, command)
  }

  /** The position of the first rule at or after `from` that is hit. */
  function FirstHitFrom(rules: seq<Rule>, from: nat, matches: Matcher, name: string, command: string): (r: Option<nat>)
    requires from <= |rules|
    ensures r.Some? ==> from <= r.value < |rules| && RuleHits(rules[r.value], matches, name, command)
    ensures r.Some? ==> forall j :: from <= j < r.value ==> !RuleHits(rules[j], matches, name, command)
    ensures r.None? ==> forall j :: from <= j < |rules| ==> !RuleHits(rules[j], matches, name, command)
    decreases |rules| - from
  {
    if from == |rules| then None
    else if RuleHits(rules[from], matches, name, command) then Some(from)
    else FirstHitFrom(rules, from + 1, matches, name, command)
  }

  function FirstHit(rules: seq<Rule>, matches: Matcher, name: string, command: string): Option<nat> {
    FirstHitFrom(rules, 0, matches, name, command)
  }

  /** What `get_genre_for_process` returns: the first hit rule's genres, else the fallback list. */
  function GenresFor(table: GenreTable, matches: Matcher, p: ProcessInfo): seq<string> {
    var hit := FirstHit(table.rules, matches, Lower(p.name), Lower(p.command));
    if hit.Some? then table.rules[hit.value].genres else table.fallback
  }

  /**
   * `get_genre_for_process`: lowercase name and command, scan the rules in
   * order and return the genres of the first one whose pattern is found in
   * either; the fallback list when none is.
   */
  method GetGenreForProcess(table: GenreTable, matches: Matcher, p: ProcessInfo) returns (genres: seq<string>)
    ensures genres == GenresFor(table, matches, p)
    ensures (exists j :: 0 <= j < |table.rules| && RuleHits(table.rules[j], matches, Lower(p.name), Lower(p.command)))
            || genres == table.fallback
  {
    var name := Lower(p.name);
    var command := Lower(p.command);
    for i := 0 to |table.rules|
      invariant FirstHit(table.rules, matches, name, command) == FirstHitFrom(table.rules, i, matches, name, command)
    {
      var rule := table.rules[i];
      if matches(rule.pattern, name) || matches(rule.pattern, command) {
        return rule.genres;
      }
    }
    return table.fallback;
  }

  /**
   * With the default table, a process whose lowercased name or command
   * contains an `r` never reaches the fallback: at the latest the scientific
   * rule catches it.
   */
  lemma NoFallbackWithR(p: ProcessInfo)
    requires 'r' in Lower(p.name) || 'r' in Lower(p.command)
    ensures var hit := FirstHit(DefaultRules, Search, Lower(p.name), Lower(p.command));
      hit.Some? && hit.value <= ScientificRule
  {
    var name, command := Lower(p.name), Lower(p.command);
    if 'r' in name {
      AnyRMatchesScientific(name);
    } else {
      AnyRMatchesScientific(command);
    }
    assert RuleHits(DefaultRules[ScientificRule], Search, name, command);
  }
}
