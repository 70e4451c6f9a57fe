/**
 * `MusicGenreSuggester.get_current_music_suggestion`: the primary genre, the
 * weights, and the summaries of the top processes.
 */
module Suggester {
  import opened Wrappers
  import opened GenreMapper
  import opened GenreWeights

  /** The displayed command is cut to this many characters. */
  const CommandWidth: nat := 50

  /** How many processes appear under `all_processes`. */
  const SummaryCount: nat := 3

  datatype TopProcess = TopProcess(name: string, cpuPercent: real, command: string)
  datatype ProcessSummary = ProcessSummary(name: string, cpuPercent: real, suggestedGenres: seq<string>)

  /** The `reasoning` text, before formatting. */
  datatype Reasoning = NoActiveProcesses | BasedOn(name: string, cpuPercent: real)

  /** What `get_system_load` reported; passed through unchanged. */
  datatype SystemLoad = SystemLoad(oneMinute: real, fiveMinutes: real, fifteenMinutes: real)

  /** The suggestion dictionary; `allProcesses` is `None` where the key is absent. */
  datatype Suggestion = Suggestion(
    primaryGenre: string,
    genres: seq<Weight>,
    reasoning: Reasoning,
    topProcess: Option<TopProcess>,
    systemLoad: SystemLoad,
    allProcesses: Option<seq<ProcessSummary>>)

  /** `command[:50] + '...' if len(command) > 50 else command`. */
  function DisplayCommand(command: string): (shown: string)
    ensures |command| <= CommandWidth ==> shown == command
    ensures |command| > CommandWidth ==> |shown| == CommandWidth + 3 && shown[..CommandWidth] == command[..CommandWidth]
    ensures |command| > CommandWidth ==> shown[CommandWidth..] == "..."
    ensures |shown| <= CommandWidth + 3
  {
    if |command| > CommandWidth then command[..CommandWidth] + "..." else command
  }

  /**
   * `max(genre_weights.items(), key=lambda x: x[1])`: the position of the first
   * entry of maximal weight.
   */
  method FirstMaximum(ws: seq<Weight>) returns (best: nat)
    requires ws != []
    ensures best < |ws|
    ensures forall k :: 0 <= k < |ws| ==> ws[k].value <= ws[best].value
    ensures forall k :: 0 <= k < best ==> ws[k].value < ws[best].value
  {
    best := 0;
    for i := 1 to |ws|
      invariant best < i
      invariant forall k :: 0 <= k < i ==> ws[k].value <= ws[best].value
      invariant forall k :: 0 <= k < best ==> ws[k].value < ws[best].value
    {
      if ws[i].value > ws[best].value {
        best := i;
      }
    }
  }

  /** The `all_processes` comprehension over `processes[:3]`. */
  function Summaries(table: GenreTable, matches: Matcher, ps: seq<ProcessInfo>): (r: seq<ProcessSummary>)
    ensures |r| <= SummaryCount && |r| <= |ps|
    ensures forall k :: 0 <= k < |r| ==>
      r[k] == ProcessSummary(ps[k].name, ps[k].cpuPercent, GenresFor(table, matches, ps[k]))
  {
    var shown := if |ps| < SummaryCount then ps else ps[..SummaryCount];
    seq(|shown|, k requires 0 <= k < |shown| =>
      ProcessSummary(shown[k].name, shown[k].cpuPercent, GenresFor(table, matches, shown[k])))
  }

  /**
   * `get_current_music_suggestion`, given the top processes (`limit=5`) and the
   * system load. With no processes the suggestion is plain ambient; otherwise
   * the primary genre is a first key of maximal weight and the top process is
   * the first one listed.
   */
  method GetCurrentMusicSuggestion(table: GenreTable, matches: Matcher, processes: seq<ProcessInfo>, load: SystemLoad)
    returns (s: Suggestion)
    ensures processes == [] ==> s == Suggestion("ambient", AmbientOnly, NoActiveProcesses, None, load, None)
    ensures processes != [] ==>
      var top := processes[0];
      && s.genres == WeightedSuggestion(table, matches, processes)
      && s.reasoning == BasedOn(top.name, top.cpuPercent)
      && s.topProcess == Some(TopProcess(top.name, top.cpuPercent, DisplayCommand(top.command)))
      && s.systemLoad == load
      && s.allProcesses == Some(Summaries(table, matches, processes))
    ensures processes != [] ==>
      exists b :: (0 <= b < |s.genres| && s.genres[b].genre == s.primaryGenre
        && (forall k :: 0 <= k < |s.genres| ==> s.genres[k].value <= s.genres[b].value)
        && (forall k :: 0 <= k < b ==> s.genres[k].value < s.genres[b].value))
  {
    if processes == [] {
      return Suggestion("ambient", AmbientOnly, NoActiveProcesses, None, load, None);
    }
    var weights := GetWeightedGenreSuggestion(table, matches, processes);
    WeightsAreADistribution(table, matches, processes);
    var b := FirstMaximum(weights);
    var top := processes[0];
    s := Suggestion(weights[b].genre, weights, BasedOn(top.name, top.cpuPercent),
                    Some(TopProcess(top.name, top.cpuPercent, DisplayCommand(top.command))),
                    load, Some(Summaries(table, matches, processes)));
  }

  /** The primary genre always carries positive weight: the weights form a distribution. */
  lemma PrimaryGenreIsWeighted(table: GenreTable, matches: Matcher, processes: seq<ProcessInfo>, b: nat)
    requires processes != []
    requires var ws := WeightedSuggestion(table, matches, processes);
      b < |ws| && forall k :: 0 <= k < |ws| ==> ws[k].value <= ws[b].value
    ensures WeightedSuggestion(table, matches, processes)[b].value > 0.0
  {
    WeightsAreADistribution(table, matches, processes);
  }
}
