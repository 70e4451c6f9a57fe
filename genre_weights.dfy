/**
 * `get_weighted_genre_suggestion`: CPU-weighted votes of the busy processes'
 * genre lists, accumulated into an insertion-ordered dictionary and then
 * normalised to sum to one.
 */
module GenreWeights {
  import opened Wrappers
  import opened GenreMapper

  /** One dictionary entry; a dictionary is a sequence of entries in insertion order. */
  datatype Weight = Weight(genre: string, value: real)

  /** Processes under this CPU share are skipped (but still counted in the total). */
  const MinCpu: real := 1.0

  const AmbientOnly: seq<Weight> := [Weight("ambient", 1.0)]

  /** `sum(p.cpu_percent for p in processes)`. */
  function TotalCpu(ps: seq<ProcessInfo>): real {
    if |ps| == 0 then 0.0 else TotalCpu(ps[..|ps| - 1]) + ps[|ps| - 1].cpuPercent
  }

  function Keys(ws: seq<Weight>): (keys: seq<string>)
    ensures |keys| == |ws| && forall k :: 0 <= k < |ws| ==> keys[k] == ws[k].genre
  {
    seq(|ws|, k requires 0 <= k < |ws| => ws[k].genre)
  }

  /** The set of keys. */
  ghost function KeySet(ws: seq<Weight>): set<string> {
    set k | 0 <= k < |ws| :: ws[k].genre
  }

  /** A dictionary never holds a key twice. */
  predicate DistinctKeys(ws: seq<Weight>) {
    forall i, j :: 0 <= i < j < |ws| ==> ws[i].genre != ws[j].genre
  }

  /** Dictionary lookup: the position of `g`'s entry. */
  function Find(ws: seq<Weight>, g: string): (r: Option<nat>)
    ensures r.Some? ==> r.value < |ws| && ws[r.value].genre == g
    ensures r.None? ==> g !in Keys(ws)
  {
    if |ws| == 0 then None
    else if ws[|ws| - 1].genre == g then Some(|ws| - 1)
    else
      var r := Find(ws[..|ws| - 1], g);
      assert Keys(ws) == Keys(ws[..|ws| - 1]) + [ws[|ws| - 1].genre];
      r
  }

  /** `if genre not in d: d[genre] = 0` then `d[genre] += w`. */
  function AddWeight(ws: seq<Weight>, g: string, w: real): seq<Weight> {
    match Find(ws, g)
    case Some(k) => ws[k := Weight(g, ws[k].value + w)]
    case None => ws + [Weight(g, 0.0 + w)]
  }

  /** The inner loop over one process's genre list. */
  function AddGenres(ws: seq<Weight>, genres: seq<string>, w: real): seq<Weight> {
    if |genres| == 0 then ws
    else AddWeight(AddGenres(ws, genres[..|genres| - 1], w), genres[|genres| - 1], w)
  }

  /** The outer loop: every process with at least `MinCpu` adds `cpu / total` to each of its genres. */
  function Accumulate(table: GenreTable, matches: Matcher, ps: seq<ProcessInfo>, total: real): seq<Weight>
    requires total != 0.0
  {
    if |ps| == 0 then []
    else
      var acc := Accumulate(table, matches, ps[..|ps| - 1], total);
      var p := ps[|ps| - 1];
      if p.cpuPercent < MinCpu then acc
      else AddGenres(acc, GenresFor(table, matches, p), p.cpuPercent / total)
  }

  /** `sum(genre_weights.values())`. */
  function SumValues(ws: seq<Weight>): real {
    if |ws| == 0 then 0.0 else SumValues(ws[..|ws| - 1]) + ws[|ws| - 1].value
  }

  /** `{k: v / s for k, v in genre_weights.items()}`. */
  function Normalise(ws: seq<Weight>, s: real): (r: seq<Weight>)
    requires s != 0.0
    ensures |r| == |ws| && Keys(r) == Keys(ws)
    ensures forall k :: 0 <= k < |ws| ==> r[k].value == ws[k].value / s
  {
    seq(|ws|, k requires 0 <= k < |ws| => Weight(ws[k].genre, ws[k].value / s))
  }

  /** Every value has the strict sign of `sign`. */
  predicate SignedLike(ws: seq<Weight>, sign: real) {
    forall k :: 0 <= k < |ws| ==> (sign > 0.0 ==> ws[k].value > 0.0) && (sign < 0.0 ==> ws[k].value < 0.0)
  }

  lemma AddWeightSigned(ws: seq<Weight>, g: string, w: real, sign: real)
    requires SignedLike(ws, sign)
    requires (sign > 0.0 ==> w > 0.0) && (sign < 0.0 ==> w < 0.0)
    ensures SignedLike(AddWeight(ws, g, w), sign)
  {
  }

  lemma {:induction false} AddGenresSigned(ws: seq<Weight>, genres: seq<string>, w: real, sign: real)
    requires SignedLike(ws, sign)
    requires (sign > 0.0 ==> w > 0.0) && (sign < 0.0 ==> w < 0.0)
    ensures SignedLike(AddGenres(ws, genres, w), sign)
  {
    if |genres| > 0 {
      AddGenresSigned(ws, genres[..|genres| - 1], w, sign);
      AddWeightSigned(AddGenres(ws, genres[..|genres| - 1], w), genres[|genres| - 1], w, sign);
    }
  }

  lemma Quotient(c: real, total: real)
    requires c >= MinCpu && total != 0.0
    ensures (total > 0.0 ==> c / total > 0.0) && (total < 0.0 ==> c / total < 0.0)
  {
  }

  /**
   * Every accumulated weight has the sign of the total: counted processes
   * have at least 1% CPU, so each vote `cpu / total` does.
   */
  lemma {:induction false} AccumulateSigned(table: GenreTable, matches: Matcher, ps: seq<ProcessInfo>, total: real)
    requires total != 0.0
    ensures SignedLike(Accumulate(table, matches, ps, total), total)
  {
    if |ps| > 0 {
      var p := ps[|ps| - 1];
      AccumulateSigned(table, matches, ps[..|ps| - 1], total);
      if p.cpuPercent >= MinCpu {
        Quotient(p.cpuPercent, total);
        AddGenresSigned(Accumulate(table, matches, ps[..|ps| - 1], total), GenresFor(table, matches, p), p.cpuPercent / total, total);
      }
    }
  }

  lemma {:induction false} SumSigned(ws: seq<Weight>, sign: real)
    requires SignedLike(ws, sign) && ws != []
    ensures sign > 0.0 ==> SumValues(ws) > 0.0
    ensures sign < 0.0 ==> SumValues(ws) < 0.0
  {
    if |ws| > 1 {
      SumSigned(ws[..|ws| - 1], sign);
    }
  }

  /** What `get_weighted_genre_suggestion` returns. */
  function WeightedSuggestion(table: GenreTable, matches: Matcher, ps: seq<ProcessInfo>): seq<Weight> {
    var total := TotalCpu(ps);
    if total == 0.0 then AmbientOnly
    else
      var acc := Accumulate(table, matches, ps, total);
      if |acc| == 0 then AmbientOnly
      else
        AccumulateSigned(table, matches, ps, total);
        SumSigned(acc, total);
        Normalise(acc, SumValues(acc))
  }

  lemma FindInAppended(ws: seq<Weight>, g: string)
    requires Find(ws, g).None?
    ensures Find(AddWeight(ws, g, 0.0), g) == Some(|ws|)
  {
  }

  /**
   * The method's two-step dictionary update (insert a zero, then add) is the
   * single `AddWeight`.
   */
  lemma InsertThenAdd(ws: seq<Weight>, g: string, w: real)
    requires Find(ws, g).None?
    ensures (ws + [Weight(g, 0.0)])[|ws| := Weight(g, 0.0 + w)] == AddWeight(ws, g, w)
  {
  }

  /**
   * `get_weighted_genre_suggestion`: sum the CPU shares, return the ambient
   * default for a zero total; otherwise accumulate each busy process's votes
   * into the dictionary, then normalise, or fall back to the ambient default
   * when nothing was accumulated.
   */
  method GetWeightedGenreSuggestion(table: GenreTable, matches: Matcher, ps: seq<ProcessInfo>) returns (weights: seq<Weight>)
    ensures weights == WeightedSuggestion(table, matches, ps)
  {
    var total := SumCpu(ps);
    if total == 0.0 {
      return AmbientOnly;
    }
    var acc := CollectVotes(table, matches, ps, total);
    if |acc| == 0 {
      return AmbientOnly;
    }
    AccumulateSigned(table, matches, ps, total);
    SumSigned(acc, total);
    weights := Normalise(acc, SumValues(acc));
  }

  /** `total_cpu = sum(p.cpu_percent for p in processes)`. */
  method SumCpu(ps: seq<ProcessInfo>) returns (total: real)
    ensures total == TotalCpu(ps)
  {
    total := 0.0;
    for i := 0 to |ps|
      invariant total == TotalCpu(ps[..i])
    {
      assert ps[..i + 1][..i] == ps[..i];
      total := total + ps[i].cpuPercent;
    }
    assert ps[..|ps|] == ps;
  }

  /** The loop over processes, filling `genre_weights`. */
  method CollectVotes(table: GenreTable, matches: Matcher, ps: seq<ProcessInfo>, total: real) returns (acc: seq<Weight>)
    requires total != 0.0
    ensures acc == Accumulate(table, matches, ps, total)
  {
    acc := [];
    for i := 0 to |ps|
      invariant acc == Accumulate(table, matches, ps[..i], total)
    {
      var p := ps[i];
      assert ps[..i + 1][..i] == ps[..i];
      if p.cpuPercent < MinCpu {
        continue;
      }
      var genres := GetGenreForProcess(table, matches, p);
      acc := Vote(acc, genres, p.cpuPercent / total);
    }
    assert ps[..|ps|] == ps;
  }

  /** The loop over one process's genres: insert a zero for a new genre, then add the weight. */
  method Vote(ws: seq<Weight>, genres: seq<string>, w: real) returns (acc: seq<Weight>)
    ensures acc == AddGenres(ws, genres, w)
  {
    acc := ws;
    for j := 0 to |genres|
      invariant acc == AddGenres(ws, genres[..j], w)
    {
      var g := genres[j];
      assert genres[..j + 1][..j] == genres[..j];
      var found := Find(acc, g);
      if found.None? {
        InsertThenAdd(acc, g, w);
        acc := acc + [Weight(g, 0.0)];
        found := Some(|acc| - 1);
      }
      acc := acc[found.value := Weight(g, acc[found.value].value + w)];
    }
    assert genres[..|genres|] == genres;
  }

  // ---- properties of the result ----

  lemma {:induction false} SumOfNormalised(ws: seq<Weight>, s: real)
    requires s != 0.0
    ensures SumValues(Normalise(ws, s)) == SumValues(ws) / s
  {
    if |ws| > 0 {
      var n := Normalise(ws, s);
      assert Normalise(ws, s)[..|ws| - 1] == Normalise(ws[..|ws| - 1], s);
      SumOfNormalised(ws[..|ws| - 1], s);
      assert SumValues(n) == SumValues(ws[..|ws| - 1]) / s + ws[|ws| - 1].value / s;
    }
  }

  lemma SameSignQuotient(a: real, s: real)
    requires (a > 0.0 && s > 0.0) || (a < 0.0 && s < 0.0)
    ensures a / s > 0.0
  {
  }

  lemma SelfQuotient(s: real)
    requires s != 0.0
    ensures s / s == 1.0
  {
  }

  /** Every weight is positive and the weights sum to one, whatever the CPU figures. */
  lemma WeightsAreADistribution(table: GenreTable, matches: Matcher, ps: seq<ProcessInfo>)
    ensures var r := WeightedSuggestion(table, matches, ps);
      && r != []
      && (forall k :: 0 <= k < |r| ==> r[k].value > 0.0)
      && SumValues(r) == 1.0
  {
    var total := TotalCpu(ps);
    if total == 0.0 {
      assert AmbientOnly[..0] == [];
    } else {
      var acc := Accumulate(table, matches, ps, total);
      if |acc| == 0 {
        assert AmbientOnly[..0] == [];
      } else {
        AccumulateSigned(table, matches, ps, total);
        SumSigned(acc, total);
        var s := SumValues(acc);
        SumOfNormalised(acc, s);
        var r := Normalise(acc, s);
        forall k | 0 <= k < |r|
          ensures r[k].value > 0.0
        {
          SameSignQuotient(acc[k].value, s);
        }
        SelfQuotient(s);
      }
    }
  }

  /** With a zero total, or no process at 1% CPU or more, the result is exactly `{'ambient': 1.0}`. */
  lemma {:induction false} AmbientWhenIdle(table: GenreTable, matches: Matcher, ps: seq<ProcessInfo>)
    requires TotalCpu(ps) == 0.0 || forall k :: 0 <= k < |ps| ==> ps[k].cpuPercent < MinCpu
    ensures WeightedSuggestion(table, matches, ps) == AmbientOnly
  {
    var total := TotalCpu(ps);
    if total != 0.0 {
      NothingAccumulated(table, matches, ps, total);
    }
  }

  lemma {:induction false} NothingAccumulated(table: GenreTable, matches: Matcher, ps: seq<ProcessInfo>, total: real)
    requires total != 0.0
    requires forall k :: 0 <= k < |ps| ==> ps[k].cpuPercent < MinCpu
    ensures Accumulate(table, matches, ps, total) == []
  {
    if |ps| > 0 {
      NothingAccumulated(table, matches, ps[..|ps| - 1], total);
    }
  }

  // ---- the keys ----

  /** The genres voted for: all genres of the processes with at least `MinCpu`. */
  ghost function VotedGenres(table: GenreTable, matches: Matcher, ps: seq<ProcessInfo>): set<string> {
    set k, g | 0 <= k < |ps| && ps[k].cpuPercent >= MinCpu && g in GenresFor(table, matches, ps[k]) :: g
  }

  lemma AddWeightKeys(ws: seq<Weight>, g: string, w: real)
    requires DistinctKeys(ws)
    ensures DistinctKeys(AddWeight(ws, g, w))
    ensures KeySet(AddWeight(ws, g, w)) == KeySet(ws) + {g}
  {
    var r := AddWeight(ws, g, w);
    if Find(ws, g).None? {
      assert r == ws + [Weight(g, 0.0 + w)];
      assert forall k :: 0 <= k < |ws| ==> Keys(ws)[k] == ws[k].genre != g;
      assert forall k :: 0 <= k < |ws| ==> r[k] == ws[k];
      assert r[|ws|].genre == g;
    } else {
      var i := Find(ws, g).value;
      assert forall k :: 0 <= k < |ws| ==> r[k].genre == ws[k].genre;
      assert |r| == |ws|;
      assert g in KeySet(ws) by { assert ws[i].genre == g; }
    }
  }

  lemma {:induction false} AddGenresKeys(ws: seq<Weight>, genres: seq<string>, w: real)
    requires DistinctKeys(ws)
    ensures DistinctKeys(AddGenres(ws, genres, w))
    ensures KeySet(AddGenres(ws, genres, w)) == KeySet(ws) + (set g | g in genres)
  {
    if |genres| > 0 {
      var init := genres[..|genres| - 1];
      var last := genres[|genres| - 1];
      var before := AddGenres(ws, init, w);
      AddGenresKeys(ws, init, w);
      AddWeightKeys(before, last, w);
      assert AddGenres(ws, genres, w) == AddWeight(before, last, w);
      ElementsSnoc(genres, init, last);
    }
  }

  lemma ElementsSnoc(s: seq<string>, init: seq<string>, last: string)
    requires s == init + [last]
    ensures (set g | g in s) == (set g | g in init) + {last}
  {
  }

  lemma {:induction false} AccumulateKeys(table: GenreTable, matches: Matcher, ps: seq<ProcessInfo>, total: real)
    requires total != 0.0
    ensures var acc := Accumulate(table, matches, ps, total);
      && DistinctKeys(acc)
      && KeySet(acc) == VotedGenres(table, matches, ps)
  {
    if |ps| > 0 {
      var init := ps[..|ps| - 1];
      var p := ps[|ps| - 1];
      AccumulateKeys(table, matches, init, total);
      var before := Accumulate(table, matches, init, total);
      var gs := GenresFor(table, matches, p);
      if p.cpuPercent >= MinCpu {
        AddGenresKeys(before, gs, p.cpuPercent / total);
      }
      assert forall k :: 0 <= k < |init| ==> ps[k] == init[k];
      VotedSplit(table, matches, ps);
    }
  }

  lemma VotedSplit(table: GenreTable, matches: Matcher, ps: seq<ProcessInfo>)
    requires ps != []
    ensures var p := ps[|ps| - 1];
      VotedGenres(table, matches, ps)
      == VotedGenres(table, matches, ps[..|ps| - 1])
         + (if p.cpuPercent >= MinCpu then set g | g in GenresFor(table, matches, p) else {})
  {
    var init := ps[..|ps| - 1];
    assert forall k :: 0 <= k < |init| ==> ps[k] == init[k];
  }

  /**
   * When the total is non-zero and some vote was cast, the keys of the result
   * are exactly the voted genres, each once.
   */
  lemma KeysAreVotedGenres(table: GenreTable, matches: Matcher, ps: seq<ProcessInfo>)
    requires TotalCpu(ps) != 0.0 && Accumulate(table, matches, ps, TotalCpu(ps)) != []
    ensures var r := WeightedSuggestion(table, matches, ps);
      DistinctKeys(r) && KeySet(r) == VotedGenres(table, matches, ps)
  {
    var total := TotalCpu(ps);
    var acc := Accumulate(table, matches, ps, total);
    AccumulateKeys(table, matches, ps, total);
    var r := WeightedSuggestion(table, matches, ps);
    assert forall k :: 0 <= k < |r| ==> r[k].genre == acc[k].genre by {
      AccumulateSigned(table, matches, ps, total);
      SumSigned(acc, total);
      assert Keys(r) == Keys(acc);
    }
  }

  // ---- the denominator ----

  /** `a` is `b` with every value divided by `t`. */
  predicate ScaledBy(a: seq<Weight>, b: seq<Weight>, t: real)
    requires t != 0.0
  {
    |a| == |b| && forall k :: 0 <= k < |a| ==> a[k].genre == b[k].genre && a[k].value == b[k].value / t
  }

  lemma {:induction false} FindByKeys(a: seq<Weight>, b: seq<Weight>, g: string)
    requires |a| == |b| && forall k :: 0 <= k < |a| ==> a[k].genre == b[k].genre
    ensures Find(a, g) == Find(b, g)
  {
    if |a| > 0 {
      FindByKeys(a[..|a| - 1], b[..|b| - 1], g);
    }
  }

  lemma DivisionDistributes(x: real, y: real, t: real)
    requires t != 0.0
    ensures x / t + y / t == (x + y) / t
  {
  }

  lemma AddWeightScaled(a: seq<Weight>, b: seq<Weight>, g: string, w: real, t: real)
    requires t != 0.0 && ScaledBy(a, b, t)
    ensures ScaledBy(AddWeight(a, g, w / t), AddWeight(b, g, w), t)
  {
    FindByKeys(a, b, g);
    match Find(b, g)
    case Some(i) =>
      DivisionDistributes(b[i].value, w, t);
    case None =>
      DivisionDistributes(0.0, w, t);
  }

  lemma {:induction false} AddGenresScaled(a: seq<Weight>, b: seq<Weight>, genres: seq<string>, w: real, t: real)
    requires t != 0.0 && ScaledBy(a, b, t)
    ensures ScaledBy(AddGenres(a, genres, w / t), AddGenres(b, genres, w), t)
  {
    if |genres| > 0 {
      var init := genres[..|genres| - 1];
      AddGenresScaled(a, b, init, w, t);
      AddWeightScaled(AddGenres(a, init, w / t), AddGenres(b, init, w), genres[|genres| - 1], w, t);
    }
  }

  /**
   * The pre-normalisation weights are the raw CPU sums of each genre divided
   * by `total`, the full CPU total including the skipped processes.
   */
  lemma {:induction false} AccumulateIsRawOverTotal(table: GenreTable, matches: Matcher, ps: seq<ProcessInfo>, total: real)
    requires total != 0.0
    ensures ScaledBy(Accumulate(table, matches, ps, total), Accumulate(table, matches, ps, 1.0), total)
  {
    if |ps| > 0 {
      var init := ps[..|ps| - 1];
      var p := ps[|ps| - 1];
      AccumulateIsRawOverTotal(table, matches, init, total);
      if p.cpuPercent >= MinCpu {
        assert p.cpuPercent / 1.0 == p.cpuPercent;
        AddGenresScaled(Accumulate(table, matches, init, total), Accumulate(table, matches, init, 1.0),
                        GenresFor(table, matches, p), p.cpuPercent, total);
      }
    }
  }

  lemma {:induction false} SumScaled(a: seq<Weight>, b: seq<Weight>, t: real)
    requires t != 0.0 && ScaledBy(a, b, t)
    ensures SumValues(a) == SumValues(b) / t
  {
    if |a| > 0 {
      SumScaled(a[..|a| - 1], b[..|b| - 1], t);
      DivisionDistributes(SumValues(b[..|b| - 1]), b[|b| - 1].value, t);
    }
  }

  lemma QuotientOfQuotients(x: real, s: real, t: real)
    requires s != 0.0 && t != 0.0
    ensures (x / t) / (s / t) == x / s
  {
  }

  /**
   * Which processes the denominator counts does not matter in the end: the
   * normalised result is the raw CPU sums over their own sum, for any non-zero
   * total, so the skipped processes in `total_cpu` cancel out.
   */
  lemma NormalisedIgnoresTotal(table: GenreTable, matches: Matcher, ps: seq<ProcessInfo>)
    requires TotalCpu(ps) != 0.0 && Accumulate(table, matches, ps, TotalCpu(ps)) != []
    ensures var raw := Accumulate(table, matches, ps, 1.0);
      var r := WeightedSuggestion(table, matches, ps);
      && |r| == |raw| && SumValues(raw) != 0.0
      && forall k :: 0 <= k < |r| ==> r[k].genre == raw[k].genre && r[k].value == raw[k].value / SumValues(raw)
  {
    var total := TotalCpu(ps);
    var acc := Accumulate(table, matches, ps, total);
    var raw := Accumulate(table, matches, ps, 1.0);
    AccumulateIsRawOverTotal(table, matches, ps, total);
    AccumulateSigned(table, matches, ps, total);
    SumSigned(acc, total);
    SumScaled(acc, raw, total);
    var s := SumValues(raw);
    assert s != 0.0 by {
      assert SumValues(acc) == s / total;
    }
    var r := WeightedSuggestion(table, matches, ps);
    forall k | 0 <= k < |r|
      ensures r[k].value == raw[k].value / s
    {
      QuotientOfQuotients(raw[k].value, s, total);
    }
  }
}
