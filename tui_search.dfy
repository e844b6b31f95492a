/*
 * The terminal UI's fuzzy command search (internal/tui/model.go): the score of one string
 * against a filter, the score of a command, and the filtered, score-ordered command list.
 * Strings are sequences of runes, as the Go code converts them with []rune.
 */
module TuiSearch {
  import opened Text
  import Core
  import Registry

  // ---------------------------------------------------------------- string score

  /**
   * The state of the left-to-right scan: filter runes matched so far, the running score,
   * the consecutive bonus and the positions of the matches.
   */
  datatype Scan = Scan(matched: nat, score: int, bonus: int, positions: seq<nat>)

  const StartScan := Scan(0, 0, 0, [])

  /**
   * One rune of the scan. A rune equal to the next unmatched filter rune is a match worth 10,
   * plus a consecutive bonus (grown by 5) when the previous string rune equals the previous
   * filter rune, plus 8 at the start of the string or after ' ' or '-'. A match that is not
   * consecutive resets the bonus.
   */
  function Step(str: string, filter: string, i: nat, st: Scan): Scan
    requires i < |str|
  {
    if st.matched < |filter| && str[i] == filter[st.matched] then
      var consecutive := st.matched > 0 && i > 0 && str[i - 1] == filter[st.matched - 1];
      var bonus := if consecutive then st.bonus + 5 else 0;
      var wordStart := i == 0 || str[i - 1] == ' ' || str[i - 1] == '-';
      Scan(st.matched + 1,
           st.score + 10 + (if consecutive then bonus else 0) + (if wordStart then 8 else 0),
           bonus, st.positions + [i])
    else st
  }

  /** The scan of the runes from position `i` on, starting in state `st`. */
  function ScanFrom(str: string, filter: string, i: nat, st: Scan): Scan
    requires i <= |str|
    decreases |str| - i
  {
    if i == |str| then st else ScanFrom(str, filter, i + 1, Step(str, filter, i, st))
  }

  function Sum(xs: seq<nat>): nat {
    if xs == [] then 0 else Sum(xs[..|xs| - 1]) + xs[|xs| - 1]
  }

  /** Up to 50 points for matches that occur early on average (all operands are non-negative). */
  function PositionBonus(positions: seq<nat>, length: nat): int {
    if |positions| > 0 && length > 0 then
      var avgPos := Sum(positions) / |positions|;
      var b := 50 - avgPos * 50 / length;
      if b < 0 then 0 else b
    else 0
  }

  /** Up to 25 points for matches that lie close together, when there are at least two. */
  function CompactnessBonus(positions: seq<nat>, length: nat): int {
    if |positions| > 1 && length > 0 then
      var span := positions[|positions| - 1] as int - positions[0] as int + 1;
      var b := 25 - span * 25 / length;
      if b < 0 then 0 else b
    else 0
  }

  /** fuzzyMatchStringScore as a function: 0 for an empty filter or an incomplete match. */
  function StringScore(str: string, filter: string): int {
    if filter == [] then 0
    else
      var st := ScanFrom(str, filter, 0, StartScan);
      if st.matched == |filter| then
        st.score + PositionBonus(st.positions, |str|) + CompactnessBonus(st.positions, |str|)
      else 0
  }

  /** The filter's runes occur in the string in order, not necessarily next to each other. */
  predicate Embeds(f: string, s: string)
    decreases |s|
  {
    f == [] || (s != [] && ((f[0] == s[0] && Embeds(f[1..], s[1..])) || Embeds(f, s[1..])))
  }

  /** What the scan keeps true: match count, positions in increasing order before `i`, score floor. */
  predicate ScanInv(filter: string, i: nat, st: Scan) {
    st.matched <= |filter| && |st.positions| == st.matched
    && st.score >= 10 * st.matched && st.bonus >= 0
    && (forall k :: 0 <= k < |st.positions| ==> st.positions[k] < i)
    && (forall k, l :: 0 <= k < l < |st.positions| ==> st.positions[k] < st.positions[l])
  }

  lemma {:induction false} ScanFromInv(str: string, filter: string, i: nat, st: Scan)
    requires i <= |str| && ScanInv(filter, i, st)
    ensures ScanInv(filter, |str|, ScanFrom(str, filter, i, st))
    decreases |str| - i
  {
    if i < |str| {
      ScanFromInv(str, filter, i + 1, Step(str, filter, i, st));
    }
  }

  /** A prefix of the filter can be dropped from an embedding. */
  lemma {:induction false} EmbedsDropFirst(f: string, s: string)
    requires f != [] && Embeds(f, s)
    ensures Embeds(f[1..], s)
    decreases |s|
  {
    if !(f[0] == s[0] && Embeds(f[1..], s[1..])) {
      EmbedsDropFirst(f, s[1..]);
    }
  }

  /**
   * Greedy matching is complete: the scan from `i` matches the rest of the filter exactly
   * when the rest of the filter embeds in the rest of the string.
   */
  lemma {:induction false} ScanMatchesAll(str: string, filter: string, i: nat, st: Scan)
    requires i <= |str| && st.matched <= |filter|
    ensures ScanFrom(str, filter, i, st).matched == |filter| <==> Embeds(filter[st.matched..], str[i..])
    decreases |str| - i
  {
    if i < |str| {
      var next := Step(str, filter, i, st);
      ScanMatchesAll(str, filter, i + 1, next);
      var f := filter[st.matched..];
      assert str[i..][1..] == str[i + 1..];
      if st.matched < |filter| && str[i] == filter[st.matched] {
        assert f[1..] == filter[st.matched + 1..];
        if Embeds(f, str[i + 1..]) {
          EmbedsDropFirst(f, str[i + 1..]);
        }
      }
    }
  }

  /**
   * The string score is positive exactly when the filter is non-empty and embeds in the
   * string; a positive score is at least 10 per filter rune, and never negative.
   */
  lemma StringScorePositive(str: string, filter: string)
    ensures StringScore(str, filter) > 0 <==> filter != [] && Embeds(filter, str)
    ensures StringScore(str, filter) == 0 || StringScore(str, filter) >= 10 * |filter|
  {
    if filter != [] {
      ScanFromInv(str, filter, 0, StartScan);
      ScanMatchesAll(str, filter, 0, StartScan);
      assert filter[0..] == filter && str[0..] == str;
    }
  }

  /** fuzzyMatchStringScore: the scan loop, then the two bonuses for a complete match. */
  method FuzzyMatchStringScore(str: string, filter: string) returns (score: int)
    ensures score == StringScore(str, filter)
  {
    if filter == [] {
      return 0;
    }
    var scan := ScanString(str, filter);
    if scan.matched != |filter| {
      return 0;
    }
    var matchPositions := scan.positions;
    var positionBonus := 0;
    if |matchPositions| > 0 && |str| > 0 {
      var totalPos := SumPositions(matchPositions);
      var avgPos := totalPos / |matchPositions|;
      positionBonus := 50 - avgPos * 50 / |str|;
      if positionBonus < 0 {
        positionBonus := 0;
      }
    }
    var compactnessBonus := 0;
    if |matchPositions| > 1 {
      var span := matchPositions[|matchPositions| - 1] as int - matchPositions[0] as int + 1;
      var maxSpan := |str|;
      compactnessBonus := 25 - span * 25 / maxSpan;
      if compactnessBonus < 0 {
        compactnessBonus := 0;
      }
    }
    return scan.score + positionBonus + compactnessBonus;
  }

  /** The scan loop of fuzzyMatchStringScore, over the runes of the string left to right. */
  method ScanString(str: string, filter: string) returns (scan: Scan)
    ensures scan == ScanFrom(str, filter, 0, StartScan)
    ensures ScanInv(filter, |str|, scan)
  {
    var filterIndex: nat := 0;
    var score := 0;
    var consecutiveBonus := 0;
    var matchPositions: seq<nat> := [];
    var i := 0;
    while i < |str|
      invariant 0 <= i <= |str|
      invariant ScanInv(filter, i, Scan(filterIndex, score, consecutiveBonus, matchPositions))
      invariant ScanFrom(str, filter, i, Scan(filterIndex, score, consecutiveBonus, matchPositions))
        == ScanFrom(str, filter, 0, StartScan)
    {
      if filterIndex < |filter| && str[i] == filter[filterIndex] {
        matchPositions := matchPositions + [i];
        score := score + 10;
        if filterIndex > 0 && i > 0 && str[i - 1] == filter[filterIndex - 1] {
          consecutiveBonus := consecutiveBonus + 5;
          score := score + consecutiveBonus;
        } else {
          consecutiveBonus := 0;
        }
        if i == 0 || str[i - 1] == ' ' || str[i - 1] == '-' {
          score := score + 8;
        }
        filterIndex := filterIndex + 1;
      }
      i := i + 1;
    }
    scan := Scan(filterIndex, score, consecutiveBonus, matchPositions);
  }

  /** The sum of the match positions, as the position-bonus loop adds them up. */
  method SumPositions(positions: seq<nat>) returns (totalPos: nat)
    ensures totalPos == Sum(positions)
  {
    totalPos := 0;
    var k := 0;
    while k < |positions|
      invariant 0 <= k <= |positions|
      invariant totalPos == Sum(positions[..k])
    {
      assert positions[..k + 1][..k] == positions[..k];
      totalPos := totalPos + positions[k];
      k := k + 1;
    }
    assert positions[..k] == positions;
  }

  // ---------------------------------------------------------------- command score

  /**
   * fuzzyMatchScore as a function: the better of the name and description scores (both
   * lower-cased), plus 50 when the name matches.
   */
  function CommandScore(cmd: Core.Command, filter: string): int {
    var nameScore := StringScore(ToLower(cmd.name), filter);
    var descScore := StringScore(ToLower(cmd.description), filter);
    var maxScore := if descScore > nameScore then descScore else nameScore;
    if nameScore > 0 then maxScore + 50 else maxScore
  }

  /**
   * A command scores above zero exactly when the filter is non-empty and embeds in its
   * lower-cased name or description; a name match lifts the score by at least 50.
   */
  lemma CommandScorePositive(cmd: Core.Command, filter: string)
    ensures CommandScore(cmd, filter) >= 0
    ensures CommandScore(cmd, filter) > 0 <==>
      (filter != [] && (Embeds(filter, ToLower(cmd.name)) || Embeds(filter, ToLower(cmd.description))))
    ensures filter != [] && Embeds(filter, ToLower(cmd.name)) ==> CommandScore(cmd, filter) >= 50 + 10 * |filter|
  {
    StringScorePositive(ToLower(cmd.name), filter);
    StringScorePositive(ToLower(cmd.description), filter);
  }

  /** fuzzyMatchScore: scores the lower-cased name and description with the string scan. */
  method FuzzyMatchScore(cmd: Core.Command, filter: string) returns (score: int)
    ensures score == CommandScore(cmd, filter)
  {
    var name := ToLower(cmd.name);
    var description := ToLower(cmd.description);
    var nameScore := FuzzyMatchStringScore(name, filter);
    var descScore := FuzzyMatchStringScore(description, filter);
    score := nameScore;
    if descScore > score {
      score := descScore;
    }
    if nameScore > 0 {
      score := score + 50;
    }
  }

  // ---------------------------------------------------------------- filtering

  datatype CommandMatch = CommandMatch(command: Core.Command, score: int)

  /** The commands that score above zero, each with its score, in catalog order. */
  function Matches(cmds: seq<Core.Command>, filter: string): (ms: seq<CommandMatch>)
    ensures |ms| <= |cmds|
    ensures forall k :: 0 <= k < |ms| ==>
      ms[k].command in cmds && ms[k].score == CommandScore(ms[k].command, filter) && ms[k].score > 0
  {
    if cmds == [] then []
    else
      var c := cmds[|cmds| - 1];
      var s := CommandScore(c, filter);
      var prev := Matches(cmds[..|cmds| - 1], filter);
      assert forall k :: 0 <= k < |prev| ==> prev[k].command in cmds;
      prev + (if s > 0 then [CommandMatch(c, s)] else [])
  }

  /** Every command that scores above zero has its match in the list. */
  lemma {:induction false} MatchesComplete(cmds: seq<Core.Command>, filter: string, c: Core.Command)
    requires c in cmds && CommandScore(c, filter) > 0
    ensures CommandMatch(c, CommandScore(c, filter)) in Matches(cmds, filter)
  {
    var last := cmds[|cmds| - 1];
    if c != last {
      assert cmds == cmds[..|cmds| - 1] + [last];
      MatchesComplete(cmds[..|cmds| - 1], filter, c);
    }
  }

  predicate SortedByScore(ms: seq<CommandMatch>) {
    forall i, j :: 0 <= i < j < |ms| ==> ms[i].score >= ms[j].score
  }

  /** Inserts a match in front of the first match it does not score below. */
  function Insert(sorted: seq<CommandMatch>, m: CommandMatch): (r: seq<CommandMatch>)
    ensures |r| == |sorted| + 1
  {
    if sorted == [] then [m]
    else if m.score >= sorted[0].score then [m] + sorted
    else [sorted[0]] + Insert(sorted[1..], m)
  }

  /** Insertion adds exactly the one match. */
  lemma {:induction false} InsertPermutes(sorted: seq<CommandMatch>, m: CommandMatch)
    ensures multiset(Insert(sorted, m)) == multiset(sorted) + multiset{m}
  {
    if sorted != [] && m.score < sorted[0].score {
      InsertPermutes(sorted[1..], m);
      assert sorted == [sorted[0]] + sorted[1..];
    }
  }

  /** Insertion keeps a sorted list sorted. */
  lemma {:induction false} InsertSorted(sorted: seq<CommandMatch>, m: CommandMatch)
    requires SortedByScore(sorted)
    ensures SortedByScore(Insert(sorted, m))
  {
    if sorted != [] && m.score < sorted[0].score {
      var rest := Insert(sorted[1..], m);
      InsertSorted(sorted[1..], m);
      InsertPermutes(sorted[1..], m);
      forall k | 0 <= k < |rest|
        ensures rest[k].score <= sorted[0].score
      {
        assert rest[k] in multiset(rest);
        if rest[k] != m {
          assert rest[k] in multiset(sorted[1..]);
          var q :| 0 <= q < |sorted[1..]| && sorted[1..][q] == rest[k];
          assert sorted[q + 1] == rest[k];
        }
      }
      assert Insert(sorted, m) == [sorted[0]] + rest;
    }
  }

  /**
   * The sort.Slice call: any non-increasing arrangement of the matches. sort.Slice is not
   * stable, so nothing is promised about the order of equal scores.
   */
  method SortByScore(matches: seq<CommandMatch>) returns (sorted: seq<CommandMatch>)
    ensures SortedByScore(sorted)
    ensures multiset(sorted) == multiset(matches)
  {
    sorted := [];
    var i := 0;
    while i < |matches|
      invariant 0 <= i <= |matches|
      invariant SortedByScore(sorted) && multiset(sorted) == multiset(matches[..i])
    {
      assert matches[..i + 1] == matches[..i] + [matches[i]];
      InsertSorted(sorted, matches[i]);
      InsertPermutes(sorted, matches[i]);
      sorted := Insert(sorted, matches[i]);
      i := i + 1;
    }
    assert matches[..i] == matches;
  }

  /** The UI's command catalog: the registry's CLI catalog, copied field by field. */
  function Catalog(): (r: seq<Core.Command>)
    ensures |r| == |Registry.GetAvailableCommands()|
    ensures forall i :: 0 <= i < |r| ==> r[i] == Core.FromRegistry(Registry.GetAvailableCommands()[i])
  {
    var cmds := Registry.GetAvailableCommands();
    seq(|cmds|, i requires 0 <= i < |cmds| => Core.FromRegistry(cmds[i]))
  }

  /**
   * What filterCommands promises for a search filter over a catalog: the whole catalog for an
   * empty filter; otherwise exactly the commands scoring above zero against the lower-cased
   * filter, one per match, in non-increasing score order.
   */
  ghost predicate FilteredFrom(catalog: seq<Core.Command>, filtered: seq<Core.Command>, searchFilter: string) {
    var filter := ToLower(searchFilter);
    if searchFilter == "" then filtered == catalog
    else
      |filtered| == |Matches(catalog, filter)|
      && (forall c :: c in filtered <==> c in catalog && CommandScore(c, filter) > 0)
      && (forall i, j :: 0 <= i < j < |filtered| ==> CommandScore(filtered[i], filter) >= CommandScore(filtered[j], filter))
  }

  /** The promise for the UI's own catalog. */
  ghost predicate FilteredFor(filtered: seq<Core.Command>, searchFilter: string) {
    FilteredFrom(Catalog(), filtered, searchFilter)
  }

  /** filterCommands: the catalog, filtered and ordered for the search filter. */
  method FilterCommands(searchFilter: string) returns (filtered: seq<Core.Command>)
    ensures FilteredFor(filtered, searchFilter)
  {
    var catalog := Core.GetAvailableCommands();
    assert catalog == Catalog();
    filtered := FilterCatalog(catalog, searchFilter);
  }

  /** The body of filterCommands over a given catalog: score, keep the positive, sort by score. */
  method FilterCatalog(catalog: seq<Core.Command>, searchFilter: string) returns (filtered: seq<Core.Command>)
    ensures FilteredFrom(catalog, filtered, searchFilter)
  {
    if searchFilter == "" {
      return catalog;
    }
    var filter := ToLower(searchFilter);
    var matches := ScoreCatalog(catalog, filter);
    var sorted := SortByScore(matches);
    filtered := CommandsOf(sorted);
    FilteredFacts(catalog, filter, matches, sorted, filtered);
  }

  /** The scoring loop of filterCommands: the commands scoring above zero, with their scores, in catalog order. */
  method ScoreCatalog(catalog: seq<Core.Command>, filter: string) returns (matches: seq<CommandMatch>)
    ensures matches == Matches(catalog, filter)
  {
    matches := [];
    var i := 0;
    while i < |catalog|
      invariant 0 <= i <= |catalog|
      invariant matches == Matches(catalog[..i], filter)
    {
      assert catalog[..i + 1][..i] == catalog[..i];
      var score := FuzzyMatchScore(catalog[i], filter);
      if score > 0 {
        matches := matches + [CommandMatch(catalog[i], score)];
      }
      i := i + 1;
    }
    assert catalog[..i] == catalog;
  }

  /** The last loop of filterCommands: the commands of the sorted matches, in order. */
  method CommandsOf(sorted: seq<CommandMatch>) returns (filtered: seq<Core.Command>)
    ensures |filtered| == |sorted| && forall j :: 0 <= j < |sorted| ==> filtered[j] == sorted[j].command
  {
    filtered := [];
    var k := 0;
    while k < |sorted|
      invariant 0 <= k <= |sorted|
      invariant |filtered| == k && forall j :: 0 <= j < k ==> filtered[j] == sorted[j].command
    {
      filtered := filtered + [sorted[k].command];
      k := k + 1;
    }
  }

  /** The facts that turn the sorted matches into the filter promise. */
  lemma FilteredFacts(catalog: seq<Core.Command>, filter: string, matches: seq<CommandMatch>,
                      sorted: seq<CommandMatch>, filtered: seq<Core.Command>)
    requires matches == Matches(catalog, filter)
    requires SortedByScore(sorted) && multiset(sorted) == multiset(matches)
    requires |filtered| == |sorted| && forall j :: 0 <= j < |sorted| ==> filtered[j] == sorted[j].command
    ensures |filtered| == |matches|
    ensures forall c :: c in filtered <==> c in catalog && CommandScore(c, filter) > 0
    ensures forall i, j :: 0 <= i < j < |filtered| ==> CommandScore(filtered[i], filter) >= CommandScore(filtered[j], filter)
  {
    assert |sorted| == |multiset(sorted)| == |multiset(matches)| == |matches|;
    forall j | 0 <= j < |sorted|
      ensures filtered[j] in catalog && sorted[j].score == CommandScore(filtered[j], filter) > 0
    {
      assert sorted[j] in multiset(matches);
      var k :| 0 <= k < |matches| && matches[k] == sorted[j];
    }
    forall c | c in catalog && CommandScore(c, filter) > 0
      ensures c in filtered
    {
      MatchesComplete(catalog, filter, c);
      var m := CommandMatch(c, CommandScore(c, filter));
      assert m in multiset(sorted);
      var j :| 0 <= j < |sorted| && sorted[j] == m;
      assert filtered[j] == c;
    }
  }
}
