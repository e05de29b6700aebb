/**
 Slash commands: greedy fuzzy scoring, filtering and merging. Names and queries are lower case
 already; the scoring compares characters only.
 */
module SlashCommands {
  import opened Wrappers

  // ---- Scoring -------------------------------------------------------------------------------

  /** `candidate.indexOf(character, from)`. */
  function IndexOf(candidate: string, c: char, from: nat): (r: Option<nat>)
    ensures r.Some? ==> from <= r.value < |candidate| && candidate[r.value] == c && forall k | from <= k < r.value :: candidate[k] != c
    ensures r.None? ==> forall k | from <= k < |candidate| :: candidate[k] != c
    decreases |candidate| - from
  {
    if from >= |candidate| then None
    else if candidate[from] == c then Some(from)
    else IndexOf(candidate, c, from + 1)
  }

  predicate AtWordStart(candidate: string, i: nat)
    requires i < |candidate|
  {
    i == 0 || candidate[i - 1] in {'-', ':', '_'}
  }

  /** Points for a match at `i`, with the match before it at `previous`. */
  function Bonus(candidate: string, i: nat, previous: int): (r: int)
    requires i < |candidate|
    ensures 4 <= r <= 30
  {
    (if AtWordStart(candidate, i) then 18 else 4) + (if i == previous + 1 then 12 else 0)
  }

  /** The first places where the characters of the query are found, one after the other. */
  function Matches(candidate: string, query: string, from: nat): (r: Option<seq<nat>>)
    ensures r.Some? ==> |r.value| == |query|
  {
    if query == [] then Some([])
    else
      var i := IndexOf(candidate, query[0], from);
      if i.None? then None
      else
        var rest := Matches(candidate, query[1..], i.value + 1);
        if rest.None? then None else Some([i.value] + rest.value)
  }

  function Points(candidate: string, places: seq<nat>, previous: int): int {
    if places == [] then 0
    else (if places[0] < |candidate| then Bonus(candidate, places[0], previous) else 0) + Points(candidate, places[1..], places[0])
  }

  /** The score of a query for a name; `None` when it does not match. */
  function Score(candidate: string, query: string): Option<int> {
    if query == [] then Some(0)
    else if candidate == query then Some(100_000)
    else
      var places := Matches(candidate, query, 0);
      if places.None? then None
      else
        Some((if query <= candidate then 50_000 else 0) + Points(candidate, places.value, -2)
             - places.value[0] * 3 - (|candidate| - |query|))
  }

  ghost function Joined(found: seq<nat>, rest: Option<seq<nat>>): Option<seq<nat>> {
    if rest.None? then None else Some(found + rest.value)
  }

  /** The places found, and those still to be found, are all of them; and so are the points. */
  ghost predicate Searched(
    candidate: string, needle: string, i: nat, from: nat, found: seq<nat>, score: int, start: int, previous: int)
    requires i <= |needle|
  {
    var all, rest := Matches(candidate, needle, 0), Matches(candidate, needle[i..], from);
    && |found| == i && all == Joined(found, rest)
    && (all.Some? ==> score + Points(candidate, rest.value, previous) == start + Points(candidate, all.value, -2))
  }

  lemma SearchStarts(candidate: string, needle: string, start: int)
    ensures Searched(candidate, needle, 0, 0, [], start, start, -2)
  {
    var all := Matches(candidate, needle, 0);
    assert needle[0..] == needle && (all.Some? ==> [] + all.value == all.value);
  }

  lemma SearchGoesOn(
    candidate: string, needle: string, i: nat, from: nat, found: seq<nat>, score: int, start: int, previous: int, place: nat)
    requires i < |needle| && IndexOf(candidate, needle[i], from) == Some(place)
    requires Searched(candidate, needle, i, from, found, score, start, previous)
    ensures Searched(candidate, needle, i + 1, place + 1, found + [place], score + Bonus(candidate, place, previous), start, place)
  {
    assert needle[i..][1..] == needle[i + 1..];
    var next := Matches(candidate, needle[i + 1..], place + 1);
    if next.Some? { assert found + ([place] + next.value) == found + [place] + next.value; }
  }

  lemma SearchFails(candidate: string, needle: string, i: nat, from: nat, found: seq<nat>, score: int, start: int, previous: int)
    requires i < |needle| && IndexOf(candidate, needle[i], from).None?
    requires Searched(candidate, needle, i, from, found, score, start, previous)
    ensures Matches(candidate, needle, 0).None?
  {
  }

  lemma SearchEnds(candidate: string, needle: string, from: nat, found: seq<nat>, score: int, start: int, previous: int)
    requires Searched(candidate, needle, |needle|, from, found, score, start, previous)
    ensures Matches(candidate, needle, 0) == Some(found) && score == start + Points(candidate, found, -2)
  {
    assert needle[|needle|..] == [] && found + [] == found;
  }

  method ScoreFuzzySlashCommand(candidate: string, needle: string) returns (r: Option<int>)
    ensures r == Score(candidate, needle)
  {
    if needle == "" { return Some(0); }
    if candidate == needle { return Some(100_000); }
    var score: int := if needle <= candidate then 50_000 else 0;
    var found := ScoreMatches(candidate, needle);
    if found.None? { return None; }
    score := score + found.value.1;
    score := score - found.value.0 * 3;
    score := score - (|candidate| - |needle|);
    return Some(score);
  }

  /** The loop over the characters: the first match and the points, unless a character is missing. */
  method ScoreMatches(candidate: string, needle: string) returns (r: Option<(int, int)>)
    requires needle != ""
    ensures var all := Matches(candidate, needle, 0);
            r == if all.None? then None else Some((all.value[0] as int, Points(candidate, all.value, -2)))
  {
    var score, searchFrom: nat, previousMatch: int, firstMatch: int, i := 0, 0, -2, -1, 0;
    ghost var found: seq<nat> := [];
    SearchStarts(candidate, needle, 0);
    while i < |needle|
      invariant 0 <= i <= |needle|
      invariant Searched(candidate, needle, i, searchFrom, found, score, 0, previousMatch)
      invariant if i == 0 then firstMatch == -1 else firstMatch == found[0]
    {
      var place := IndexOf(candidate, needle[i], searchFrom);
      if place.None? {
        SearchFails(candidate, needle, i, searchFrom, found, score, 0, previousMatch);
        return None;
      }
      SearchGoesOn(candidate, needle, i, searchFrom, found, score, 0, previousMatch, place.value);
      if firstMatch == -1 { firstMatch := place.value; }
      var points := ScoreMatch(candidate, place.value, previousMatch);
      score := score + points;
      found := found + [place.value];
      previousMatch := place.value;
      searchFrom := place.value + 1;
      i := i + 1;
    }
    SearchEnds(candidate, needle, searchFrom, found, score, 0, previousMatch);
    return Some((firstMatch, score));
  }

  method ScoreMatch(candidate: string, place: nat, previousMatch: int) returns (points: int)
    requires place < |candidate|
    ensures points == Bonus(candidate, place, previousMatch)
  {
    if place == 0 || candidate[place - 1] == '-' || candidate[place - 1] == ':' || candidate[place - 1] == '_' {
      points := 18;
    } else {
      points := 4;
    }
    if place == previousMatch + 1 { points := points + 12; }
  }

  // ---- A score exactly for subsequences ------------------------------------------------------

  /** The places, in rising order from `from` on, hold the characters of the query. */
  ghost predicate Embeds(candidate: string, query: string, places: seq<nat>, from: nat) {
    && |places| == |query|
    && (forall i | 0 <= i < |places| :: from <= places[i] < |candidate| && candidate[places[i]] == query[i])
    && (forall i, j | 0 <= i < j < |places| :: places[i] < places[j])
  }

  lemma {:induction false} MatchesEmbed(candidate: string, query: string, from: nat)
    requires Matches(candidate, query, from).Some?
    ensures Embeds(candidate, query, Matches(candidate, query, from).value, from)
    decreases |query|
  {
    if query != [] {
      var i := IndexOf(candidate, query[0], from).value;
      MatchesEmbed(candidate, query[1..], i + 1);
      var places, rest := Matches(candidate, query, from).value, Matches(candidate, query[1..], i + 1).value;
      assert places == [i] + rest;
      forall k | 0 <= k < |places| ensures from <= places[k] < |candidate| && candidate[places[k]] == query[k] {
        if k > 0 { assert rest[k - 1] == places[k] && query[1..][k - 1] == query[k]; }
      }
    }
  }

  /** The greedy search misses nothing. */
  lemma {:induction false} EmbeddedIsMatched(candidate: string, query: string, places: seq<nat>, from: nat)
    requires Embeds(candidate, query, places, from)
    ensures Matches(candidate, query, from).Some?
    decreases |query|
  {
    if query != [] {
      var i := IndexOf(candidate, query[0], from);
      assert candidate[places[0]] == query[0];
      assert i.Some? && i.value <= places[0];
      assert Embeds(candidate, query[1..], places[1..], i.value + 1) by {
        forall k | 0 <= k < |places[1..]|
          ensures i.value + 1 <= places[1..][k] < |candidate| && candidate[places[1..][k]] == query[1..][k]
        {
          assert places[0] < places[k + 1];
        }
      }
      EmbeddedIsMatched(candidate, query[1..], places[1..], i.value + 1);
    }
  }

  /** A query has a score for a name exactly if it is a subsequence of the name. */
  lemma ScoreIffSubsequence(candidate: string, query: string)
    ensures Score(candidate, query).Some? <==> exists places :: Embeds(candidate, query, places, 0)
  {
    if query == [] {
      assert Embeds(candidate, query, [], 0);
    } else if candidate == query {
      assert Embeds(candidate, query, seq(|query|, i => i), 0);
    } else {
      if Matches(candidate, query, 0).Some? { MatchesEmbed(candidate, query, 0); }
      forall places | Embeds(candidate, query, places, 0) ensures Matches(candidate, query, 0).Some? {
        EmbeddedIsMatched(candidate, query, places, 0);
      }
    }
  }

  // ---- Ranking -------------------------------------------------------------------------------

  lemma {:induction false} PointsAreBounded(candidate: string, places: seq<nat>, previous: int)
    requires forall i | 0 <= i < |places| :: places[i] < |candidate|
    ensures 4 * |places| <= Points(candidate, places, previous) <= 30 * |places|
    decreases |places|
  {
    if places != [] { PointsAreBounded(candidate, places[1..], places[0]); }
  }

  lemma PrefixStartsAtZero(candidate: string, query: string)
    requires query != [] && query <= candidate
    ensures IndexOf(candidate, query[0], 0) == Some(0)
  {
  }

  /** The range of the scores of matches other than the whole name. */
  lemma ScoreRange(candidate: string, query: string)
    requires query != [] && candidate != query && Score(candidate, query).Some?
    ensures var score := Score(candidate, query).value;
            && |query| <= |candidate|
            && (query <= candidate ==>
                  50_000 + 4 * |query| - (|candidate| - |query|) <= score <= 50_000 + 30 * |query| - (|candidate| - |query|))
            && (!(query <= candidate) ==> score <= 30 * |query|)
  {
    var places := Matches(candidate, query, 0).value;
    MatchesEmbed(candidate, query, 0);
    PointsAreBounded(candidate, places, -2);
    RisingFit(places, |candidate|);
    if query <= candidate { PrefixStartsAtZero(candidate, query); }
  }

  lemma {:induction false} RisingFit(places: seq<nat>, n: nat)
    requires (forall i | 0 <= i < |places| :: places[i] < n) && forall i, j | 0 <= i < j < |places| :: places[i] < places[j]
    ensures |places| <= n
    decreases |places|
  {
    if places != [] {
      var last := places[|places| - 1];
      RisingFit(places[..|places| - 1], last);
    }
  }

  /** For names of up to 1600 characters: the whole name before its beginnings, beginnings before everything else. */
  lemma ExactThenPrefixThenOther(whole: string, longer: string, other: string, query: string)
    requires query != [] && whole == query
    requires query < longer && |longer| <= 1600
    requires |other| <= 1600 && !(query <= other) && Score(other, query).Some?
    ensures Score(whole, query).Some? && Score(longer, query).Some?
    ensures Score(whole, query).value > Score(longer, query).value > Score(other, query).value
  {
    assert Embeds(longer, query, seq(|query|, i => i), 0);
    ScoreIffSubsequence(longer, query);
    ScoreRange(longer, query);
    ScoreRange(other, query);
  }

  function Separators(s: string): nat {
    if s == [] then 0 else (if s[0] in {'-', ':', '_'} then 1 else 0) + Separators(s[1..])
  }

  /** Behind its first character, a beginning of the name is matched in place. */
  lemma {:induction false} PrefixGoesOn(candidate: string, query: string, k: nat)
    requires 0 < k <= |query| && query <= candidate
    ensures Matches(candidate, query[k..], k).Some?
    ensures Points(candidate, Matches(candidate, query[k..], k).value, k - 1)
         == 16 * (|query| - k) + 14 * Separators(query[k - 1..|query| - 1])
    decreases |query| - k
  {
    if k < |query| {
      PrefixGoesOn(candidate, query, k + 1);
      assert query[k..][1..] == query[k + 1..] && query[k..][0] == candidate[k];
      var before := query[k - 1..|query| - 1];
      assert before[0] == candidate[k - 1] && before[1..] == query[k..|query| - 1];
    }
  }

  /** The score of a query that begins a longer name: it grows by 17 with each character and by 14 more with each separator. */
  lemma PrefixScore(candidate: string, query: string)
    requires query != [] && query < candidate
    ensures Score(candidate, query) == Some(50_002 + 17 * |query| + 14 * Separators(query[..|query| - 1]) - |candidate|)
  {
    PrefixStartsAtZero(candidate, query);
    PrefixGoesOn(candidate, query, 1);
    assert query[0..] == query && query[0..|query| - 1] == query[..|query| - 1];
  }

  /** Exactly when a longer name outranks the name that was typed in full. */
  lemma PrefixOutranksExactIff(longer: string, query: string)
    requires query != [] && query < longer
    ensures Score(longer, query).Some? && Score(query, query).Some?
    ensures Score(longer, query).value > Score(query, query).value
            <==> 17 * |query| + 14 * Separators(query[..|query| - 1]) > 49_998 + |longer|
  {
    PrefixScore(longer, query);
  }

  function Dashes(n: nat): string { seq(n, i => '-') }

  lemma {:induction false} DashesSeparate(n: nat)
    ensures Separators(Dashes(n)) == n
  {
    if n > 0 {
      DashesSeparate(n - 1);
      assert Dashes(n)[1..] == Dashes(n - 1);
    }
  }

  /** It happens: a name of dashes, one longer than the query, outranks it from 1668 characters on. */
  lemma DashesOutrankExactIff(m: nat)
    requires m > 0
    ensures Score(Dashes(m + 1), Dashes(m)).Some? && Score(Dashes(m), Dashes(m)).Some?
    ensures Score(Dashes(m + 1), Dashes(m)).value > Score(Dashes(m), Dashes(m)).value <==> m >= 1668
  {
    PrefixOutranksExactIff(Dashes(m + 1), Dashes(m));
    assert Dashes(m)[..m - 1] == Dashes(m - 1);
    DashesSeparate(m - 1);
  }

  /** Exactly when a name that the query does not begin outranks one that it does. */
  lemma OtherOutranksPrefixIff(longer: string, other: string, query: string)
    requires query != [] && query < longer && !(query <= other) && Score(other, query).Some?
    ensures Score(longer, query).Some? && Matches(other, query, 0).Some?
    ensures var places := Matches(other, query, 0).value;
            Score(other, query).value > Score(longer, query).value
            <==> Points(other, places, -2) - 3 * places[0] + |longer|
                 > 50_002 + 16 * |query| + 14 * Separators(query[..|query| - 1]) + |other|
  {
    PrefixScore(longer, query);
  }

  /** It happens: "ab" outranks a name that begins with "b" from 50 020 characters on. */
  lemma LongNameIsOutrankedIff(tail: string)
    requires tail != []
    ensures Score("ab", "b") == Some(0) && Score("b" + tail, "b").Some?
    ensures Score("ab", "b").value > Score("b" + tail, "b").value <==> |tail| >= 50_019
  {
    PrefixScore("b" + tail, "b");
    OneLetterLater("ab", "b");
  }

  lemma OneLetterLater(candidate: string, query: string)
    requires |candidate| == 2 && query == [candidate[1]] && candidate[0] != candidate[1] && candidate[0] !in {'-', ':', '_'}
    ensures Score(candidate, query) == Some(0)
  {
    assert IndexOf(candidate, query[0], 0) == Some(1);
    var rest := query[1..];
    assert rest == [] && Matches(candidate, rest, 2) == Some([]);
    assert Matches(candidate, query, 0) == Some([1] + []);
    assert [1 as nat] + [] == [1];
    assert Points(candidate, [1], -2) == 4 + Points(candidate, [], 1);
  }

  // ---- What a score is made of ---------------------------------------------------------------

  /** How many of the places are the first of a word. */
  function WordStarts(candidate: string, places: seq<nat>): nat
    requires forall i | 0 <= i < |places| :: places[i] < |candidate|
  {
    if places == [] then 0
    else One(places[0] == 0 || candidate[places[0] - 1] in {'-', ':', '_'}) + WordStarts(candidate, places[1..])
  }

  /** How many of the places come right behind the one before. */
  function Neighbours(places: seq<nat>): nat {
    if |places| < 2 then 0 else One(places[1] == places[0] + 1) + Neighbours(places[1..])
  }

  lemma {:induction false} PointsAre(candidate: string, places: seq<nat>, previous: int)
    requires forall i | 0 <= i < |places| :: places[i] < |candidate|
    ensures Points(candidate, places, previous)
         == 4 * |places| + 14 * WordStarts(candidate, places)
            + 12 * (Neighbours(places) + One(places != [] && places[0] == previous + 1))
    decreases |places|
  {
    if places != [] { PointsAre(candidate, places[1..], places[0]); }
  }

  /** The places found hold the query, each as far in front as in any other way to find it. */
  ghost predicate Leftmost(candidate: string, query: string, places: seq<nat>, from: nat) {
    && Embeds(candidate, query, places, from)
    && forall other | Embeds(candidate, query, other, from) :: forall i | 0 <= i < |query| :: places[i] <= other[i]
  }

  lemma {:induction false} MatchesComeFirst(candidate: string, query: string, other: seq<nat>, from: nat, i: nat)
    requires Embeds(candidate, query, other, from) && i < |query|
    ensures Matches(candidate, query, from).Some? && Matches(candidate, query, from).value[i] <= other[i]
    decreases |query|
  {
    EmbeddedIsMatched(candidate, query, other, from);
    var first := IndexOf(candidate, query[0], from).value;
    assert candidate[other[0]] == query[0];
    if i > 0 {
      forall k | 0 <= k < |other[1..]|
        ensures first + 1 <= other[1..][k] < |candidate| && candidate[other[1..][k]] == query[1..][k]
      {
        assert other[0] < other[k + 1];
      }
      MatchesComeFirst(candidate, query[1..], other[1..], first + 1, i - 1);
    }
  }

  /**
   The score of any match but the whole name: 4 for each character, 14 for the start of a word, 12 for a neighbour of the
   one before, 50 000 for a beginning, less three times the first place and the length that is not matched.
   */
  lemma ScoreIsMadeOf(candidate: string, query: string) returns (places: seq<nat>)
    requires query != [] && candidate != query && Score(candidate, query).Some?
    ensures Leftmost(candidate, query, places, 0)
    ensures Score(candidate, query).value
         == (if query <= candidate then 50_000 else 0) + 4 * |query| + 14 * WordStarts(candidate, places) + 12 * Neighbours(places)
            - 3 * places[0] - (|candidate| - |query|)
  {
    places := Matches(candidate, query, 0).value;
    MatchesEmbed(candidate, query, 0);
    forall other, i | Embeds(candidate, query, other, 0) && 0 <= i < |query| ensures places[i] <= other[i] {
      MatchesComeFirst(candidate, query, other, 0, i);
    }
    PointsAre(candidate, places, -2);
  }

  // ---- Filtering -----------------------------------------------------------------------------

  datatype Suggestion = Suggestion(name: string, description: string, acceptsArguments: bool)

  datatype Scored = Scored(command: Suggestion, index: nat, score: int)

  /** The comparison of the sort: higher scores first, then the original order. */
  predicate Before(a: Scored, b: Scored) {
    a.score > b.score || (a.score == b.score && a.index < b.index)
  }

  /** The commands that match, with their scores and places. */
  function Candidates(lower: string -> string, commands: seq<Suggestion>, query: string): (r: seq<Scored>)
    ensures forall x :: x in r <==> && x.index < |commands| && commands[x.index] == x.command
                                    && Score(lower(x.command.name), lower(query)) == Some(x.score)
    ensures forall i, j | 0 <= i < j < |r| :: r[i].index < r[j].index
  {
    if commands == [] then []
    else
      var last := commands[|commands| - 1];
      var score := Score(lower(last.name), lower(query));
      Candidates(lower, commands[..|commands| - 1], query)
      + (if score.None? then [] else [Scored(last, |commands| - 1, score.value)])
  }

  ghost predicate Sorted(list: seq<Scored>) {
    forall i, j | 0 <= i < j < |list| :: Before(list[i], list[j])
  }

  function Insert(x: Scored, list: seq<Scored>): (r: seq<Scored>)
    ensures multiset(r) == multiset(list) + multiset{x}
  {
    if list == [] then [x]
    else if Before(x, list[0]) then [x] + list
    else
      assert list == [list[0]] + list[1..];
      [list[0]] + Insert(x, list[1..])
  }

  function Sort(list: seq<Scored>): (r: seq<Scored>)
    ensures multiset(r) == multiset(list)
  {
    if list == [] then []
    else
      assert list == [list[0]] + list[1..];
      Insert(list[0], Sort(list[1..]))
  }

  function Commands(list: seq<Scored>): (r: seq<Suggestion>)
    ensures |r| == |list| && forall i | 0 <= i < |list| :: r[i] == list[i].command
  {
    seq(|list|, i requires 0 <= i < |list| => list[i].command)
  }

  function FilterSlashCommands(lower: string -> string, commands: seq<Suggestion>, query: string): seq<Suggestion> {
    Commands(Sort(Candidates(lower, commands, query)))
  }

  lemma {:induction false} InsertKeepsSorted(x: Scored, list: seq<Scored>)
    requires Sorted(list) && forall y | y in list :: y.index != x.index
    ensures Sorted(Insert(x, list))
    decreases |list|
  {
    if list != [] && !Before(x, list[0]) {
      InsertKeepsSorted(x, list[1..]);
      var rest := Insert(x, list[1..]);
      forall y | y in rest ensures Before(list[0], y) {
        assert y in multiset(rest);
        if y != x { assert y in list[1..]; }
      }
    }
  }

  lemma {:induction false} SortSorts(list: seq<Scored>)
    requires forall i, j | 0 <= i < j < |list| :: list[i].index != list[j].index
    ensures Sorted(Sort(list))
    decreases |list|
  {
    if list != [] {
      SortSorts(list[1..]);
      forall y | y in Sort(list[1..]) ensures y.index != list[0].index {
        assert y in multiset(Sort(list[1..]));
        assert y in list[1..];
      }
      InsertKeepsSorted(list[0], Sort(list[1..]));
    }
  }

  /** The result: exactly the matching commands, by score and then by place; no other list is so. */
  ghost predicate IsRanking(lower: string -> string, commands: seq<Suggestion>, query: string, list: seq<Scored>) {
    && Sorted(list)
    && forall x :: x in list <==> && x.index < |commands| && commands[x.index] == x.command
                                  && Score(lower(x.command.name), lower(query)) == Some(x.score)
  }

  lemma {:induction false} RankingIsUnique(a: seq<Scored>, b: seq<Scored>)
    requires Sorted(a) && Sorted(b) && forall x :: x in a <==> x in b
    ensures a == b
    decreases |a|
  {
    HeadIsThere(a);
    HeadIsThere(b);
    if a != [] {
      assert a[0] == b[0];
      forall x ensures x in a[1..] <==> x in b[1..] {
        TailsOf(a, x);
        TailsOf(b, x);
      }
      RankingIsUnique(a[1..], b[1..]);
      assert a == [a[0]] + a[1..] && b == [b[0]] + b[1..];
    }
  }

  lemma HeadIsThere(a: seq<Scored>)
    ensures a != [] ==> a[0] in a
  {
  }

  lemma TailsOf(a: seq<Scored>, x: Scored)
    requires Sorted(a) && a != []
    ensures x in a[1..] <==> x in a && x != a[0]
  {
    if x in a[1..] {
      var i :| 0 <= i < |a[1..]| && a[1..][i] == x;
      assert Before(a[0], a[i + 1]);
    }
  }

  /** Filtering gives the one ranking of the matching commands. */
  lemma FilterRanksMatches(lower: string -> string, commands: seq<Suggestion>, query: string)
    ensures var ranking := Sort(Candidates(lower, commands, query));
            && FilterSlashCommands(lower, commands, query) == Commands(ranking)
            && IsRanking(lower, commands, query, ranking)
            && forall other | IsRanking(lower, commands, query, other) :: other == ranking
  {
    var list := Candidates(lower, commands, query);
    var ranking := Sort(list);
    SortSorts(list);
    forall x ensures x in ranking <==> x in list { assert x in multiset(ranking) <==> x in multiset(list); }
    forall other | IsRanking(lower, commands, query, other) ensures other == ranking { RankingIsUnique(other, ranking); }
  }

  // ---- Merging -------------------------------------------------------------------------------

  datatype CommandInfo = CommandInfo(name: string, description: Option<string>)

  function Remote(c: CommandInfo): Suggestion {
    Suggestion(c.name, if c.description.Some? then c.description.value else "", true)
  }

  ghost function LowerNames(lower: string -> string, list: seq<Suggestion>): set<string> {
    set s | s in list :: lower(s.name)
  }

  /** The first command of each name that is neither a built-in's nor an earlier command's. */
  function NewCommands(lower: string -> string, names: set<string>, commands: seq<CommandInfo>): seq<Suggestion>
    decreases |commands|
  {
    if commands == [] then []
    else if lower(commands[0].name) in names then NewCommands(lower, names, commands[1..])
    else [Remote(commands[0])] + NewCommands(lower, names + {lower(commands[0].name)}, commands[1..])
  }

  method MergeSlashCommands(lower: string -> string, builtins: seq<Suggestion>, commands: seq<CommandInfo>)
    returns (result: seq<Suggestion>)
    ensures result == builtins + NewCommands(lower, LowerNames(lower, builtins), commands)
  {
    result := builtins;
    var names := set s | s in builtins :: lower(s.name);
    var i := 0;
    assert commands[0..] == commands;
    while i < |commands|
      invariant 0 <= i <= |commands|
      invariant builtins + NewCommands(lower, LowerNames(lower, builtins), commands)
             == result + NewCommands(lower, names, commands[i..])
    {
      var command := commands[i];
      assert commands[i..][1..] == commands[i + 1..];
      if lower(command.name) !in names {
        assert result + ([Remote(command)] + NewCommands(lower, names + {lower(command.name)}, commands[i + 1..]))
            == result + [Remote(command)] + NewCommands(lower, names + {lower(command.name)}, commands[i + 1..]);
        names := names + {lower(command.name)};
        result := result + [Remote(command)];
      }
      i := i + 1;
    }
    assert result + [] == result;
  }

  ghost predicate FreshNames(lower: string -> string, names: set<string>, list: seq<Suggestion>) {
    && (forall i | 0 <= i < |list| :: lower(list[i].name) !in names)
    && (forall i, j | 0 <= i < j < |list| :: lower(list[i].name) != lower(list[j].name))
  }

  lemma FreshInFront(lower: string -> string, names: set<string>, s: Suggestion, rest: seq<Suggestion>)
    requires lower(s.name) !in names && FreshNames(lower, names + {lower(s.name)}, rest)
    ensures FreshNames(lower, names, [s] + rest)
  {
    var list := [s] + rest;
    forall i | 0 <= i < |list| ensures lower(list[i].name) !in names && (i > 0 ==> lower(list[i].name) != lower(s.name)) {
      if i > 0 { assert list[i] == rest[i - 1]; }
    }
    forall i, j | 0 <= i < j < |list| ensures lower(list[i].name) != lower(list[j].name) {
      if i > 0 { assert list[i] == rest[i - 1] && list[j] == rest[j - 1]; }
    }
  }

  /** No two new commands, and no new command and a taken name, differ only in case. */
  lemma {:induction false} NewNamesAreDistinct(lower: string -> string, names: set<string>, commands: seq<CommandInfo>)
    ensures FreshNames(lower, names, NewCommands(lower, names, commands))
    decreases |commands|
  {
    if commands != [] {
      var first := lower(commands[0].name);
      if first in names {
        NewNamesAreDistinct(lower, names, commands[1..]);
      } else {
        NewNamesAreDistinct(lower, names + {first}, commands[1..]);
        FreshInFront(lower, names, Remote(commands[0]), NewCommands(lower, names + {first}, commands[1..]));
      }
    }
  }

  /** Every command's name is there afterwards, in some case: as a taken name or as a new command. */
  lemma {:induction false} EveryNameIsThere(lower: string -> string, names: set<string>, commands: seq<CommandInfo>, c: CommandInfo)
    requires c in commands
    ensures lower(c.name) in names || exists s :: s in NewCommands(lower, names, commands) && lower(s.name) == lower(c.name)
    decreases |commands|
  {
    var first := lower(commands[0].name);
    var list := NewCommands(lower, names, commands);
    if first !in names { assert list[0] in list && lower(list[0].name) == first; }
    if c != commands[0] {
      assert c in commands[1..];
      EveryNameIsThere(lower, if first in names then names else names + {first}, commands[1..], c);
    }
  }

  /** The command's name is neither taken nor that of an earlier command, but for case. */
  predicate IsFirst(lower: string -> string, names: set<string>, commands: seq<CommandInfo>, p: nat) {
    && p < |commands| && lower(commands[p].name) !in names
    && forall k | 0 <= k < p :: lower(commands[k].name) != lower(commands[p].name)
  }

  /** The list has the commands at these places, in their order, as the remote ones are shown. */
  ghost predicate TakenFrom(commands: seq<CommandInfo>, at: seq<nat>, list: seq<Suggestion>) {
    && |at| == |list| && (forall i, j | 0 <= i < j < |at| :: at[i] < at[j])
    && forall i | 0 <= i < |at| ::
         && at[i] < |commands|
         && list[i] == Suggestion(commands[at[i]].name,
                                  match commands[at[i]].description case Some(d) => d case None => "", true)
  }

  /** The new commands are exactly the first of each name, in order, under their own names and descriptions. */
  lemma {:induction false} NewAreTheFirsts(lower: string -> string, names: set<string>, commands: seq<CommandInfo>) returns (at: seq<nat>)
    ensures TakenFrom(commands, at, NewCommands(lower, names, commands))
    ensures forall p: nat :: p in at <==> IsFirst(lower, names, commands, p)
    decreases |commands|
  {
    if commands == [] {
      at := [];
    } else {
      var first := lower(commands[0].name);
      var taken := names + {first};
      var rest := NewAreTheFirsts(lower, taken, commands[1..]);
      var later := Shifted(rest);
      at := if first in names then later else [0] + later;
      assert taken == names || first !in names;
      LaterFirsts(lower, names, commands, rest, later);
      OneMoreTaken(commands, rest, later, NewCommands(lower, taken, commands[1..]));
    }
  }

  function Shifted(at: seq<nat>): (r: seq<nat>)
    ensures |r| == |at| && forall i | 0 <= i < |at| :: r[i] == at[i] + 1
  {
    seq(|at|, i requires 0 <= i < |at| => at[i] + 1)
  }

  lemma LaterFirsts(lower: string -> string, names: set<string>, commands: seq<CommandInfo>, rest: seq<nat>, later: seq<nat>)
    requires commands != [] && later == Shifted(rest)
    requires forall p: nat :: p in rest <==> IsFirst(lower, names + {lower(commands[0].name)}, commands[1..], p)
    ensures forall p: nat :: p in later <==> p > 0 && IsFirst(lower, names, commands, p)
  {
    forall p: nat ensures p in later <==> p > 0 && IsFirst(lower, names, commands, p) {
      if p > 0 {
        assert p - 1 in rest <==> p in later by {
          if p - 1 in rest { var i :| 0 <= i < |rest| && rest[i] == p - 1; assert later[i] == p; }
        }
        if p < |commands| {
          assert commands[1..][p - 1] == commands[p];
          assert forall k | 0 <= k < p - 1 :: commands[1..][k] == commands[k + 1];
          assert forall k | 0 < k < p :: commands[k] == commands[1..][k - 1];
        }
      }
    }
  }

  lemma OneMoreTaken(commands: seq<CommandInfo>, rest: seq<nat>, later: seq<nat>, list: seq<Suggestion>)
    requires commands != [] && TakenFrom(commands[1..], rest, list) && later == Shifted(rest)
    ensures TakenFrom(commands, later, list) && TakenFrom(commands, [0] + later, [Remote(commands[0])] + list)
  {
    var at, longer := [0] + later, [Remote(commands[0])] + list;
    forall i | 0 <= i < |later| ensures later[i] < |commands| && commands[later[i]] == commands[1..][rest[i]] {}
    forall i | 0 <= i < |at|
      ensures at[i] < |commands|
              && longer[i] == Suggestion(commands[at[i]].name, match commands[at[i]].description case Some(d) => d case None => "", true)
    {
      if i > 0 { assert at[i] == later[i - 1] && longer[i] == list[i - 1]; }
    }
  }
}
