/**
 * The command console (`bank-main/js/search.js`): a typed query is trimmed and lower-cased,
 * recognised as a navigation command or else matched against a fixed table of searchable
 * entries by a relevance score, the top eight matches are listed best first, the arrow keys
 * move a selection over the list, and every navigation is remembered in a bounded history,
 * most recent first.
 *
 * The DOM lookup of phase list items (`navigateToPhase`) is not modelled: a navigation is
 * reported by its target string.
 */
module CommandConsole {
  import opened JsText

  const MaxHistory: int := 20
  const MaxResults: int := 8

  datatype Entry = Entry(key: string, target: string, desc: string)

  /** An entry with its score, `{ ...item, score }`. */
  datatype Match = Match(key: string, target: string, desc: string, score: int)

  const SearchableData: seq<Entry> := [
    Entry("Phase 1", "Phase 1", "Vision & Concept"),
    Entry("Phase 2", "Phase 2", "Regulatory & Legal"),
    Entry("Phase 3", "Phase 3", "Infrastructure & Tech"),
    Entry("Phase 4", "Phase 4", "Risk Matrix"),
    Entry("Phase 7", "Phase 7", "Core Server Engine"),
    Entry("Phase 9", "Phase 9", "ISO 20022 / SWIFT"),
    Entry("Phase 11", "Phase 11", "Liquidity Coverage Ratio"),
    Entry("Phase 12", "Phase 12", "AI Fraud Guardian"),
    Entry("Phase 14", "Phase 14", "Basel IV Capital"),
    Entry("SWIFT", "Phase 9", "International Messaging Network"),
    Entry("LCR", "Phase 11", "Liquidity Monitoring"),
    Entry("Fraud", "Phase 12", "AI Fraud Detection")
  ]

  // ---------------------------------------------------------------------------------------
  // Relevance

  /** How many of `words` occur in `text`. */
  function CountContained(words: seq<string>, text: string): (n: nat)
    ensures n <= |words|
  {
    if words == [] then 0
    else CountContained(words[..|words| - 1], text) + if Contains(text, words[|words| - 1]) then 1 else 0
  }

  /** Some word of `words` occurs in `text`. */
  ghost predicate SomeWordIn(words: seq<string>, text: string) {
    exists i :: 0 <= i < |words| && Contains(text, words[i])
  }

  lemma {:induction false} CountPositiveIffSomeWord(words: seq<string>, text: string)
    ensures CountContained(words, text) > 0 <==> SomeWordIn(words, text)
    decreases |words|
  {
    if words != [] {
      var init := words[..|words| - 1];
      CountPositiveIffSomeWord(init, text);
      if exists i :: 0 <= i < |init| && Contains(text, init[i]) {
        var i :| 0 <= i < |init| && Contains(text, init[i]);
        assert words[i] == init[i];
      }
      if exists i :: 0 <= i < |words| && Contains(text, words[i]) {
        var i :| 0 <= i < |words| && Contains(text, words[i]);
        if i < |init| {
          assert init[i] == words[i];
        }
      }
    }
  }

  /**
   * `relevanceScore(query, text)`: 10 when the lower-cased text contains the whole query,
   * otherwise 3 for each space-separated word of the query that it contains.
   */
  function Relevance(query: string, text: string): (r: int)
    ensures r == 10 <==> Contains(ToLower(text), query)
    ensures r != 10 ==> r == 3 * CountContained(Split(query, ' '), ToLower(text))
    ensures 0 <= r <= 3 * |Split(query, ' ')| || r == 10
  {
    var lowered := ToLower(text);
    if Contains(lowered, query) then 10
    else
      var n := CountContained(Split(query, ' '), lowered);
      assert 3 * n != 10 by {
        if n <= 3 {
        } else {
          assert 3 * n >= 12;
        }
      }
      3 * n
  }

  /** The score is positive exactly when the whole query or one of its words occurs. */
  lemma RelevancePositive(query: string, text: string)
    ensures Relevance(query, text) > 0 <==>
              Contains(ToLower(text), query) || SomeWordIn(Split(query, ' '), ToLower(text))
  {
    var lowered := ToLower(text);
    var words := Split(query, ' ');
    CountPositiveIffSomeWord(words, lowered);
    if !Contains(lowered, query) {
      var n := CountContained(words, lowered);
      assert Relevance(query, text) == 3 * n;
      assert Relevance(query, text) > 0 <==> n > 0;
    }
  }

  /** A one-word query that does not occur scores 0: partial credit needs a space. */
  lemma OneWordMiss(query: string, text: string)
    requires ' ' !in query && !Contains(ToLower(text), query)
    ensures Relevance(query, text) == 0
  {
    SplitNoSeparator(query, ' ');
    assert Split(query, ' ')[..0] == [];
  }

  /** The accumulator loop of `relevanceScore`. */
  method RelevanceScore(query: string, text: string) returns (score: int)
    ensures score == Relevance(query, text)
  {
    var lowered := ToLower(text);
    if Contains(lowered, query) {
      return 10;
    }
    score := 0;
    var words := Split(query, ' ');
    var k := 0;
    while k < |words|
      invariant 0 <= k <= |words|
      invariant score == 3 * CountContained(words[..k], lowered)
    {
      assert words[..k + 1][..k] == words[..k];
      if Contains(lowered, words[k]) {
        score := score + 3;
      }
      k := k + 1;
    }
    assert words[..k] == words;
  }

  // ---------------------------------------------------------------------------------------
  // Ranking

  function Score(query: string, e: Entry): int {
    Relevance(query, e.key) + Relevance(query, e.desc)
  }

  /** The `map` step: every entry with its score. */
  function Scored(query: string): (r: seq<Match>)
    ensures |r| == |SearchableData|
    ensures forall i :: 0 <= i < |r| ==>
              var e := SearchableData[i]; r[i] == Match(e.key, e.target, e.desc, Score(query, e))
  {
    seq(|SearchableData|, i requires 0 <= i < |SearchableData| =>
      var e := SearchableData[i]; Match(e.key, e.target, e.desc, Score(query, e)))
  }

  /** The `filter(item => item.score > 0)` step, order kept. */
  function Positive(ms: seq<Match>): (r: seq<Match>)
    ensures forall m :: m in r <==> m in ms && m.score > 0
    ensures multiset(r) <= multiset(ms)
    ensures |r| <= |ms|
  {
    if ms == [] then []
    else
      var rest := Positive(ms[1..]);
      assert ms == [ms[0]] + ms[1..];
      if ms[0].score > 0 then [ms[0]] + rest else rest
  }

  ghost predicate SortedDesc(s: seq<Match>) {
    forall i, j :: 0 <= i < j < |s| ==> s[i].score >= s[j].score
  }

  /** Inserts `x` after every element scoring at least as much (so equal scores keep their order). */
  function Insert(s: seq<Match>, x: Match): (r: seq<Match>)
    ensures multiset(r) == multiset(s) + multiset{x}
  {
    if s == [] then [x]
    else if s[|s| - 1].score >= x.score then s + [x]
    else
      assert s == s[..|s| - 1] + [s[|s| - 1]];
      Insert(s[..|s| - 1], x) + [s[|s| - 1]]
  }

  lemma {:induction false} InsertSorted(s: seq<Match>, x: Match)
    requires SortedDesc(s)
    ensures SortedDesc(Insert(s, x))
    decreases |s|
  {
    if s != [] && s[|s| - 1].score < x.score {
      var init := s[..|s| - 1];
      var last := s[|s| - 1];
      InsertSorted(init, x);
      var t := Insert(init, x);
      assert forall j :: 0 <= j < |init| ==> init[j].score >= last.score by {
        forall j | 0 <= j < |init| ensures init[j].score >= last.score {
          assert init[j] == s[j];
        }
      }
      MembersAtLeast(t, init, x, last.score);
      assert Insert(s, x) == t + [last];
    }
  }

  /** Every element of a permutation of `init` plus `x` scores at least `b` when they all do. */
  lemma MembersAtLeast(t: seq<Match>, init: seq<Match>, x: Match, b: int)
    requires multiset(t) == multiset(init) + multiset{x}
    requires x.score >= b && forall j :: 0 <= j < |init| ==> init[j].score >= b
    ensures forall k :: 0 <= k < |t| ==> t[k].score >= b
  {
    forall k | 0 <= k < |t| ensures t[k].score >= b {
      assert t[k] in multiset(t);
      if t[k] != x {
        assert t[k] in multiset(init);
        var j :| 0 <= j < |init| && init[j] == t[k];
      }
    }
  }

  /** `sort((a, b) => b.score - a.score)`: a stable insertion sort on the score, best first. */
  function SortDesc(s: seq<Match>): (r: seq<Match>)
    ensures multiset(r) == multiset(s)
    ensures SortedDesc(r)
  {
    if s == [] then []
    else
      assert s == s[..|s| - 1] + [s[|s| - 1]];
      InsertSorted(SortDesc(s[..|s| - 1]), s[|s| - 1]);
      Insert(SortDesc(s[..|s| - 1]), s[|s| - 1])
  }

  /** The entries a query ranks, before the cut to eight. */
  function Candidates(query: string): seq<Match> {
    Positive(Scored(query))
  }

  /** `slice(0, 8)` */
  function Top(s: seq<Match>): (r: seq<Match>)
    ensures |r| <= MaxResults && |r| <= |s| && r == s[..|r|]
    ensures |s| <= MaxResults ==> r == s
  {
    if |s| <= MaxResults then s else s[..MaxResults]
  }

  /** `fuzzySearch(query)`: at most eight positive matches, best first. */
  function FuzzySearch(query: string): (r: seq<Match>)
    ensures |r| <= MaxResults
    ensures SortedDesc(r)
  {
    var s := SortDesc(Candidates(query));
    Top(s)
  }

  /**
   * The results are scored entries of the table with a positive score; none is invented or
   * repeated beyond the candidates; all are kept when there are at most eight; and a
   * candidate that was cut off scores no more than any kept one.
   */
  lemma FuzzySearchRanks(query: string)
    ensures var r := FuzzySearch(query);
            && (forall i :: 0 <= i < |r| ==> r[i].score > 0 && r[i] in Scored(query))
            && multiset(r) <= multiset(Candidates(query))
            && (|Candidates(query)| <= MaxResults ==> multiset(r) == multiset(Candidates(query)))
            && (forall m :: m in multiset(Candidates(query)) - multiset(r) ==>
                  forall i :: 0 <= i < |r| ==> r[i].score >= m.score)
  {
    var c := Candidates(query);
    var s := SortDesc(c);
    var r := FuzzySearch(query);
    PrefixDominates(s, |r|);
    forall i | 0 <= i < |r| ensures r[i].score > 0 && r[i] in Scored(query) {
      assert r[i] in multiset(s);
    }
  }

  /**
   * A prefix of a sequence sorted best first is a sub-multiset of it, and outscores (or ties)
   * everything it leaves out.
   */
  lemma PrefixDominates(s: seq<Match>, n: nat)
    requires SortedDesc(s) && n <= |s|
    ensures multiset(s[..n]) <= multiset(s)
    ensures forall m :: m in multiset(s) - multiset(s[..n]) ==>
              forall i :: 0 <= i < n ==> s[i].score >= m.score
  {
    assert s == s[..n] + s[n..];
    assert multiset(s) == multiset(s[..n]) + multiset(s[n..]);
    forall m | m in multiset(s) - multiset(s[..n]) ensures forall i :: 0 <= i < n ==> s[i].score >= m.score {
      assert m in multiset(s[n..]);
      var j :| 0 <= j < |s[n..]| && s[n..][j] == m;
      assert s[n + j] == m;
    }
  }

  /** The elements scoring exactly `v`, in their order: what a stable sort must not reorder. */
  function WithScore(s: seq<Match>, v: int): (r: seq<Match>)
    ensures |r| <= |s|
  {
    if s == [] then []
    else WithScore(s[..|s| - 1], v) + Tie(s[|s| - 1], v)
  }

  function Tie(m: Match, v: int): seq<Match> {
    if m.score == v then [m] else []
  }

  lemma WithScoreSnoc(a: seq<Match>, y: Match, v: int)
    ensures WithScore(a + [y], v) == WithScore(a, v) + Tie(y, v)
  {
    assert (a + [y])[..|a|] == a;
  }

  lemma {:induction false} WithScoreAppend(a: seq<Match>, b: seq<Match>, v: int)
    ensures WithScore(a + b, v) == WithScore(a, v) + WithScore(b, v)
    decreases |b|
  {
    if b == [] {
      assert a + b == a;
    } else {
      var init, last := b[..|b| - 1], b[|b| - 1];
      var ab := a + b;
      assert ab[..|ab| - 1] == a + init;
      assert ab[|ab| - 1] == last;
      WithScoreAppend(a, init, v);
      var wa, wi, l := WithScore(a, v), WithScore(init, v), Tie(last, v);
      assert WithScore(ab, v) == (wa + wi) + l;
      assert WithScore(b, v) == wi + l;
      assert (wa + wi) + l == wa + (wi + l);
    }
  }

  lemma WithScoreCons(y: Match, a: seq<Match>, v: int)
    ensures WithScore([y] + a, v) == Tie(y, v) + WithScore(a, v)
  {
    WithScoreAppend([y], a, v);
    assert [y][..0] == [];
  }

  /** Inserting `x` puts it after every element of its own score: ties keep their order. */
  lemma {:induction false} InsertStable(s: seq<Match>, x: Match, v: int)
    ensures WithScore(Insert(s, x), v) == WithScore(s, v) + Tie(x, v)
    decreases |s|
  {
    if s == [] {
      assert Insert(s, x) == [] + [x];
      WithScoreSnoc([], x, v);
    } else if s[|s| - 1].score >= x.score {
      assert Insert(s, x) == s + [x];
      WithScoreSnoc(s, x, v);
    } else {
      var init, last := s[..|s| - 1], s[|s| - 1];
      InsertStable(init, x, v);
      InsertPastLast(s, x);
      WithScoreSnoc(Insert(init, x), last, v);
      assert s == init + [last];
      WithScoreSnoc(init, last, v);
      TiesCommute(WithScore(init, v), x, last, v);
    }
  }

  /** Two entries of different scores never both land in the same tie list. */
  lemma TiesCommute(a: seq<Match>, x: Match, y: Match, v: int)
    requires x.score != y.score
    ensures a + Tie(x, v) + Tie(y, v) == a + Tie(y, v) + Tie(x, v)
  {
    if x.score == v {
      assert Tie(y, v) == [];
    } else {
      assert Tie(x, v) == [];
    }
  }

  lemma InsertPastLast(s: seq<Match>, x: Match)
    requires s != [] && s[|s| - 1].score < x.score
    ensures Insert(s, x) == Insert(s[..|s| - 1], x) + [s[|s| - 1]]
  {
  }

  /**
   * The sort is stable, as `Array.prototype.sort` is: the entries of any one score come out
   * in the order they went in.
   */
  lemma {:induction false} SortDescStable(s: seq<Match>, v: int)
    ensures WithScore(SortDesc(s), v) == WithScore(s, v)
    decreases |s|
  {
    if s != [] {
      var init, last := s[..|s| - 1], s[|s| - 1];
      SortDescStable(init, v);
      InsertStable(SortDesc(init), last, v);
    }
  }

  /** Filtering out the non-positive scores keeps every positive score's entries in order. */
  lemma {:induction false} PositiveKeepsOrder(ms: seq<Match>, v: int)
    requires v > 0
    ensures WithScore(Positive(ms), v) == WithScore(ms, v)
  {
    if ms != [] {
      var head, tail := ms[0], ms[1..];
      var rest := Positive(tail);
      PositiveKeepsOrder(tail, v);
      assert ms == [head] + tail;
      WithScoreCons(head, tail, v);
      if head.score > 0 {
        assert Positive(ms) == [head] + rest;
        WithScoreCons(head, rest, v);
      } else {
        assert Positive(ms) == rest;
        assert Tie(head, v) == [];
      }
    }
  }

  /** A prefix keeps a prefix of each score's entries. */
  lemma {:induction false} WithScorePrefix(s: seq<Match>, k: nat, v: int)
    requires k <= |s|
    ensures WithScore(s[..k], v) <= WithScore(s, v)
    decreases |s|
  {
    if k < |s| {
      var init := s[..|s| - 1];
      assert s[..k] == init[..k];
      WithScorePrefix(init, k, v);
    } else {
      assert s[..k] == s;
    }
  }

  /**
   * Ties are broken by table order: of the entries sharing a score, the results keep the
   * first ones in `searchableData` order, in that order, and all of them when at most eight
   * entries match.
   */
  lemma FuzzySearchTieOrder(query: string, v: int)
    requires v > 0
    ensures WithScore(FuzzySearch(query), v) <= WithScore(Scored(query), v)
    ensures |Candidates(query)| <= MaxResults ==>
              WithScore(FuzzySearch(query), v) == WithScore(Scored(query), v)
  {
    var c := Candidates(query);
    var s := SortDesc(c);
    PositiveKeepsOrder(Scored(query), v);
    SortDescStable(c, v);
    WithScorePrefix(s, |FuzzySearch(query)|, v);
  }

  // ---------------------------------------------------------------------------------------
  // Commands

  /**
   * `parseCommand(query)`: the navigation target when the query is a command. "go X"
   * navigates to X; the two fixed commands go to Phase 11 and Phase 9.
   */
  function ParseCommand(query: string): (r: Option<string>)
    ensures r.Some? <==> StartsWith(query, "go ") || query == "check lcr" || query == "open swift"
    ensures StartsWith(query, "go ") ==> r == Some(query[3..])
    ensures query == "check lcr" ==> r == Some("Phase 11")
    ensures query == "open swift" ==> r == Some("Phase 9")
  {
    if StartsWith(query, "go ") then
      assert query[0] == 'g';
      ReplacePrefix(query, "go ");
      Some(ReplaceFirst(query, "go ", ""))
    else if query == "check lcr" then Some("Phase 11")
    else if query == "open swift" then Some("Phase 9")
    else None
  }

  // ---------------------------------------------------------------------------------------
  // History

  /** `storeCommand(cmd)`: prepend, then drop the last entry once if over the limit. */
  function Remember(history: seq<string>, cmd: string): (r: seq<string>)
    ensures |r| == if |history| + 1 > MaxHistory then |history| else |history| + 1
    ensures r == ([cmd] + history)[..|r|]
    ensures |history| <= MaxHistory ==> |r| <= MaxHistory
  {
    var h := [cmd] + history;
    if |h| > MaxHistory then h[..|h| - 1] else h
  }

  function Reverse(s: seq<string>): (r: seq<string>)
    ensures |r| == |s|
  {
    if s == [] then [] else [s[|s| - 1]] + Reverse(s[..|s| - 1])
  }

  /** The history after storing `cmds` in order. */
  function RememberAll(history: seq<string>, cmds: seq<string>): seq<string>
  {
    if cmds == [] then history else Remember(RememberAll(history, cmds[..|cmds| - 1]), cmds[|cmds| - 1])
  }

  function Min(a: int, b: int): int {
    if a < b then a else b
  }

  /**
   * Storing commands one after another keeps the most recent twenty, newest first: the
   * history is the reversed command list followed by the old history, cut to twenty.
   */
  lemma {:induction false} HistoryNewestFirst(history: seq<string>, cmds: seq<string>)
    requires |history| <= MaxHistory
    ensures RememberAll(history, cmds) == (Reverse(cmds) + history)[..Min(|cmds| + |history|, MaxHistory)]
    decreases |cmds|
  {
    if cmds != [] {
      var init := cmds[..|cmds| - 1];
      var c := cmds[|cmds| - 1];
      HistoryNewestFirst(history, init);
      var prev := RememberAll(history, init);
      var x := Reverse(init) + history;
      assert prev == x[..Min(|init| + |history|, MaxHistory)];
      assert Reverse(cmds) + history == [c] + x;
      var r := Remember(prev, c);
      assert r == ([c] + prev)[..|r|];
      assert |r| == Min(|cmds| + |history|, MaxHistory);
      assert ([c] + prev)[..|r|] == ([c] + x)[..|r|];
    }
  }

  // ---------------------------------------------------------------------------------------
  // The console state: input handling and keyboard navigation

  datatype ConsoleState = ConsoleState(selectedIndex: int, results: seq<Match>, history: seq<string>)

  datatype Key = ArrowDown | ArrowUp | Enter | Escape | OtherKey

  datatype KeyOutcome = NoAction | Navigated(target: string) | TypeError

  /** Query normalisation: `value.trim().toLowerCase()`. */
  function NormalizeQuery(raw: string): string {
    ToLower(Trim(raw))
  }

  /**
   * `handleSearchInput`: the list is cleared and the selection reset; a query shorter than
   * two characters stops there, a command navigates without searching, anything else is
   * searched.
   */
  function SearchInputStep(st: ConsoleState, raw: string): (ConsoleState, Option<string>)
  {
    var query := NormalizeQuery(raw);
    var st1 := st.(results := [], selectedIndex := -1);
    if |query| < 2 then (st1, None)
    else match ParseCommand(query)
      case Some(target) => (st1, Some(target))
      case None => (st1.(results := FuzzySearch(query)), None)
  }

  /** `executeNavigation(target)`: navigate, store the target, clear the list. */
  function NavigateStep(st: ConsoleState, target: string): ConsoleState {
    st.(history := Remember(st.history, target), results := [])
  }

  /** `handleKeyboardNav` as written: Enter clicks `items[selectedIndex]` whenever the index is not negative. */
  function KeyStepAsWritten(st: ConsoleState, key: Key): (ConsoleState, KeyOutcome)
  {
    var n := |st.results|;
    var i := st.selectedIndex;
    match key
    case ArrowDown => (st.(selectedIndex := Min(i + 1, n - 1)), NoAction)
    case ArrowUp => (st.(selectedIndex := if i - 1 > 0 then i - 1 else 0), NoAction)
    case Enter =>
      if i >= 0 then
        if i < n then (NavigateStep(st, st.results[i].target), Navigated(st.results[i].target))
        else (st, TypeError)
      else (st, NoAction)
    case Escape => (st.(results := []), NoAction)
    case OtherKey => (st, NoAction)
  }

  /** With no results, ArrowUp selects index 0, and Enter then clicks an item that does not exist. */
  lemma EnterPastEndAsWritten(history: seq<string>)
    ensures var empty := ConsoleState(-1, [], history);
            var up := KeyStepAsWritten(empty, ArrowUp).0;
            up.selectedIndex == 0 && KeyStepAsWritten(up, Enter).1 == TypeError
  {
  }

  /** `handleKeyboardNav` with Enter acting only on an item that exists. */
  function KeyStep(st: ConsoleState, key: Key): (ConsoleState, KeyOutcome)
  {
    var i := st.selectedIndex;
    if key == Enter && i >= |st.results| then (st, NoAction)
    else KeyStepAsWritten(st, key)
  }

  /** The corrected handler differs from the written one only where the written one throws. */
  lemma KeyStepAgreesUnlessCrash(st: ConsoleState, key: Key)
    ensures KeyStepAsWritten(st, key).1 != TypeError ==> KeyStep(st, key) == KeyStepAsWritten(st, key)
    ensures KeyStep(st, key).1 != TypeError
  {
  }

  /**
   * ArrowDown gives `min(i+1, n-1)` and ArrowUp `max(i-1, 0)`, both within a non-empty list
   * (ArrowUp from a selection the list has outgrown, after Escape or a navigation emptied it,
   * may still point past its end); Enter navigates exactly when the selection names an
   * existing item, the item's target then heading the history, and otherwise does nothing.
   */
  lemma KeyboardSelection(st: ConsoleState, key: Key)
    requires st.selectedIndex >= -1
    ensures var (st', o) := KeyStep(st, key);
            var i, n := st.selectedIndex, |st.results|;
            && (key == ArrowDown ==> st'.selectedIndex == Min(i + 1, n - 1))
            && (key == ArrowDown && n > 0 ==> 0 <= st'.selectedIndex < n)
            && (key == ArrowUp ==> st'.selectedIndex >= 0 && st'.selectedIndex >= i - 1 &&
                                   (st'.selectedIndex == 0 || st'.selectedIndex == i - 1))
            && (key == ArrowUp && n > 0 && i <= n ==> 0 <= st'.selectedIndex < n)
            && (key == ArrowDown || key == ArrowUp ==> st'.results == st.results && st'.history == st.history)
            && (key == Enter ==> (o.Navigated? <==> 0 <= i < n))
            && (key == Enter && !(0 <= i < n) ==> st' == st && o == NoAction)
            && (o.Navigated? ==> o.target == st.results[i].target &&
                                 st'.history[0] == o.target && st'.results == [])
  {
  }

  /** The console invariant: the selection never drops below -1 and the history holds at most twenty. */
  ghost predicate ConsoleInv(st: ConsoleState) {
    st.selectedIndex >= -1 && |st.history| <= MaxHistory
  }

  lemma StepsKeepInvariant(st: ConsoleState, key: Key, raw: string)
    requires ConsoleInv(st)
    ensures ConsoleInv(KeyStep(st, key).0)
    ensures ConsoleInv(SearchInputStep(st, raw).0)
  {
  }

  /** A query that trims to fewer than two characters lists nothing and resets the selection. */
  lemma ShortQueryListsNothing(st: ConsoleState, raw: string)
    requires |NormalizeQuery(raw)| < 2
    ensures SearchInputStep(st, raw) == (st.(results := [], selectedIndex := -1), None)
  {
  }

  /** A command query navigates and is not searched. */
  lemma CommandSkipsSearch(st: ConsoleState, raw: string)
    requires |NormalizeQuery(raw)| >= 2 && ParseCommand(NormalizeQuery(raw)).Some?
    ensures var (st', nav) := SearchInputStep(st, raw);
            st'.results == [] && nav == ParseCommand(NormalizeQuery(raw))
  {
  }

  /** Any other query of two or more characters lists its fuzzy-search matches. */
  lemma QuerySearched(st: ConsoleState, raw: string)
    requires |NormalizeQuery(raw)| >= 2 && ParseCommand(NormalizeQuery(raw)).None?
    ensures var (st', nav) := SearchInputStep(st, raw);
            st'.results == FuzzySearch(NormalizeQuery(raw)) && nav.None? &&
            |st'.results| <= MaxResults && st'.selectedIndex == -1
  {
  }

  // ---------------------------------------------------------------------------------------
  // The console over its globals

  class Console {
    var selectedIndex: int
    var results: seq<Match>
    var history: seq<string>

    constructor ()
      ensures Snapshot() == ConsoleState(-1, [], [])
    {
      selectedIndex := -1;
      results := [];
      history := [];
    }

    function Snapshot(): ConsoleState
      reads this
    {
      ConsoleState(selectedIndex, results, history)
    }

    method HandleSearchInput(raw: string) returns (navigation: Option<string>)
      modifies this
      ensures (Snapshot(), navigation) == SearchInputStep(old(Snapshot()), raw)
    {
      var query := ToLower(Trim(raw));
      results := [];
      selectedIndex := -1;
      if |query| < 2 {
        return None;
      }
      navigation := ParseCommand(query);
      if navigation.Some? {
        return;
      }
      results := FuzzySearch(query);
    }

    method StoreCommand(cmd: string)
      modifies this
      ensures history == Remember(old(history), cmd)
      ensures selectedIndex == old(selectedIndex) && results == old(results)
    {
      history := [cmd] + history;
      if |history| > MaxHistory {
        history := history[..|history| - 1];
      }
    }

    method ExecuteNavigation(target: string)
      modifies this
      ensures Snapshot() == NavigateStep(old(Snapshot()), target)
    {
      StoreCommand(target);
      results := [];
    }

    method HandleKeyboardNav(key: Key) returns (outcome: KeyOutcome)
      modifies this
      ensures (Snapshot(), outcome) == KeyStep(old(Snapshot()), key)
    {
      outcome := NoAction;
      var n := |results|;
      if key == ArrowDown {
        selectedIndex := Min(selectedIndex + 1, n - 1);
      }
      if key == ArrowUp {
        selectedIndex := if selectedIndex - 1 > 0 then selectedIndex - 1 else 0;
      }
      if key == Enter && 0 <= selectedIndex < n {
        var target := results[selectedIndex].target;
        ExecuteNavigation(target);
        outcome := Navigated(target);
      }
      if key == Escape {
        results := [];
      }
    }
  }
}
