/** GameController.cs, the catalog's two listing actions: Index shows one page
    of nine games with its pager, and Filter keeps the games whose name or
    description contains a search string, ignoring case. */
module Catalog {
  import opened Int32
  import opened Collections
  import opened Models
  import opened Pager

  /** The number of games per catalog page. */
  const PageSize: int := 9

  function Min(a: int, b: int): int { if a <= b then a else b }
  function Max(a: int, b: int): int { if a >= b then a else b }

  /** A page number below 1 is read as 1. */
  function ClampPage(pg: int): (p: int)
    ensures p >= 1
    ensures pg >= 1 ==> p == pg
  {
    if pg < 1 then 1 else pg
  }

  /** Enumerable.Skip: a count of 0 or less skips nothing. */
  function Skip<T>(s: seq<T>, n: int): (r: seq<T>)
    ensures |r| == if n <= 0 then |s| else Max(0, |s| - n)
    ensures forall k :: 0 <= k < |r| ==> r[k] == s[|s| - |r| + k]
  {
    if n <= 0 then s else if n >= |s| then [] else s[n..]
  }

  /** Enumerable.Take: a count of 0 or less takes nothing. */
  function Take<T>(s: seq<T>, n: int): (r: seq<T>)
    ensures |r| == Max(0, Min(n, |s|))
    ensures forall k :: 0 <= k < |r| ==> r[k] == s[k]
  {
    if n <= 0 then [] else if n >= |s| then s else s[..n]
  }

  /** What Index hands to its view: the pager (ViewBag.Pager) and the games of
      the page. */
  datatype IndexPage = IndexPage(pager: Pager, shown: seq<Game>)

  /** Index(pg) over the catalog `games`, with the record skip computed exactly:
      the pager for the game count, the clamped page and page size 9, and the
      games from position (pg - 1) * 9 on, at most nine of them, in catalog
      order. */
  function Index(games: seq<Game>, pg: int): (r: IndexPage)
    requires |games| <= MaxInt32 && IsInt32(pg)
    ensures NewPager(|games|, ClampPage(pg), PageSize).Some?
    ensures r.pager == NewPager(|games|, ClampPage(pg), PageSize).value
    ensures var skip := (ClampPage(pg) - 1) * PageSize;
      && |r.shown| == Min(PageSize, Max(0, |games| - skip))
      && forall k :: 0 <= k < |r.shown| ==> r.shown[k] == games[skip + k]
  {
    var page := ClampPage(pg);
    var pager := NewPager(|games|, page, PageSize).value;
    var recSkip := (page - 1) * PageSize;
    IndexPage(pager, Take(Skip(games, recSkip), pager.pageSize))
  }

  /** Index(pg) as written: the record skip (pg - 1) * pageSize is an int
      product, which wraps around for large page numbers. */
  function IndexAsWritten(games: seq<Game>, pg: int): (r: IndexPage)
    requires |games| <= MaxInt32 && IsInt32(pg)
    ensures |r.shown| <= PageSize
  {
    var page := ClampPage(pg);
    var pager := NewPagerAsWritten(|games|, page, PageSize).value;
    var recSkip := Wrap32((page - 1) * PageSize);
    IndexPage(pager, Take(Skip(games, recSkip), pager.pageSize))
  }

  /** The page shown lies in its pager's window of links whenever it is one of
      the catalog's pages. */
  lemma IndexPageInWindow(games: seq<Game>, pg: int)
    requires |games| <= MaxInt32 && IsInt32(pg)
    ensures var p := Index(games, pg).pager;
      p.startPage >= 1 && p.endPage <= p.totalPages && p.endPage - p.startPage <= 9 &&
      (ClampPage(pg) <= p.totalPages ==> p.startPage <= ClampPage(pg) <= p.endPage)
  {
    NewPagerFields(|games|, ClampPage(pg), PageSize);
  }

  /** As long as the record skip fits in an int, the written action is the
      exact one. */
  lemma IndexAsWrittenAgrees(games: seq<Game>, pg: int)
    requires |games| <= MaxInt32 && IsInt32(pg)
    requires (ClampPage(pg) - 1) * PageSize <= MaxInt32
    ensures IndexAsWritten(games, pg) == Index(games, pg)
  {
    NewPagerAsWrittenAgrees(|games|, ClampPage(pg), PageSize);
  }

  /** From page 238609296 on the skip (pg - 1) * 9 exceeds int.MaxValue; on
      that page it wraps to -2147483641, Skip of a negative count keeps
      everything, and the written action shows the first games of the catalog
      where the exact one shows none. */
  lemma IndexAsWrittenWraps(games: seq<Game>)
    requires 1 <= |games| <= MaxInt32
    ensures Wrap32((238609296 - 1) * PageSize) == -2147483641
    ensures IndexAsWritten(games, 238609296).shown == games[..Min(PageSize, |games|)]
    ensures Index(games, 238609296).shown == []
  {
  }

  // ----- search -----

  /** ASCII case folding: the characters OrdinalIgnoreCase equates in the
      Basic Latin range. */
  function FoldChar(c: char): char {
    if 'A' <= c <= 'Z' then (c as int + 32) as char else c
  }

  /** Equal strings up to case. */
  predicate EqualsIgnoreCase(a: string, b: string) {
    |a| == |b| && forall i :: 0 <= i < |a| ==> FoldChar(a[i]) == FoldChar(b[i])
  }

  /** pattern occurs in text at position i, up to case. */
  predicate OccursAt(text: string, pattern: string, i: int) {
    0 <= i <= |text| - |pattern| && EqualsIgnoreCase(text[i..i + |pattern|], pattern)
  }

  /** text contains pattern at some position, up to case. */
  ghost predicate ContainsIgnoreCase(text: string, pattern: string) {
    exists i :: OccursAt(text, pattern, i)
  }

  predicate StartsWithIgnoreCase(text: string, pattern: string) {
    |pattern| <= |text| && EqualsIgnoreCase(text[..|pattern|], pattern)
  }

  /** string.Contains(pattern, StringComparison.OrdinalIgnoreCase): try each
      starting position in turn. */
  function Contains(text: string, pattern: string): (r: bool)
    decreases |text|
  {
    StartsWithIgnoreCase(text, pattern) || (text != [] && Contains(text[1..], pattern))
  }

  /** An occurrence in the tail is an occurrence one position further on. */
  lemma OccursShift(text: string, pattern: string, i: nat)
    requires text != []
    ensures OccursAt(text[1..], pattern, i) <==> OccursAt(text, pattern, i + 1)
  {
    if i <= |text[1..]| - |pattern| {
      assert text[1..][i..i + |pattern|] == text[i + 1..i + 1 + |pattern|];
    }
  }

  /** Contains finds exactly the occurrences ContainsIgnoreCase describes. */
  lemma {:induction false} ContainsCorrect(text: string, pattern: string)
    ensures Contains(text, pattern) <==> ContainsIgnoreCase(text, pattern)
    decreases |text|
  {
    if StartsWithIgnoreCase(text, pattern) {
      assert text[0..0 + |pattern|] == text[..|pattern|];
      assert OccursAt(text, pattern, 0);
    } else if text != [] {
      ContainsCorrect(text[1..], pattern);
      if ContainsIgnoreCase(text[1..], pattern) {
        var i :| OccursAt(text[1..], pattern, i);
        OccursShift(text, pattern, i);
      }
      if ContainsIgnoreCase(text, pattern) {
        var i :| OccursAt(text, pattern, i);
        if i > 0 {
          OccursShift(text, pattern, i - 1);
        }
      }
    }
  }

  /** x => x.Name.Contains(s, OrdinalIgnoreCase) || x.Description.Contains(s, OrdinalIgnoreCase) */
  function MatchesSearch(search: string): (p: Game -> bool) {
    (g: Game) => Contains(g.name, search) || Contains(g.description, search)
  }

  /** A game matches a search exactly when its name or its description
      contains the search string up to case. */
  lemma MatchesSearchCorrect(search: string)
    ensures forall g: Game :: MatchesSearch(search)(g) <==>
      ContainsIgnoreCase(g.name, search) || ContainsIgnoreCase(g.description, search)
  {
    forall g: Game ensures MatchesSearch(search)(g) <==>
      ContainsIgnoreCase(g.name, search) || ContainsIgnoreCase(g.description, search)
    {
      ContainsCorrect(g.name, search);
      ContainsCorrect(g.description, search);
    }
  }

  /** Filter(searchString): the whole catalog for a missing (null) or empty
      search string, otherwise the games whose name or description contains it
      up to case. */
  function Filter(games: seq<Game>, search: Option<string>): (r: seq<Game>)
    ensures search.None? || search.value == "" ==> r == games
    ensures search.Some? && search.value != "" ==>
      forall g :: g in r <==> g in games && (ContainsIgnoreCase(g.name, search.value) || ContainsIgnoreCase(g.description, search.value))
  {
    if search.None? || search.value == "" then games
    else
      var s := search.value;
      MatchesSearchCorrect(s);
      Where(games, MatchesSearch(s))
  }

  /** The filtered list keeps catalog order and each game's multiplicity in
      the catalog when it matches. */
  lemma FilterOrder(games: seq<Game>, search: Option<string>, g: Game)
    ensures IsSubsequence(Filter(games, search), games)
    ensures search.Some? && search.value != "" ==>
      multiset(Filter(games, search))[g] == if MatchesSearch(search.value)(g) then multiset(games)[g] else 0
  {
    if search.None? || search.value == "" {
      IsSubsequenceRefl(games);
    } else {
      WhereIsSubsequence(games, MatchesSearch(search.value));
      WhereMultiplicity(games, MatchesSearch(search.value), g);
    }
  }
}
