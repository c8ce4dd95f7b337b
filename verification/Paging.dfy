/**
 * The paginator behind log and metric searches, the matchers, and the streaming search loop that stops
 * reading as soon as the page is full.
 */
module Paging {
  import opened Prelude

  datatype EntryPage<T> = EntryPage(entries: seq<T>, next: Option<int>)

  datatype EntryPaging = EntryPaging(from: Option<int>, pageSize: Option<int>)

  const MAX_PAGE_SIZE: int := 1000

  function GetOr(o: Option<int>, default: int): int {
    if o.Some? then o.value else default
  }

  // The reference: filter, drop, take

  function Filter<T>(isMatch: T -> bool, s: seq<T>): (r: seq<T>)
    ensures |r| <= |s|
  {
    if s == [] then []
    else
      var n := |s| - 1;
      Filter(isMatch, s[..n]) + (if isMatch(s[n]) then [s[n]] else [])
  }

  function Take<T>(n: nat, s: seq<T>): seq<T> {
    if |s| <= n then s else s[..n]
  }

  function Drop<T>(n: nat, s: seq<T>): seq<T> {
    if |s| <= n then [] else s[n..]
  }

  function FirstIndex(paging: EntryPaging): nat {
    Max(0, GetOr(paging.from, 0))
  }

  function Size(paging: EntryPaging): int {
    Min(MAX_PAGE_SIZE, GetOr(paging.pageSize, MAX_PAGE_SIZE))
  }

  /** The page of a request, for every pair of integers the request may hold. */
  function Page<T>(matches: seq<T>, from: nat, size: int): EntryPage<T> {
    if size >= 1 then
      var entries := Take(size, Drop(from, matches));
      EntryPage(entries, if |entries| == size then Some(from + size + 1) else None)
    else if size < 0 then EntryPage(Drop(from, matches), None)
    else if matches == [] then EntryPage([], Some(1))
    else if from == 0 then EntryPage(matches, None)
    else EntryPage([], Some(2))
  }

  /**
   * What a request for a page means, in the words of the interface: `from` counts matches from 0 and is 0 by
   * default, `pageSize` is 1000 by default and at most, and `next` announces that the page is full.
   */
  ghost predicate IsRequestedPage<T>(matches: seq<T>, paging: EntryPaging, page: EntryPage<T>) {
    var from := if paging.from.Some? && paging.from.value >= 0 then paging.from.value else 0;
    var size := if paging.pageSize.Some? && paging.pageSize.value <= 1000 then paging.pageSize.value else 1000;
    size >= 1 ==>
      && |page.entries| ==
           (if |matches| <= from then 0 else if |matches| - from <= size then |matches| - from else size)
      && (forall k :: 0 <= k < |page.entries| ==> page.entries[k] == matches[from + k])
      && page.next == if |page.entries| == size then Some(from + size + 1) else None
  }

  /** The page by filter, drop and take is the one that was asked for. */
  lemma {:induction false} PageIsRequested<T>(matches: seq<T>, paging: EntryPaging)
    ensures IsRequestedPage(matches, paging, Page(matches, FirstIndex(paging), Size(paging)))
  {
  }

  // The program

  class Paginator<T> {
    const isMatch: T -> bool
    const fromIdx: int
    const pageSize: int
    var matchedCounter: nat
    var matchedEntries: seq<T>

    constructor (isMatch: T -> bool, paging: EntryPaging, maxPageSize: int)
      ensures this.isMatch == isMatch && fromIdx == if paging.from.Some? then paging.from.value else 0
      ensures pageSize == if paging.pageSize.Some? && paging.pageSize.value <= maxPageSize
                          then paging.pageSize.value else maxPageSize
      ensures matchedCounter == 0 && matchedEntries == []
    {
      this.isMatch := isMatch;
      fromIdx := GetOr(paging.from, 0);
      pageSize := Min(maxPageSize, GetOr(paging.pageSize, maxPageSize));
      matchedCounter := 0;
      matchedEntries := [];
    }

    /** The fields are what they should be when `matches` have been met. */
    ghost predicate Follows(matches: seq<T>)
      reads this
    {
      matchedCounter == |matches| && matchedEntries == Drop(Max(0, fromIdx), matches)
    }

    method Process(entry: T, ghost matches: seq<T>) returns (isDone: bool)
      requires Follows(matches)
      modifies this`matchedCounter, this`matchedEntries
      ensures Follows(if isMatch(entry) then matches + [entry] else matches)
      ensures isDone <==> isMatch(entry) && |matchedEntries| == pageSize
    {
      if !isMatch(entry) {
        return false;
      }
      matchedCounter := matchedCounter + 1;
      if matchedCounter - 1 >= fromIdx {
        matchedEntries := matchedEntries + [entry];
      }
      isDone := |matchedEntries| == pageSize;
    }

    method Build() returns (page: EntryPage<T>)
      ensures page.entries == matchedEntries
      ensures page.next == if |matchedEntries| == pageSize then Some(matchedCounter + 1) else None
    {
      page := EntryPage(matchedEntries, if |matchedEntries| == pageSize then Some(matchedCounter + 1) else None);
    }
  }

  lemma {:induction false} FilterAppend<T>(isMatch: T -> bool, a: seq<T>, b: seq<T>)
    ensures Filter(isMatch, a + b) == Filter(isMatch, a) + Filter(isMatch, b)
    decreases |b|
  {
    if b == [] {
      assert a + b == a;
    } else {
      var n := |b| - 1;
      assert (a + b)[..|a| + n] == a + b[..n];
      FilterAppend(isMatch, a, b[..n]);
    }
  }

  /** The loop reads on: the page is not full, and no later entry can make it full without being noticed. */
  predicate Open<T>(matches: seq<T>, from: nat, size: int) {
    && (size >= 1 ==> |Drop(from, matches)| < size)
    && (size == 0 ==> matches == [] || from == 0)
  }

  /** The early break loses nothing: what is not read could not have been on the page. */
  lemma {:induction false} BreakIsFinal<T>(matches: seq<T>, entry: T, rest: seq<T>, from: nat, size: int)
    requires Open(matches, from, size) && |Drop(from, matches + [entry])| == size
    ensures Page(matches + [entry] + rest, from, size) ==
            EntryPage(Drop(from, matches + [entry]), Some(|matches| + 2))
  {
    var seen := matches + [entry];
    if size >= 1 {
      assert |seen| == from + size;
      assert Drop(from, seen + rest) == Drop(from, seen) + rest;
    }
  }

  lemma EndIsFinal<T>(matches: seq<T>, from: nat, size: int)
    requires Open(matches, from, size)
    ensures Page(matches, from, size) ==
            EntryPage(Drop(from, matches), if |Drop(from, matches)| == size then Some(|matches| + 1) else None)
  {
  }

  lemma StillOpen<T>(matches: seq<T>, entry: T, from: nat, size: int)
    requires Open(matches, from, size) && |Drop(from, matches + [entry])| != size
    ensures Open(matches + [entry], from, size)
  {
  }

  lemma NothingMet<T>(isMatch: T -> bool, from: nat, size: int)
    ensures Filter(isMatch, []) == [] && Drop<T>(from, []) == [] && Open<T>([], from, size)
  {
  }

  /** The search of the log and metric providers, over the entries of one run's file. */
  method Search<T>(isMatch: T -> bool, paging: EntryPaging, entries: seq<T>) returns (page: EntryPage<T>)
    ensures page == Page(Filter(isMatch, entries), FirstIndex(paging), Size(paging))
    ensures IsRequestedPage(Filter(isMatch, entries), paging, page)
  {
    PageIsRequested(Filter(isMatch, entries), paging);
    var paginator := new Paginator(isMatch, paging, MAX_PAGE_SIZE);
    ghost var from, size := FirstIndex(paging), Size(paging);
    ghost var matches := [];
    hide Filter, Drop, Page, Open, IsRequestedPage;
    NothingMet(isMatch, from, size);
    assert entries[..0] == [];
    var i := 0;
    while i < |entries|
      invariant 0 <= i <= |entries|
      invariant paginator.isMatch == isMatch && Max(0, paginator.fromIdx) == from && paginator.pageSize == size
      invariant matches == Filter(isMatch, entries[..i]) && paginator.Follows(matches)
      invariant Open(matches, from, size)
      modifies paginator
    {
      FilterSplit(isMatch, entries, i);
      var isDone := paginator.Process(entries[i], matches);
      if isDone {
        BreakIsFinal(matches, entries[i], Filter(isMatch, entries[i + 1..]), from, size);
        page := paginator.Build();
        return;
      }
      if isMatch(entries[i]) {
        StillOpen(matches, entries[i], from, size);
        matches := matches + [entries[i]];
      }
      i := i + 1;
    }
    assert entries[..i] == entries;
    EndIsFinal(matches, from, size);
    page := paginator.Build();
  }

  lemma FilterLast<T>(isMatch: T -> bool, s: seq<T>, entry: T)
    ensures Filter(isMatch, s + [entry]) ==
            if isMatch(entry) then Filter(isMatch, s) + [entry] else Filter(isMatch, s)
  {
    assert (s + [entry])[..|s|] == s;
  }

  lemma SplitAt<T>(s: seq<T>, i: nat)
    requires i < |s|
    ensures s[..i + 1] == s[..i] + [s[i]]
    ensures s == s[..i + 1] + s[i + 1..]
  {
  }

  lemma FilterSplit<T>(isMatch: T -> bool, entries: seq<T>, i: nat)
    requires i < |entries|
    ensures Filter(isMatch, entries[..i + 1]) ==
            if isMatch(entries[i]) then Filter(isMatch, entries[..i]) + [entries[i]] else Filter(isMatch, entries[..i])
    ensures Filter(isMatch, entries) == Filter(isMatch, entries[..i + 1]) + Filter(isMatch, entries[i + 1..])
  {
    hide Filter;
    SplitAt(entries, i);
    FilterLast(isMatch, entries[..i], entries[i]);
    FilterAppend(isMatch, entries[..i + 1], entries[i + 1..]);
  }

  /** `at` are the positions, in ascending order, of the entries of s that make up `picked`. */
  ghost predicate Picks<T>(isMatch: T -> bool, s: seq<T>, at: seq<nat>, picked: seq<T>) {
    && |at| == |picked|
    && (forall j :: 0 <= j < |at| ==> at[j] < |s| && s[at[j]] == picked[j])
    && (forall j, k :: 0 <= j < k < |at| ==> at[j] < at[k])
    && (forall i :: 0 <= i < |s| ==> (isMatch(s[i]) <==> i in at))
  }

  lemma PickLast<T>(isMatch: T -> bool, s: seq<T>, at: seq<nat>, picked: seq<T>, entry: T)
    requires Picks(isMatch, s, at, picked) && isMatch(entry)
    ensures Picks(isMatch, s + [entry], at + [|s|], picked + [entry])
  {
    assert (s + [entry])[|s|] == entry && (at + [|s|])[|at|] == |s|;
  }

  lemma SkipLast<T>(isMatch: T -> bool, s: seq<T>, at: seq<nat>, picked: seq<T>, entry: T)
    requires Picks(isMatch, s, at, picked) && !isMatch(entry)
    ensures Picks(isMatch, s + [entry], at, picked)
  {
    assert |s| !in at;
  }

  /** The reference is right: exactly the matching entries are kept, in their order. */
  lemma {:induction false} FilterIsExact<T>(isMatch: T -> bool, s: seq<T>) returns (at: seq<nat>)
    ensures Picks(isMatch, s, at, Filter(isMatch, s))
  {
    at := [];
    if s != [] {
      hide Filter, Picks;
      var n := |s| - 1;
      at := FilterIsExact(isMatch, s[..n]);
      FilterLast(isMatch, s[..n], s[n]);
      assert s == s[..n] + [s[n]];
      if isMatch(s[n]) {
        PickLast(isMatch, s[..n], at, Filter(isMatch, s[..n]), s[n]);
        at := at + [n];
      } else {
        SkipLast(isMatch, s[..n], at, Filter(isMatch, s[..n]), s[n]);
      }
    }
  }

  /** A page never exceeds the size, unless the requested size is not positive and nothing is skipped. */
  lemma {:induction false} PageIsBounded<T>(matches: seq<T>, from: nat, size: int)
    ensures |Page(matches, from, size).entries| <= Max(0, size) <==>
            size >= 1 || |matches| <= from || (size == 0 && from > 0)
  {
  }

  /** The next page is announced if and only if this one is full. */
  lemma {:induction false} NextMarksFullPage<T>(matches: seq<T>, from: nat, size: int)
    requires size >= 1
    ensures var page := Page(matches, from, size);
            && (page.next.Some? <==> |page.entries| == size)
            && (page.next.Some? <==> from + size <= |matches|)
            && (page.next.Some? ==> page.next.value == from + size + 1)
  {
  }

  lemma {:induction false} FilterCongruent<T>(f: T -> bool, g: T -> bool, s: seq<T>)
    requires forall i :: 0 <= i < |s| ==> f(s[i]) == g(s[i])
    ensures Filter(f, s) == Filter(g, s)
  {
    if s != [] {
      FilterCongruent(f, g, s[..|s| - 1]);
    }
  }

  // Following the pages of a search

  /** The pages met when each page is followed by the one that begins at `next - back`. */
  function Chain<T>(matches: seq<T>, from: nat, size: int, back: nat): (pages: seq<EntryPage<T>>)
    requires size >= 1 && back <= 1
    decreases Max(0, |matches| - from)
  {
    var page := Page(matches, from, size);
    if page.next.Some? then [page] + Chain(matches, page.next.value - back, size, back) else [page]
  }

  function Joined<T>(pages: seq<EntryPage<T>>): seq<T> {
    if pages == [] then [] else pages[0].entries + Joined(pages[1..])
  }

  lemma ChainStep<T>(matches: seq<T>, from: nat, size: int)
    requires size >= 1 && from <= |matches|
    ensures var pages := Chain(matches, from, size, 1);
            if from + size <= |matches|
            then pages == [Page(matches, from, size)] + Chain(matches, from + size, size, 1) &&
                 Page(matches, from, size).entries == matches[from..from + size]
            else pages == [Page(matches, from, size)] && Page(matches, from, size).entries == matches[from..]
  {
  }

  lemma JoinedStep<T>(page: EntryPage<T>, rest: seq<EntryPage<T>>)
    ensures Joined([page] + rest) == page.entries + Joined(rest)
  {
    assert ([page] + rest)[1..] == rest;
  }

  lemma {:induction false} ChainIsComplete<T>(matches: seq<T>, from: nat, size: int)
    requires size >= 1 && from <= |matches|
    ensures Joined(Chain(matches, from, size, 1)) == matches[from..]
    decreases |matches| - from
  {
    hide Chain, Joined, Page;
    var page := Page(matches, from, size);
    ChainStep(matches, from, size);
    if from + size <= |matches| {
      var rest := Chain(matches, from + size, size, 1);
      ChainIsComplete(matches, from + size, size);
      JoinedStep(page, rest);
      assert matches[from..] == matches[from..from + size] + matches[from + size..];
    } else {
      JoinedStep(page, []);
      NothingJoined<T>();
      assert [page] + [] == [page];
    }
  }

  lemma NothingJoined<T>()
    ensures Joined<T>([]) == []
  {
  }

  lemma {:induction false} ChainCount<T>(matches: seq<T>, from: nat, size: int)
    requires size >= 1 && from <= |matches|
    ensures var n := |Chain(matches, from, size, 1)|;
            n >= 1 && (n - 1) * size <= |matches| - from < n * size
    decreases |matches| - from
  {
    hide Chain, Page;
    ChainStep(matches, from, size);
    if from + size <= |matches| {
      ChainCount(matches, from + size, size);
    }
  }

  /**
   * Pages from 0, each beginning at the `next - 1` of the one before, hold every match exactly once and in
   * order. There are n of them with (n - 1) * p <= M < n * p, for M matches and page size p.
   */
  lemma {:induction false} PagesCoverTheMatches<T>(isMatch: T -> bool, entries: seq<T>, pageSize: Option<int>)
    requires pageSize.Some? ==> pageSize.value >= 1
    ensures var size := if pageSize.Some? && pageSize.value <= 1000 then pageSize.value else 1000;
            var matches := Filter(isMatch, entries);
            && Joined(Chain(matches, 0, size, 1)) == matches
            && var n := |Chain(matches, 0, size, 1)|; n >= 1 && (n - 1) * size <= |matches| < n * size
  {
    ChainIsComplete(Filter(isMatch, entries), 0, Size(EntryPaging(None, pageSize)));
    ChainCount(Filter(isMatch, entries), 0, Size(EntryPaging(None, pageSize)));
  }

  /** Beginning the second page at `next` itself skips the match between the two pages, and only that one. */
  lemma {:induction false} NextSkipsOneMatch<T>(matches: seq<T>, from: nat, size: int)
    requires size >= 1 && Page(matches, from, size).next.Some?
    ensures var page := Page(matches, from, size);
            var following := Page(matches, page.next.value, size).entries;
            && page.entries == matches[from..from + size]
            && following == (if from + size < |matches| then Take(size, matches[from + size + 1..]) else [])
  {
  }

  /** Chaining by `next` is complete exactly when no page but the last announces a further match. */
  lemma {:induction false} ChainByNextIsComplete<T>(matches: seq<T>, from: nat, size: int)
    requires size >= 1 && from <= |matches|
    ensures |Joined(Chain(matches, from, size, 0))| <= |matches| - from
    ensures Joined(Chain(matches, from, size, 0)) == matches[from..] <==> |matches| - from <= size
  {
    var page, pages := Page(matches, from, size), Chain(matches, from, size, 0);
    if page.next.Some? {
      var rest := Chain(matches, from + size + 1, size, 0);
      assert pages == [page] + rest && pages[1..] == rest;
      if from + size + 1 <= |matches| {
        ChainByNextShort(matches, from + size + 1, size);
      } else {
        assert rest == [Page(matches, from + size + 1, size)] && rest[1..] == [];
        assert Joined(rest) == [];
      }
    } else {
      assert pages == [page] && pages[1..] == [];
    }
  }

  lemma {:induction false} ChainByNextShort<T>(matches: seq<T>, from: nat, size: int)
    requires size >= 1
    ensures |Joined(Chain(matches, from, size, 0))| <= Max(0, |matches| - from)
    decreases Max(0, |matches| - from)
  {
    hide Joined;
    var page := Page(matches, from, size);
    if page.next.Some? {
      var rest := Chain(matches, from + size + 1, size, 0);
      ChainByNextShort(matches, from + size + 1, size);
      JoinedStep(page, rest);
    } else {
      JoinedStep(page, []);
      NothingJoined<T>();
      assert [page] + [] == [page];
    }
  }

  // Log and metric searches

  datatype LogEntry = LogEntry(time: int, content: string)

  /** Dates are in milliseconds. */
  datatype EntrySearch = EntrySearch(fromDate: Option<int>, toDate: Option<int>, searchTerm: Option<string>)

  ghost predicate InWindow(search: EntrySearch, time: int) {
    && (search.fromDate.Some? ==> search.fromDate.value <= time)
    && (search.toDate.Some? ==> time <= search.toDate.value)
  }

  /** matches: whether a pattern matches a text. An empty search term is no restriction. */
  ghost predicate IsSearched(search: EntrySearch, matches: (string, string) -> bool, entry: LogEntry) {
    && InWindow(search, entry.time)
    && (search.searchTerm.Some? && search.searchTerm.value != "" ==> matches(search.searchTerm.value, entry.content))
  }

  function LogCheckers(search: EntrySearch, matches: (string, string) -> bool): seq<LogEntry -> bool> {
    (if search.fromDate.Some? then [(entry: LogEntry) => entry.time >= search.fromDate.value] else []) +
    (if search.toDate.Some? then [(entry: LogEntry) => entry.time <= search.toDate.value] else []) +
    (if search.searchTerm.Some? && search.searchTerm.value != ""
     then [(entry: LogEntry) => matches(search.searchTerm.value, entry.content)] else [])
  }

  predicate PassesAll<T>(checkers: seq<T -> bool>, entry: T) {
    if checkers == [] then true
    else if !checkers[0](entry) then false
    else PassesAll(checkers[1..], entry)
  }

  lemma {:induction false} PassesBoth<T>(a: seq<T -> bool>, b: seq<T -> bool>, entry: T)
    ensures PassesAll(a + b, entry) <==> PassesAll(a, entry) && PassesAll(b, entry)
  {
    if a == [] {
      assert a + b == b;
    } else {
      assert (a + b)[1..] == a[1..] + b;
      PassesBoth(a[1..], b, entry);
    }
  }

  lemma {:induction false} CheckersAreExact(search: EntrySearch, matches: (string, string) -> bool, entry: LogEntry)
    ensures PassesAll(LogCheckers(search, matches), entry) <==> IsSearched(search, matches, entry)
  {
    var from := if search.fromDate.Some? then [(entry: LogEntry) => entry.time >= search.fromDate.value] else [];
    var to := if search.toDate.Some? then [(entry: LogEntry) => entry.time <= search.toDate.value] else [];
    var term := if search.searchTerm.Some? && search.searchTerm.value != ""
                then [(entry: LogEntry) => matches(search.searchTerm.value, entry.content)] else [];
    PassesBoth(from, to, entry);
    PassesBoth(from + to, term, entry);
  }

  method SearchLog(search: EntrySearch, paging: EntryPaging, matches: (string, string) -> bool, entries: seq<LogEntry>)
    returns (page: EntryPage<LogEntry>)
    ensures IsRequestedPage(Filter(entry => IsSearched(search, matches, entry), entries), paging, page)
  {
    hide IsRequestedPage, Page, Filter;
    var isMatch := (entry: LogEntry) => PassesAll(LogCheckers(search, matches), entry);
    page := Search(isMatch, paging, entries);
    forall i | 0 <= i < |entries| ensures isMatch(entries[i]) <==> IsSearched(search, matches, entries[i]) {
      CheckersAreExact(search, matches, entries[i]);
    }
    FilterCongruent(isMatch, entry => IsSearched(search, matches, entry), entries);
  }
}
