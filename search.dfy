/** Fuzzy ranking of symbols and the search worker that serves the search
    views (src/search.rs). The fuzzy scorer, an item's labelOf and its
    displayed text are parameters: `score(labelOf, query)` is the matcher's
    score, or None when the labelOf does not match. */
module Search {
  import opened Util
  import opened Programs
  import opened Events

  // ---------------------------------------------------------------------
  // Ranking
  // ---------------------------------------------------------------------

  /** An item that matched, its score, and its position in the input. */
  datatype Candidate<T> = Candidate(score: int, index: nat, item: T)

  /** `a` is ranked strictly ahead of `b`: a higher score; on equal scores
      a label shorter in UTF-8 bytes (`str::len`); on equal byte lengths,
      an earlier position (the sort is stable). */
  predicate Before<T>(a: Candidate<T>, b: Candidate<T>, labelOf: T -> string)
  {
    || a.score > b.score
    || (a.score == b.score && Utf8Len(labelOf(a.item)) < Utf8Len(labelOf(b.item)))
    || (a.score == b.score && Utf8Len(labelOf(a.item)) == Utf8Len(labelOf(b.item)) && a.index < b.index)
  }

  lemma BeforeTransitive<T>(a: Candidate<T>, b: Candidate<T>, c: Candidate<T>, labelOf: T -> string)
    requires Before(a, b, labelOf) && Before(b, c, labelOf)
    ensures Before(a, c, labelOf)
  {
  }

  /** The scored items among the first `k`, in input order. */
  function Candidates<T>(items: seq<T>, k: nat, query: string, labelOf: T -> string,
                         score: (string, string) -> Option<int>): (r: seq<Candidate<T>>)
    requires k <= |items|
    ensures |r| <= k
  {
    if k == 0 then []
    else
      var front := Candidates(items, k - 1, query, labelOf, score);
      match score(labelOf(items[k - 1]), query)
      case Some(s) => front + [Candidate(s, k - 1, items[k - 1])]
      case None => front
  }

  /** A candidate stands for a scored item at its own position, with its
      own score; and every scored item among the first `k` is a candidate. */
  lemma {:induction false} CandidatesExact<T>(items: seq<T>, k: nat, query: string, labelOf: T -> string,
                                              score: (string, string) -> Option<int>)
    requires k <= |items|
    ensures var cs := Candidates(items, k, query, labelOf, score);
      && (forall c :: c in cs ==>
            c.index < k && items[c.index] == c.item && score(labelOf(c.item), query) == Some(c.score))
      && (forall i :: 0 <= i < k && score(labelOf(items[i]), query).Some? ==>
            Candidate(score(labelOf(items[i]), query).value, i, items[i]) in cs)
  {
    if k > 0 {
      CandidatesExact(items, k - 1, query, labelOf, score);
    }
  }

  /** Candidates in ranking order: no later one is ranked ahead of an
      earlier one. */
  predicate Sorted<T>(s: seq<Candidate<T>>, labelOf: T -> string)
  {
    forall i, j :: 0 <= i < j < |s| ==> !Before(s[j], s[i], labelOf)
  }

  /** Puts `c` in front of the first element it is ranked ahead of. */
  function Insert<T>(c: Candidate<T>, s: seq<Candidate<T>>, labelOf: T -> string): seq<Candidate<T>>
  {
    if s == [] then [c]
    else if Before(c, s[0], labelOf) then [c] + s
    else [s[0]] + Insert(c, s[1..], labelOf)
  }

  /** Inserting adds exactly `c`. */
  lemma {:induction false} InsertMultiset<T>(c: Candidate<T>, s: seq<Candidate<T>>, labelOf: T -> string)
    ensures multiset(Insert(c, s, labelOf)) == multiset(s) + multiset{c}
  {
    if s != [] && !Before(c, s[0], labelOf) {
      InsertMultiset(c, s[1..], labelOf);
      assert s == [s[0]] + s[1..];
    }
  }

  /** Every element is ranked no further ahead than `x`. */
  predicate NoneAhead<T>(s: seq<Candidate<T>>, x: Candidate<T>, labelOf: T -> string)
  {
    forall j :: 0 <= j < |s| ==> !Before(s[j], x, labelOf)
  }

  /** A sorted sequence behind its first element. */
  lemma ConsSorted<T>(x: Candidate<T>, s: seq<Candidate<T>>, labelOf: T -> string)
    requires Sorted(s, labelOf) && NoneAhead(s, x, labelOf)
    ensures Sorted([x] + s, labelOf)
  {
    var r := [x] + s;
    forall i, j | 0 <= i < j < |r| ensures !Before(r[j], r[i], labelOf) {
      assert r[j] == s[j - 1];
      if i > 0 {
        assert r[i] == s[i - 1];
      }
    }
  }

  /** Inserting into a sorted sequence keeps it sorted. */
  lemma {:induction false} InsertSorted<T>(c: Candidate<T>, s: seq<Candidate<T>>, labelOf: T -> string)
    requires Sorted(s, labelOf)
    ensures Sorted(Insert(c, s, labelOf), labelOf)
  {
    if s == [] {
    } else if Before(c, s[0], labelOf) {
      forall j | 0 <= j < |s| ensures !Before(s[j], c, labelOf) {
        if j > 0 {
          assert !Before(s[j], s[0], labelOf);
        }
        if Before(s[j], c, labelOf) {
          BeforeTransitive(s[j], c, s[0], labelOf);
        }
      }
      ConsSorted(c, s, labelOf);
    } else {
      var rest := Insert(c, s[1..], labelOf);
      InsertSorted(c, s[1..], labelOf);
      InsertMultiset(c, s[1..], labelOf);
      forall j | 0 <= j < |rest| ensures !Before(rest[j], s[0], labelOf) {
        assert rest[j] in multiset(rest);
        if rest[j] != c {
          assert rest[j] in s[1..];
        }
      }
      ConsSorted(s[0], rest, labelOf);
    }
  }

  /** Insertion sort into ranking order. */
  function SortCandidates<T>(cs: seq<Candidate<T>>, labelOf: T -> string): (r: seq<Candidate<T>>)
  {
    if cs == [] then [] else Insert(cs[|cs| - 1], SortCandidates(cs[..|cs| - 1], labelOf), labelOf)
  }

  /** Sorting yields the same candidates, in ranking order. */
  lemma {:induction false} SortCandidatesFacts<T>(cs: seq<Candidate<T>>, labelOf: T -> string)
    ensures Sorted(SortCandidates(cs, labelOf), labelOf)
    ensures multiset(SortCandidates(cs, labelOf)) == multiset(cs)
    ensures |SortCandidates(cs, labelOf)| == |cs|
  {
    if cs != [] {
      var front := cs[..|cs| - 1];
      SortCandidatesFacts(front, labelOf);
      InsertSorted(cs[|cs| - 1], SortCandidates(front, labelOf), labelOf);
      InsertMultiset(cs[|cs| - 1], SortCandidates(front, labelOf), labelOf);
      assert cs == front + [cs[|cs| - 1]];
      assert |multiset(SortCandidates(cs, labelOf))| == |multiset(cs)|;
    }
  }

  /** The best `n` candidates, best first. */
  function TopCandidates<T>(items: seq<T>, query: string, n: nat, labelOf: T -> string,
                            score: (string, string) -> Option<int>): seq<Candidate<T>>
  {
    var sorted := SortCandidates(Candidates(items, |items|, query, labelOf, score), labelOf);
    if n < |sorted| then sorted[..n] else sorted
  }

  /** Each result is the item's text paired with the item. */
  function Present<T>(cs: seq<Candidate<T>>, display: T -> string): (r: seq<(string, Option<T>)>)
    ensures |r| == |cs|
    ensures forall k :: 0 <= k < |cs| ==> r[k] == (display(cs[k].item), Some(cs[k].item))
  {
    if cs == [] then [] else [(display(cs[0].item), Some(cs[0].item))] + Present(cs[1..], display)
  }

  function Ranked<T>(items: seq<T>, query: string, n: nat, labelOf: T -> string, display: T -> string,
                     score: (string, string) -> Option<int>): seq<(string, Option<T>)>
  {
    Present(TopCandidates(items, query, n, labelOf, score), display)
  }

  /** What the ranking promises: at most `n` results, only items the
      matcher scored (with that score), ordered by score descending, then
      by fewer label bytes, then by input position; as many as there are
      scored items when there are fewer than `n`; and they are the best
      `n`: no scored item left out ranks ahead of one kept. */
  lemma RankedMeaning<T>(items: seq<T>, query: string, n: nat, labelOf: T -> string,
                         score: (string, string) -> Option<int>)
    ensures var top := TopCandidates(items, query, n, labelOf, score);
      var scored := Candidates(items, |items|, query, labelOf, score);
      && |top| == (if n < |scored| then n else |scored|)
      && (forall c :: c in top ==>
            c.index < |items| && items[c.index] == c.item && score(labelOf(c.item), query) == Some(c.score))
      && (forall k, l :: 0 <= k < l < |top| ==>
            && top[k].score >= top[l].score
            && (top[k].score == top[l].score ==> Utf8Len(labelOf(top[k].item)) <= Utf8Len(labelOf(top[l].item)))
            && (top[k].score == top[l].score && Utf8Len(labelOf(top[k].item)) == Utf8Len(labelOf(top[l].item)) ==>
                  top[k].index <= top[l].index))
      && multiset(top) <= multiset(scored)
      && (forall c, k :: c in scored && c !in top && 0 <= k < |top| ==> !Before(c, top[k], labelOf))
  {
    var scored := Candidates(items, |items|, query, labelOf, score);
    var sorted := SortCandidates(scored, labelOf);
    SortCandidatesFacts(scored, labelOf);
    CandidatesExact(items, |items|, query, labelOf, score);
    var top := TopCandidates(items, query, n, labelOf, score);
    SortedPrefix(sorted, top, labelOf);
    forall c | c in top
      ensures c.index < |items| && items[c.index] == c.item && score(labelOf(c.item), query) == Some(c.score)
    {
      assert c in multiset(scored);
    }
    forall c | c in scored ensures c in sorted {
      assert c in multiset(sorted);
    }
  }

  /** A prefix `top` of a sorted sequence is sorted and holds its best
      elements: nothing after the prefix ranks ahead of anything in it. */
  lemma SortedPrefix<T>(sorted: seq<Candidate<T>>, top: seq<Candidate<T>>, labelOf: T -> string)
    requires Sorted(sorted, labelOf) && |top| <= |sorted| && top == sorted[..|top|]
    ensures Sorted(top, labelOf)
    ensures multiset(top) <= multiset(sorted)
    ensures forall c :: c in top ==> c in sorted
    ensures forall c, k :: c in sorted && c !in top && 0 <= k < |top| ==> !Before(c, top[k], labelOf)
  {
    var m := |top|;
    assert sorted == top + sorted[m..];
    assert forall i :: 0 <= i < m ==> sorted[i] in top;
    forall c, k | c in sorted && c !in top && 0 <= k < m
      ensures !Before(c, top[k], labelOf)
    {
      var j :| 0 <= j < |sorted| && sorted[j] == c;
      assert m <= j;
    }
  }

  /** The matcher scores no item the same as one with no score: an item
      with no score never appears. */
  lemma UnscoredNeverRanked<T>(items: seq<T>, query: string, n: nat, labelOf: T -> string,
                               score: (string, string) -> Option<int>, i: nat)
    requires i < |items| && score(labelOf(items[i]), query).None?
    ensures forall c :: c in TopCandidates(items, query, n, labelOf, score) ==> c.index != i
  {
    RankedMeaning(items, query, n, labelOf, score);
  }

  /** Cancellation is polled before items 0, 32, 64, ...; the ranking is
      abandoned at the first poll that reports it. */
  ghost predicate Cancelled(count: nat, cancelled: nat -> bool)
  {
    exists i :: 0 <= i < count && i % 32 == 0 && cancelled(i)
  }

  /** `rank_fn_with_cancellation`. `cancelled(i)` is what the cancellation
      check answers when polled before item `i`. */
  method RankWithCancellation<T>(items: seq<T>, query: string, n: nat, labelOf: T -> string, display: T -> string,
                                 score: (string, string) -> Option<int>, cancelled: nat -> bool)
    returns (r: Option<seq<(string, Option<T>)>>)
    ensures r.None? <==> Cancelled(|items|, cancelled)
    ensures r.Some? ==> r.value == Ranked(items, query, n, labelOf, display, score)
  {
    var candidates: seq<Candidate<T>> := [];
    var i := 0;
    while i < |items|
      invariant 0 <= i <= |items|
      invariant candidates == Candidates(items, i, query, labelOf, score)
      invariant forall k :: 0 <= k < i && k % 32 == 0 ==> !cancelled(k)
    {
      if i % 32 == 0 && cancelled(i) {
        return None;
      }
      match score(labelOf(items[i]), query) {
        case Some(s) => candidates := candidates + [Candidate(s, i, items[i])];
        case None =>
      }
      i := i + 1;
    }
    var sorted := SortCandidates(candidates, labelOf);
    r := Some(Present(if n < |sorted| then sorted[..n] else sorted, display));
  }

  /** `rank_fn`: ranking that is never cancelled, so it always answers. */
  method RankFn<T>(items: seq<T>, query: string, n: nat, labelOf: T -> string, display: T -> string,
                   score: (string, string) -> Option<int>)
    returns (r: seq<(string, Option<T>)>)
    ensures r == Ranked(items, query, n, labelOf, display, score)
  {
    var never := (i: nat) => false;
    var result := RankWithCancellation(items, query, n, labelOf, display, score, never);
    r := result.value;
  }

  // ---------------------------------------------------------------------
  // The searcher and its worker
  // ---------------------------------------------------------------------

  type Results = seq<(string, Option<SymbolInfo>)>

  datatype SearchCommand =
    | SetEmptySearchResults(results: Results)
    | SetFixedItems(items: seq<SymbolInfo>)
    | RunSearch(counter: nat, viewName: string, query: string, nResults: nat)
    | Exit

  /** Every search is tagged with a larger counter than the searches
      before it, and none with more than `counter`. */
  ghost predicate TagsIncreasing(commands: seq<SearchCommand>, counter: nat)
  {
    && (forall j :: 0 <= j < |commands| && commands[j].RunSearch? ==> commands[j].counter <= counter)
    && (forall j, k :: 0 <= j < k < |commands| && commands[j].RunSearch? && commands[k].RunSearch? ==>
          commands[j].counter < commands[k].counter)
  }

  /** At most one search sent so far is current, and only the last one. */
  lemma AtMostOneCurrent(commands: seq<SearchCommand>, counter: nat, j: nat)
    requires TagsIncreasing(commands, counter)
    requires j < |commands| && commands[j].RunSearch? && commands[j].counter == counter
    ensures forall k :: 0 <= k < |commands| && k != j && commands[k].RunSearch? ==> commands[k].counter < counter
  {
    forall k | 0 <= k < |commands| && k != j && commands[k].RunSearch?
      ensures commands[k].counter < counter
    {
      if k > j {
        assert false;
      }
    }
  }

  /** The view side of the searcher: the counter and the commands sent to
      the worker. */
  class Searcher {
    var counter: nat
    var commands: seq<SearchCommand>

    ghost predicate Valid()
      reads this
    {
      TagsIncreasing(commands, counter)
    }

    constructor ()
      ensures Valid() && counter == 0 && commands == []
    {
      counter := 0;
      commands := [];
    }

    /** New contents for the view: results for the empty query and items
      searched before the program's symbols. Searches sent earlier become
      stale. */
    method SetupSearch(emptySearchResults: Results, fixedItems: seq<SymbolInfo>)
      requires Valid()
      modifies this
      ensures Valid()
      ensures counter == old(counter) + 1
      ensures commands == old(commands) + [SetEmptySearchResults(emptySearchResults), SetFixedItems(fixedItems)]
    {
      counter := counter + 1;
      commands := commands + [SetEmptySearchResults(emptySearchResults), SetFixedItems(fixedItems)];
    }

    /** Ask for a search, tagged with the new counter value. */
    method Search(viewName: string, query: string, nResults: nat)
      requires Valid()
      modifies this
      ensures Valid()
      ensures counter == old(counter) + 1
      ensures commands == old(commands) + [RunSearch(counter, viewName, query, nResults)]
      ensures !IsCounterCurrent(old(counter))
    {
      counter := counter + 1;
      commands := commands + [RunSearch(counter, viewName, query, nResults)];
    }

    predicate IsCounterCurrent(c: nat)
      reads this
    {
      c == counter
    }
  }

  /** What the worker remembers between commands. */
  datatype WorkerState = WorkerState(emptySearchResults: Option<Results>, fixedItems: Option<seq<SymbolInfo>>)

  /** The worker's memory after command `cmd`. */
  function Remember(st: WorkerState, cmd: SearchCommand): WorkerState
  {
    match cmd
    case SetEmptySearchResults(results) => st.(emptySearchResults := Some(results))
    case SetFixedItems(items) => st.(fixedItems := Some(items))
    case _ => st
  }

  /** What one command does: Stop ends the worker, Reply sends an event and
      Skip sends nothing. */
  datatype Step = Stop | Reply(event: Event) | Skip

  /** The worker's answer to command `j`. `now(j)` is the counter when the
      command is taken, `seen(j, i)` the counter that the cancellation poll
      before item `i` of that search reads. A search needing state not sent
      yet stops the worker (the `unwrap` panics), as `Exit` does. */
  ghost function Answer(st: WorkerState, cmd: SearchCommand, j: nat, symbols: seq<SymbolInfo>,
                        now: nat -> nat, seen: (nat, nat) -> nat,
                        labelOf: SymbolInfo -> string, display: SymbolInfo -> string,
                        score: (string, string) -> Option<int>): Step
  {
    match cmd
    case Exit => Stop
    case SetEmptySearchResults(_) => Skip
    case SetFixedItems(_) => Skip
    case RunSearch(c, viewName, query, n) =>
      if c != now(j) then Skip
      else if query == "" then
        if st.emptySearchResults.None? then Stop
        else Reply(SearchResults(c, viewName, st.emptySearchResults.value))
      else if st.fixedItems.None? then Stop
      else if Cancelled(|st.fixedItems.value + symbols|, (i: nat) => c != seen(j, i)) then Skip
      else Reply(SearchResults(c, viewName, Ranked(st.fixedItems.value + symbols, query, n, labelOf, display, score)))
  }

  /** The events the worker sends for `commands[j..]`, starting in `st`. */
  ghost function Serve(commands: seq<SearchCommand>, j: nat, st: WorkerState, symbols: seq<SymbolInfo>,
                       now: nat -> nat, seen: (nat, nat) -> nat,
                       labelOf: SymbolInfo -> string, display: SymbolInfo -> string,
                       score: (string, string) -> Option<int>): seq<Event>
    decreases |commands| - j
  {
    if j >= |commands| then []
    else
      match Answer(st, commands[j], j, symbols, now, seen, labelOf, display, score)
      case Stop => []
      case Skip => Serve(commands, j + 1, Remember(st, commands[j]), symbols, now, seen, labelOf, display, score)
      case Reply(e) => [e] + Serve(commands, j + 1, Remember(st, commands[j]), symbols, now, seen, labelOf, display, score)
  }

  /** One pass of the worker loop for a command other than a settings
      update: what it sends, or that the worker stops. */
  method HandleCommand(st: WorkerState, cmd: SearchCommand, j: nat, symbols: seq<SymbolInfo>,
                       now: nat -> nat, seen: (nat, nat) -> nat,
                       labelOf: SymbolInfo -> string, display: SymbolInfo -> string,
                       score: (string, string) -> Option<int>)
    returns (step: Step)
    ensures step == Answer(st, cmd, j, symbols, now, seen, labelOf, display, score)
  {
    match cmd {
      case Exit =>
        return Stop;
      case SetEmptySearchResults(_) =>
        return Skip;
      case SetFixedItems(_) =>
        return Skip;
      case RunSearch(c, viewName, query, n) =>
        if c != now(j) {
          // not the latest search
          return Skip;
        }
        if query == "" {
          if st.emptySearchResults.None? {
            return Stop;
          }
          return Reply(SearchResults(c, viewName, st.emptySearchResults.value));
        }
        if st.fixedItems.None? {
          return Stop;
        }
        var polls := (i: nat) => c != seen(j, i);
        var results := RankWithCancellation(st.fixedItems.value + symbols, query, n, labelOf, display, score, polls);
        if results.None? {
          return Skip;
        }
        return Reply(SearchResults(c, viewName, results.value));
    }
  }

  /** `search_thread` without the thread: takes the commands in order and
      returns the events sent to the controller. */
  method SearchThread(commands: seq<SearchCommand>, symbols: seq<SymbolInfo>,
                      now: nat -> nat, seen: (nat, nat) -> nat,
                      labelOf: SymbolInfo -> string, display: SymbolInfo -> string,
                      score: (string, string) -> Option<int>)
    returns (sent: seq<Event>)
    ensures sent == Serve(commands, 0, WorkerState(None, None), symbols, now, seen, labelOf, display, score)
  {
    var emptySearchResults: Option<Results> := None;
    var fixedItems: Option<seq<SymbolInfo>> := None;
    sent := [];
    var j := 0;
    while j < |commands|
      invariant 0 <= j <= |commands|
      invariant sent + Serve(commands, j, WorkerState(emptySearchResults, fixedItems), symbols, now, seen, labelOf, display, score)
        == Serve(commands, 0, WorkerState(None, None), symbols, now, seen, labelOf, display, score)
    {
      var st := WorkerState(emptySearchResults, fixedItems);
      ghost var later := Serve(commands, j + 1, Remember(st, commands[j]), symbols, now, seen, labelOf, display, score);
      var step := HandleCommand(st, commands[j], j, symbols, now, seen, labelOf, display, score);
      match step {
        case Stop =>
          return;
        case Reply(e) =>
          assert Serve(commands, j, st, symbols, now, seen, labelOf, display, score) == [e] + later;
          sent := sent + [e];
        case Skip =>
          assert Serve(commands, j, st, symbols, now, seen, labelOf, display, score) == later;
      }
      match commands[j] {
        case SetEmptySearchResults(results) =>
          emptySearchResults := Some(results);
        case SetFixedItems(items) =>
          fixedItems := Some(items);
        case _ =>
      }
      assert WorkerState(emptySearchResults, fixedItems) == Remember(st, commands[j]);
      j := j + 1;
    }
  }

  /** Every search result the worker sends answers a search whose counter
      was current when the worker took it. */
  lemma {:induction false} RepliesAreCurrent(commands: seq<SearchCommand>, j: nat, st: WorkerState, symbols: seq<SymbolInfo>,
                                             now: nat -> nat, seen: (nat, nat) -> nat,
                                             labelOf: SymbolInfo -> string, display: SymbolInfo -> string,
                                             score: (string, string) -> Option<int>)
    ensures forall e :: e in Serve(commands, j, st, symbols, now, seen, labelOf, display, score) ==>
      e.SearchResults? &&
      exists k :: j <= k < |commands| && commands[k].RunSearch? && commands[k].counter == e.counter
        && now(k) == e.counter && commands[k].viewName == e.viewName
    decreases |commands| - j
  {
    if j < |commands| {
      RepliesAreCurrent(commands, j + 1, Remember(st, commands[j]), symbols, now, seen, labelOf, display, score);
    }
  }

  /** An empty query is answered with the stored results, without ranking. */
  lemma EmptyQueryAnswer(st: WorkerState, c: nat, viewName: string, n: nat, j: nat, symbols: seq<SymbolInfo>,
                         now: nat -> nat, seen: (nat, nat) -> nat,
                         labelOf: SymbolInfo -> string, display: SymbolInfo -> string,
                         score: (string, string) -> Option<int>)
    requires now(j) == c && st.emptySearchResults.Some?
    ensures Answer(st, RunSearch(c, viewName, "", n), j, symbols, now, seen, labelOf, display, score)
      == Reply(SearchResults(c, viewName, st.emptySearchResults.value))
  {
  }

  /** The fixed items are searched ahead of the symbols: when a fixed item
      and a symbol tie on score and label byte length, the fixed item is
      listed first. */
  lemma FixedItemsFirst(fixed: seq<SymbolInfo>, symbols: seq<SymbolInfo>, query: string, n: nat,
                        labelOf: SymbolInfo -> string, score: (string, string) -> Option<int>, k: nat, l: nat)
    requires var top := TopCandidates(fixed + symbols, query, n, labelOf, score);
      k < |top| && l < |top| && top[k].index < |fixed| <= top[l].index
      && top[k].score == top[l].score && Utf8Len(labelOf(top[k].item)) == Utf8Len(labelOf(top[l].item))
    ensures k < l
  {
    var top := TopCandidates(fixed + symbols, query, n, labelOf, score);
    RankedMeaning(fixed + symbols, query, n, labelOf, score);
  }
}
