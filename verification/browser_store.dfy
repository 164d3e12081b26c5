/**
 * The browser store: a history of loaded pages, newest first, and the list of
 * visited DApp URLs, newest first and without repetition. The store object is
 * `Store`; `BrowserState`, `Action` and `Step` describe the same state and
 * actions as values, so that properties of whole runs can be stated.
 */
module BrowserStore {

  datatype HistoryEntry = HistoryEntry(
    url: string,
    title: string,
    favicon: string,
    timestamp: int,
    isDapp: bool)

  /** The store's two data fields. */
  datatype BrowserState = BrowserState(history: seq<HistoryEntry>, visitedDapps: seq<string>)

  /** The store's three actions. */
  datatype Action =
    | AddToHistory(entry: HistoryEntry)
    | AddVisitedDapp(url: string)
    | ClearHistory

  /** Both lists start empty. */
  const Initial: BrowserState := BrowserState([], [])

  predicate NoDuplicates<T(==)>(s: seq<T>)
  {
    forall i, j :: 0 <= i < j < |s| ==> s[i] != s[j]
  }

  /** `visitedDapps` after visiting `url`: unchanged if present, else `url` in front. */
  function Visit(visited: seq<string>, url: string): (r: seq<string>)
    ensures forall u :: u in r <==> u == url || u in visited
    ensures |r| == if url in visited then |visited| else |visited| + 1
    ensures r[0] == url || url in visited
    ensures visited == r[|r| - |visited|..]
    ensures NoDuplicates(visited) ==> NoDuplicates(r)
  {
    if url in visited then visited else [url] + visited
  }

  /** Visiting the same URL twice is the same as visiting it once. */
  lemma VisitIdempotent(visited: seq<string>, url: string)
    ensures Visit(Visit(visited, url), url) == Visit(visited, url)
  {
  }

  /** The state after one action. */
  function Step(s: BrowserState, a: Action): BrowserState
  {
    match a
    case AddToHistory(entry) => s.(history := [entry] + s.history)
    case AddVisitedDapp(url) => s.(visitedDapps := Visit(s.visitedDapps, url))
    case ClearHistory => s.(history := [])
  }

  /** The state after a run of actions, first action first. */
  function Run(s: BrowserState, actions: seq<Action>): BrowserState
    decreases |actions|
  {
    if actions == [] then s else Run(Step(s, actions[0]), actions[1..])
  }

  /** Each action changes its own field only. */
  lemma StepFrame(s: BrowserState, a: Action)
    ensures a.AddToHistory? ==> Step(s, a).visitedDapps == s.visitedDapps
    ensures a.ClearHistory? ==> Step(s, a).visitedDapps == s.visitedDapps
    ensures a.AddVisitedDapp? ==> Step(s, a).history == s.history
  {
  }

  /** `visitedDapps` never holds a URL twice, whatever the actions. */
  lemma {:induction false} RunKeepsNoDuplicates(s: BrowserState, actions: seq<Action>)
    requires NoDuplicates(s.visitedDapps)
    ensures NoDuplicates(Run(s, actions).visitedDapps)
    decreases |actions|
  {
    if actions != [] {
      RunKeepsNoDuplicates(Step(s, actions[0]), actions[1..]);
    }
  }

  /** From the initial state, in particular, there are never duplicates. */
  lemma ReachableHasNoDuplicates(actions: seq<Action>)
    ensures NoDuplicates(Run(Initial, actions).visitedDapps)
  {
    RunKeepsNoDuplicates(Initial, actions);
  }

  /** A URL is in `visitedDapps` iff it was there before or some action visited it. */
  lemma {:induction false} RunVisitedExactly(s: BrowserState, actions: seq<Action>, u: string)
    ensures u in Run(s, actions).visitedDapps <==> u in s.visitedDapps || AddVisitedDapp(u) in actions
    decreases |actions|
  {
    if actions != [] {
      RunVisitedExactly(Step(s, actions[0]), actions[1..], u);
      assert actions == [actions[0]] + actions[1..];
    }
  }

  /** The entries of the AddToHistory actions after the last ClearHistory, newest first. */
  function EntriesSinceClear(actions: seq<Action>): seq<HistoryEntry>
    decreases |actions|
  {
    if actions == [] then []
    else
      var last := actions[|actions| - 1];
      var rest := actions[..|actions| - 1];
      match last
      case AddToHistory(entry) => [entry] + EntriesSinceClear(rest)
      case AddVisitedDapp(_) => EntriesSinceClear(rest)
      case ClearHistory => []
  }

  /** One more action at the end of a run is one more Step. */
  lemma {:induction false} RunSnoc(s: BrowserState, actions: seq<Action>, a: Action)
    ensures Run(s, actions + [a]) == Step(Run(s, actions), a)
    decreases |actions|
  {
    if actions != [] {
      assert (actions + [a])[1..] == actions[1..] + [a];
      RunSnoc(Step(s, actions[0]), actions[1..], a);
    } else {
      assert [a][1..] == [];
    }
  }

  /**
   * `history` is exactly the entries added since the last ClearHistory, newest
   * first: it never deduplicates and never reorders.
   */
  lemma {:induction false} RunHistory(actions: seq<Action>)
    ensures Run(Initial, actions).history == EntriesSinceClear(actions)
    decreases |actions|
  {
    if actions != [] {
      var rest := actions[..|actions| - 1];
      var last := actions[|actions| - 1];
      assert actions == rest + [last];
      RunSnoc(Initial, rest, last);
      RunHistory(rest);
    }
  }

  /** The store object: two lists updated in place by its actions. */
  class Store {
    var history: seq<HistoryEntry>
    var visitedDapps: seq<string>

    /** The store's invariant: no URL is listed twice among the visited DApps. */
    ghost predicate Valid()
      reads this
    {
      NoDuplicates(visitedDapps)
    }

    function State(): BrowserState
      reads this
    {
      BrowserState(history, visitedDapps)
    }

    constructor ()
      ensures Valid()
      ensures history == [] && visitedDapps == []
      ensures State() == Initial
    {
      history := [];
      visitedDapps := [];
    }

    /** Prepends the entry; never deduplicates; `visitedDapps` is untouched. */
    method AddToHistory(entry: HistoryEntry)
      requires Valid()
      modifies this
      ensures Valid()
      ensures history == [entry] + old(history)
      ensures |history| == |old(history)| + 1
      ensures visitedDapps == old(visitedDapps)
      ensures State() == Step(old(State()), Action.AddToHistory(entry))
    {
      history := [entry] + history;
    }

    /** Prepends the URL unless already listed; `history` is untouched. */
    method AddVisitedDapp(url: string)
      requires Valid()
      modifies this
      ensures Valid()
      ensures url in old(visitedDapps) ==> visitedDapps == old(visitedDapps)
      ensures url !in old(visitedDapps) ==> visitedDapps == [url] + old(visitedDapps)
      ensures history == old(history)
      ensures State() == Step(old(State()), Action.AddVisitedDapp(url))
    {
      visitedDapps := if url in visitedDapps then visitedDapps else [url] + visitedDapps;
    }

    /** Empties `history`; `visitedDapps` is untouched. */
    method ClearHistory()
      requires Valid()
      modifies this
      ensures Valid()
      ensures history == []
      ensures visitedDapps == old(visitedDapps)
      ensures State() == Step(old(State()), Action.ClearHistory)
    {
      history := [];
    }
  }
}
