/** `NewsTracker`: a per-country cache of news strings refreshed by one background
    loop and emptied by atomic drains.

    Every `async with self._lock` block in the source is a short synchronous map
    access, so each is one atomic step here. The refresh of one country is two
    such steps, reading the count (`CheckCount`) and later appending the fetched
    candidate (`Commit`); the fetch between them runs outside the lock, and any
    number of drains may happen there. The loop's position is part of the state,
    so an interleaving of the loop with callers is a sequence of `Event`s. */
module NewsTracker {
  import opened Base

  /** A country holding this many items is skipped by a refresh pass. */
  const Capacity: nat := 3

  /** Where the single refresh loop stands within a pass over `countries`. */
  datatype Loop =
    | AtKey(i: nat)     // about to read the count of countries[i]; i == |countries| ends the pass
    | Fetching(i: nat)  // the count of countries[i] was below Capacity; its fetch is outstanding

  /** The tracker's state: the configured countries, the two maps, and the
      background task (`None` until `start` creates it). */
  datatype Tracker = Tracker(
    countries: seq<string>,
    news: map<string, seq<string>>,
    missed: map<string, int>,
    task: Option<Loop>)

  /** What the fetch for one country produced: the agent's text, or the message
      of the exception it raised. */
  datatype FetchOutcome = Returned(text: string) | Threw(message: string)

  /** One atomic step of the system: a call by a client, or a locked step of the loop. */
  datatype Event =
    | Started               // a call of `start`
    | CountChecked          // the loop reads the current country's count
    | Committed(outcome: FetchOutcome)  // the loop appends the fetched candidate
    | Slept                 // the loop finishes a pass, sleeps, and begins the next
    | Drained(key: string)  // a call of `get_and_clear_news(key)`
    | DrainedAll            // a call of `get_and_clear_all_news`

  /** What a step makes visible outside the tracker. */
  datatype Output =
    | Silent
    | Spawned                                   // `start` created the refresh task
    | Skipped(key: string)                      // a full country was passed over
    | FetchIssued(key: string, query: string)   // the loop asked the agent for news
    | Items(key: string, items: seq<string>)    // what a single-key drain returned
    | AllItems(all: map<string, seq<string>>)   // what an all-key drain returned

  /** Every configured country has an entry in both maps. */
  predicate WellFormed(t: Tracker) {
    forall c :: c in t.countries ==> c in t.news && c in t.missed
  }

  predicate NoDuplicates(s: seq<string>) {
    forall i, j :: 0 <= i < j < |s| ==> s[i] != s[j]
  }

  /** The list a key holds, `news.get(key, [])`. */
  function Held(t: Tracker, key: string): seq<string> {
    if key in t.news then t.news[key] else []
  }

  /** The query the loop sends for a country. */
  function Query(country: string): string {
    "Latest financial news about " + country + " that will affect tarriffs and trade policies with " + country
  }

  /** The string the loop tries to store: the agent's text, or the error message
      built from the exception it raised. */
  function Candidate(o: FetchOutcome): (s: string)
    ensures o.Threw? ==> s != ""
  {
    match o
    case Returned(text) => text
    case Threw(message) => "Error fetching news: " + message
  }

  /** The state invariant: the properties every reachable state has. */
  predicate Inv(t: Tracker) {
    && WellFormed(t)
    && t.news.Keys == t.missed.Keys
    && (forall k :: k in t.news ==> |t.news[k]| <= Capacity)
    && (forall k :: k in t.news ==> NoDuplicates(t.news[k]))
    && (forall k :: k in t.news ==> "" !in t.news[k])
    && (forall k :: k in t.missed ==> t.missed[k] == 0)
    && (forall k :: k in t.news && k !in t.countries ==> t.news[k] == [])
    && LoopInRange(t)
    && PendingFits(t)
  }

  predicate LoopInRange(t: Tracker) {
    match t.task
    case None => true
    case Some(AtKey(i)) => i <= |t.countries|
    case Some(Fetching(i)) => i < |t.countries|
  }

  /** While a fetch is outstanding its country has room for one more item: drains
      only shrink lists and no other step appends to it. */
  predicate PendingFits(t: Tracker) {
    match t.task
    case Some(Fetching(i)) =>
      i < |t.countries| && t.countries[i] in t.news ==> |t.news[t.countries[i]]| < Capacity
    case _ => true
  }

  /** `NewsTracker(agent, countries)`: every country present with no news and a
      zero counter, and no task yet. */
  function Init(countries: seq<string>): (t: Tracker)
    ensures Inv(t) && t.task == None && t.countries == countries
    ensures t.news.Keys == set c | c in countries
    ensures forall k :: k in t.news ==> t.news[k] == []
  {
    Tracker(countries, map c | c in countries :: [], map c | c in countries :: 0, None)
  }

  /** `start`: creates the refresh task unless one exists; the maps are untouched. */
  function Start(t: Tracker): (r: (Tracker, Output))
    ensures r.0.task.Some?
    ensures r.0.news == t.news && r.0.missed == t.missed && r.0.countries == t.countries
    ensures r.1 == Spawned <==> t.task.None?
    ensures t.task.Some? ==> r == (t, Silent)
  {
    if t.task.None? then (t.(task := Some(AtKey(0))), Spawned) else (t, Silent)
  }

  predicate CanCheck(t: Tracker) {
    t.task.Some? && t.task.value.AtKey? && t.task.value.i < |t.countries|
  }

  predicate CanCommit(t: Tracker) {
    t.task.Some? && t.task.value.Fetching? && t.task.value.i < |t.countries|
  }

  /** The first locked block of a country's refresh: read its count, then either
      skip it (full) or issue its fetch. Nothing in the maps changes. */
  function CheckCount(t: Tracker): (r: (Tracker, Output))
    requires WellFormed(t) && CanCheck(t)
    ensures r.0.news == t.news && r.0.missed == t.missed && r.0.countries == t.countries
    ensures var i := t.task.value.i; var c := t.countries[i];
      if |t.news[c]| >= Capacity
      then r.1 == Skipped(c) && r.0.task == Some(AtKey(i + 1))
      else r.1 == FetchIssued(c, Query(c)) && r.0.task == Some(Fetching(i))
  {
    var i := t.task.value.i;
    var c := t.countries[i];
    if |t.news[c]| >= Capacity then (t.(task := Some(AtKey(i + 1))), Skipped(c))
    else (t.(task := Some(Fetching(i))), FetchIssued(c, Query(c)))
  }

  /** The second locked block: append the candidate when it is non-empty and not
      already held, then move on to the next country. No capacity re-check. */
  function Commit(t: Tracker, o: FetchOutcome): (r: Tracker)
    requires WellFormed(t) && CanCommit(t)
    ensures r.countries == t.countries && r.missed == t.missed && r.news.Keys == t.news.Keys
    ensures r.task == Some(AtKey(t.task.value.i + 1))
    ensures forall k :: k in t.news && k != t.countries[t.task.value.i] ==> r.news[k] == t.news[k]
    ensures var c := t.countries[t.task.value.i];
      r.news[c] == (if Candidate(o) != "" && Candidate(o) !in t.news[c] then t.news[c] + [Candidate(o)] else t.news[c])
  {
    var i := t.task.value.i;
    var c := t.countries[i];
    var s := Candidate(o);
    var news := if s != "" && s !in t.news[c] then t.news[c := t.news[c] + [s]] else t.news;
    t.(news := news, task := Some(AtKey(i + 1)))
  }

  /** The end of a pass: the loop sleeps and starts over at the first country. */
  function Sleep(t: Tracker): (r: Tracker)
    requires t.task == Some(AtKey(|t.countries|))
    ensures r.task == Some(AtKey(0)) && r.news == t.news && r.missed == t.missed && r.countries == t.countries
  {
    t.(task := Some(AtKey(0)))
  }

  /** `get_and_clear_news(key)`: returns what the key held (nothing for an unknown
      key) and leaves it holding nothing with a zero counter. An unknown key is
      inserted into both maps by this call. Nothing else changes. */
  function Drain(t: Tracker, key: string): (r: (Tracker, seq<string>))
    ensures r.1 == Held(t, key)
    ensures key in r.0.news && r.0.news[key] == [] && key in r.0.missed && r.0.missed[key] == 0
    ensures r.0.news.Keys == t.news.Keys + {key} && r.0.missed.Keys == t.missed.Keys + {key}
    ensures forall k :: k in t.news && k != key ==> r.0.news[k] == t.news[k]
    ensures forall k :: k in t.missed && k != key ==> r.0.missed[k] == t.missed[k]
    ensures r.0.countries == t.countries && r.0.task == t.task
  {
    var items := if key in t.news then t.news[key] else [];
    (t.(news := t.news[key := []], missed := t.missed[key := 0]), items)
  }

  /** `get_and_clear_all_news`: a copy of every key's list, taken before the
      configured countries are emptied and their counters zeroed. */
  function DrainAll(t: Tracker): (r: (Tracker, map<string, seq<string>>))
    ensures r.1 == t.news
    ensures r.0.news.Keys == t.news.Keys + (set c | c in t.countries)
    ensures r.0.missed.Keys == t.missed.Keys + (set c | c in t.countries)
    ensures forall c :: c in t.countries ==> r.0.news[c] == [] && r.0.missed[c] == 0
    ensures forall k :: k in t.news && k !in t.countries ==> r.0.news[k] == t.news[k]
    ensures forall k :: k in t.missed && k !in t.countries ==> r.0.missed[k] == t.missed[k]
    ensures r.0.countries == t.countries && r.0.task == t.task
  {
    var news := map k | k in t.news.Keys + (set c | c in t.countries) ::
      if k in t.countries then [] else t.news[k];
    var missed := map k | k in t.missed.Keys + (set c | c in t.countries) ::
      if k in t.countries then 0 else t.missed[k];
    (t.(news := news, missed := missed), t.news)
  }

  /** One step of the system. A loop event that does not match the loop's
      position (or comes before `start`) changes nothing. */
  function Next(t: Tracker, e: Event): (r: (Tracker, Output))
    requires WellFormed(t)
    ensures WellFormed(r.0) && r.0.countries == t.countries
    ensures t.task.Some? ==> r.0.task.Some?
    ensures r.1 == Spawned <==> e.Started? && t.task.None?
  {
    match e
    case Started => Start(t)
    case CountChecked => if CanCheck(t) then CheckCount(t) else (t, Silent)
    case Committed(o) => if CanCommit(t) then (Commit(t, o), Silent) else (t, Silent)
    case Slept => if t.task == Some(AtKey(|t.countries|)) then (Sleep(t), Silent) else (t, Silent)
    case Drained(key) => var d := Drain(t, key); (d.0, Items(key, d.1))
    case DrainedAll => var d := DrainAll(t); (d.0, AllItems(d.1))
  }

  /** A whole interleaving: the final state and one output per event. */
  function Run(t: Tracker, es: seq<Event>): (r: (Tracker, seq<Output>))
    requires WellFormed(t)
    ensures WellFormed(r.0) && r.0.countries == t.countries && |r.1| == |es|
    decreases |es|
  {
    if es == [] then (t, [])
    else
      var s := Next(t, es[0]);
      var rest := Run(s.0, es[1..]);
      (rest.0, [s.1] + rest.1)
  }

  /** Running two event sequences one after the other is running their concatenation. */
  lemma {:induction false} RunConcat(t: Tracker, a: seq<Event>, b: seq<Event>)
    requires WellFormed(t)
    ensures Run(t, a + b).0 == Run(Run(t, a).0, b).0
    ensures Run(t, a + b).1 == Run(t, a).1 + Run(Run(t, a).0, b).1
    decreases |a|
  {
    if a == [] {
      assert a + b == b;
    } else {
      assert (a + b)[0] == a[0] && (a + b)[1..] == a[1..] + b;
      RunConcat(Next(t, a[0]).0, a[1..], b);
    }
  }

  lemma CheckCountPreservesInv(t: Tracker)
    requires Inv(t) && CanCheck(t)
    ensures Inv(CheckCount(t).0)
  {
  }

  /** The append keeps the bound because the pending country had room when its
      count was read, and no step since has grown its list. */
  lemma CommitPreservesInv(t: Tracker, o: FetchOutcome)
    requires Inv(t) && CanCommit(t)
    ensures Inv(Commit(t, o))
  {
    var r := Commit(t, o);
    var c := t.countries[t.task.value.i];
    var s := Candidate(o);
    if s != "" && s !in t.news[c] {
      var l := t.news[c] + [s];
      assert r.news[c] == l;
      assert NoDuplicates(l) by {
        forall i, j | 0 <= i < j < |l| ensures l[i] != l[j] {
          if j == |l| - 1 { assert l[i] in t.news[c]; }
        }
      }
    }
  }

  lemma DrainPreservesInv(t: Tracker, key: string)
    requires Inv(t)
    ensures Inv(Drain(t, key).0)
  {
  }

  lemma DrainAllPreservesInv(t: Tracker)
    requires Inv(t)
    ensures Inv(DrainAll(t).0)
  {
  }

  /** Every step keeps the invariant, whatever the interleaving. */
  lemma NextPreservesInv(t: Tracker, e: Event)
    requires Inv(t)
    ensures Inv(Next(t, e).0)
  {
    match e
    case CountChecked => if CanCheck(t) { CheckCountPreservesInv(t); }
    case Committed(o) => if CanCommit(t) { CommitPreservesInv(t, o); }
    case Drained(key) => DrainPreservesInv(t, key);
    case DrainedAll => DrainAllPreservesInv(t);
    case _ =>
  }

  /** Both locked blocks of one country's refresh with no drain in between: the
      fetch is issued exactly when the country is below capacity, and only that
      country's list can change, by growing. */
  method VisitCountry(t: Tracker, o: FetchOutcome) returns (r: Tracker, issued: bool)
    requires WellFormed(t) && CanCheck(t)
    ensures WellFormed(r)
    ensures var i := t.task.value.i; var c := t.countries[i];
      && r.task == Some(AtKey(i + 1)) && r.countries == t.countries && r.missed == t.missed
      && c in r.news
      && (issued <==> |t.news[c]| < Capacity)
      && (forall k :: k in t.news && k != c ==> k in r.news && r.news[k] == t.news[k])
      && r.news.Keys == t.news.Keys
      && r.news[c] == (if issued && Candidate(o) != "" && Candidate(o) !in t.news[c]
                       then t.news[c] + [Candidate(o)] else t.news[c])
    ensures r == Visit(t, o)
  {
    var checked := CheckCount(t);
    if checked.1.FetchIssued? {
      r, issued := Commit(checked.0, o), true;
    } else {
      r, issued := checked.0, false;
    }
  }

  /** One country's refresh with nothing in between: the count check, then the
      commit when a fetch was issued. */
  function Visit(t: Tracker, o: FetchOutcome): (r: Tracker)
    requires WellFormed(t) && CanCheck(t)
    ensures WellFormed(r) && r.task == Some(AtKey(t.task.value.i + 1)) && r.countries == t.countries
  {
    var checked := CheckCount(t);
    if checked.1.FetchIssued? then Commit(checked.0, o) else checked.0
  }

  /** What `Visit` does to the maps: only the visited country's list can change,
      and it gains the answer exactly when it had room, the answer is non-empty
      and the list did not already hold it. */
  lemma VisitFacts(t: Tracker, o: FetchOutcome)
    requires WellFormed(t) && CanCheck(t)
    ensures var r := Visit(t, o); var c := t.countries[t.task.value.i]; var a := Candidate(o);
      && r.missed == t.missed
      && (forall k :: k in t.news && k != c ==> k in r.news && r.news[k] == t.news[k])
      && r.news.Keys == t.news.Keys
      && r.news[c] == (if |t.news[c]| < Capacity && a != "" && a !in t.news[c] then t.news[c] + [a] else t.news[c])
  {
    var checked := CheckCount(t);
    if checked.1.FetchIssued? {
      assert Visit(t, o) == Commit(checked.0, o);
    } else {
      assert Visit(t, o) == checked.0;
    }
  }

  /** `Visit` is the loop's two locked steps run back to back; after a skip the
      commit matches no pending fetch and changes nothing. */
  lemma VisitSteps(t: Tracker, o: FetchOutcome)
    requires WellFormed(t) && CanCheck(t)
    ensures Run(t, [CountChecked, Committed(o)]).0 == Visit(t, o)
  {
    var checked := CheckCount(t);
    assert Next(t, CountChecked) == checked;
    assert [CountChecked, Committed(o)][1..] == [Committed(o)];
    assert [Committed(o)][1..] == [];
    assert Run(t, [CountChecked, Committed(o)]).0 == Run(checked.0, [Committed(o)]).0;
    assert Run(checked.0, [Committed(o)]).0 == Next(checked.0, Committed(o)).0;
    if checked.1.FetchIssued? {
      assert CanCommit(checked.0);
    } else {
      assert !CanCommit(checked.0);
    }
  }

  /** The states of an undisturbed pass in which the agent answers `fetch(j)`
      for countries[j]: `s[j]` is the state before the visit of countries[j],
      and `s[n]` the state after the first `n` visits. */
  function PassStates(t: Tracker, fetch: nat -> FetchOutcome, n: nat): (s: seq<Tracker>)
    requires WellFormed(t) && t.task == Some(AtKey(0)) && n <= |t.countries|
    ensures |s| == n + 1 && s[0] == t
    ensures forall j :: 0 <= j <= n ==>
      WellFormed(s[j]) && s[j].task == Some(AtKey(j)) && s[j].countries == t.countries
  {
    if n == 0 then [t]
    else
      var m := n - 1;
      var p := PassStates(t, fetch, m);
      p + [Visit(p[m], fetch(m))]
  }

  /** The events of an undisturbed pass over the first `n` countries: each
      country's count check followed by the commit of its answer. */
  function PassEvents(fetch: nat -> FetchOutcome, n: nat): (es: seq<Event>)
    ensures |es| == 2 * n
  {
    if n == 0 then [] else PassEvents(fetch, n - 1) + [CountChecked, Committed(fetch(n - 1))]
  }

  /** The state after the first `n` visits of an undisturbed pass is what the
      step semantics gives for that pass's events. */
  lemma {:induction false} PassStatesAreRuns(t: Tracker, fetch: nat -> FetchOutcome, n: nat)
    requires WellFormed(t) && t.task == Some(AtKey(0)) && n <= |t.countries|
    ensures PassStates(t, fetch, n)[n] == Run(t, PassEvents(fetch, n)).0
  {
    if n > 0 {
      var m := n - 1;
      PassStatesAreRuns(t, fetch, m);
      var p := PassStates(t, fetch, m);
      PassStatesSnoc(t, fetch, m);
      LastPassStateIsRun(t, fetch, m, p[m]);
    } else {
      assert PassEvents(fetch, 0) == [];
    }
  }

  /** The inductive step of `PassStatesAreRuns`: one more visit is two more events. */
  lemma LastPassStateIsRun(t: Tracker, fetch: nat -> FetchOutcome, i: nat, u: Tracker)
    requires WellFormed(t) && WellFormed(u) && CanCheck(u)
    requires u == Run(t, PassEvents(fetch, i)).0
    ensures Visit(u, fetch(i)) == Run(t, PassEvents(fetch, i + 1)).0
  {
    assert PassEvents(fetch, i + 1) == PassEvents(fetch, i) + [CountChecked, Committed(fetch(i))];
    RunThenVisit(t, PassEvents(fetch, i), u, fetch(i));
  }

  /** Events that lead to `u`, followed by one visit's two steps, lead to
      `Visit(u, o)`. */
  lemma RunThenVisit(t: Tracker, es: seq<Event>, u: Tracker, o: FetchOutcome)
    requires WellFormed(t) && WellFormed(u) && CanCheck(u) && Run(t, es).0 == u
    ensures Run(t, es + [CountChecked, Committed(o)]).0 == Visit(u, o)
  {
    RunConcat(t, es, [CountChecked, Committed(o)]);
    VisitSteps(u, o);
  }

  /** `RefreshPass` so far agrees with `PassStates`, and an index was fetched
      exactly when its country held fewer than `Capacity` items at that visit. */
  ghost predicate PassTrace(t: Tracker, r: Tracker, i: nat, fetched: seq<nat>, fetch: nat -> FetchOutcome) {
    && WellFormed(t) && t.task == Some(AtKey(0)) && i <= |t.countries|
    && var s := PassStates(t, fetch, i);
      && r == s[i]
      && FetchedMatches(t.countries, s, i, fetched)
  }

  /** For every visited index `j < i`: its country has a list in `states[j]`, and
      `j` is in `fetched` exactly when that list was below capacity. */
  ghost predicate FetchedMatches(countries: seq<string>, states: seq<Tracker>, i: nat, fetched: seq<nat>) {
    && i <= |countries| && i < |states|
    && forall j :: 0 <= j < i ==>
         && countries[j] in states[j].news
         && (j in fetched <==> |states[j].news[countries[j]]| < Capacity)
  }

  /** One iteration of `RefreshPass` keeps `PassTrace`. */
  lemma TraceStep(t: Tracker, r: Tracker, r': Tracker, i: nat, fetched: seq<nat>, issued: bool,
                  fetch: nat -> FetchOutcome)
    requires i < |t.countries| && PassTrace(t, r, i, fetched, fetch)
    requires forall j :: 0 <= j < |fetched| ==> fetched[j] < i
    requires r' == Visit(r, fetch(i))
    requires issued <==> |r.news[t.countries[i]]| < Capacity
    ensures PassTrace(t, r', i + 1, if issued then fetched + [i] else fetched, fetch)
  {
    var p := PassStates(t, fetch, i);
    PassStatesSnoc(t, fetch, i);
    assert t.countries[i] in r.countries;
    FetchedStep(t.countries, p, r', i, fetched, issued);
  }

  /** One more visit appends one more state: the visit of the last one. */
  lemma PassStatesSnoc(t: Tracker, fetch: nat -> FetchOutcome, i: nat)
    requires WellFormed(t) && t.task == Some(AtKey(0)) && i < |t.countries|
    ensures var p := PassStates(t, fetch, i);
      PassStates(t, fetch, i + 1) == p + [Visit(p[i], fetch(i))]
  {
  }

  /** The bookkeeping of `TraceStep` over any sequence of states: appending the
      next state and recording index `i` exactly when its country had room keeps
      "fetched exactly when below capacity" for every visited index. */
  lemma FetchedStep(countries: seq<string>, p: seq<Tracker>, r': Tracker, i: nat, fetched: seq<nat>, issued: bool)
    requires |p| == i + 1 && i < |countries| && FetchedMatches(countries, p, i, fetched)
    requires countries[i] in p[i].news
    requires forall j :: 0 <= j < |fetched| ==> fetched[j] < i
    requires issued <==> |p[i].news[countries[i]]| < Capacity
    ensures FetchedMatches(countries, p + [r'], i + 1, if issued then fetched + [i] else fetched)
  {
    var fetched' := if issued then fetched + [i] else fetched;
    forall j | 0 <= j < i + 1
      ensures countries[j] in (p + [r'])[j].news
      ensures j in fetched' <==> |(p + [r'])[j].news[countries[j]]| < Capacity
    {
      assert (p + [r'])[j] == p[j];
      if j < i {
        assert j in fetched' <==> j in fetched;
      } else {
        assert i !in fetched;
      }
    }
  }

  /** How far `RefreshPass` has got: the first `i` countries are visited, lists
      have only grown, and `fetched` lists, in order, the visited indices whose
      country was below capacity when visited. */
  ghost predicate PassProgress(t: Tracker, r: Tracker, i: nat, fetched: seq<nat>) {
    && WellFormed(t)
    && i <= |t.countries|
    && WellFormed(r) && r.task == Some(AtKey(i))
    && r.countries == t.countries && r.missed == t.missed
    && (forall k :: k in t.news ==> k in r.news && t.news[k] <= r.news[k])
    && (forall j, l :: 0 <= j < l < |fetched| ==> fetched[j] < fetched[l])
    && (forall j :: 0 <= j < |fetched| ==> fetched[j] < i)
    && (forall j :: 0 <= j < i && |t.news[t.countries[j]]| >= Capacity ==> j !in fetched)
    && (forall j :: 0 <= j < i && |r.news[t.countries[j]]| < Capacity ==> j in fetched)
  }

  /** One iteration of `RefreshPass` keeps `PassProgress`. */
  lemma PassStep(t: Tracker, r: Tracker, r': Tracker, i: nat, fetched: seq<nat>, issued: bool)
    requires PassProgress(t, r, i, fetched) && i < |t.countries|
    requires WellFormed(r') && r'.task == Some(AtKey(i + 1))
    requires r'.countries == t.countries && r'.missed == t.missed
    requires issued <==> |r.news[t.countries[i]]| < Capacity
    requires forall k :: k in r.news && k != t.countries[i] ==> k in r'.news && r'.news[k] == r.news[k]
    requires r.news[t.countries[i]] <= r'.news[t.countries[i]]
    ensures PassProgress(t, r', i + 1, if issued then fetched + [i] else fetched)
  {
    var c := t.countries[i];
    var fetched' := if issued then fetched + [i] else fetched;
    forall j | 0 <= j <= i && |t.news[t.countries[j]]| >= Capacity
      ensures j !in fetched'
    {
      if j == i {
        assert |r.news[c]| >= |t.news[c]|;
      }
    }
    forall j | 0 <= j <= i && |r'.news[t.countries[j]]| < Capacity
      ensures j in fetched'
    {
      var cj := t.countries[j];
      assert |r'.news[cj]| >= |r.news[cj]|;
      if j == i {
        assert fetched'[|fetched'| - 1] == i;
      } else {
        assert j in fetched;
        assert fetched <= fetched';
      }
    }
  }

  /** What `RefreshPass` has stored so far: keys are neither added nor removed,
      keys outside `countries` are untouched, every item added to a list is the
      answer fetched for some visited index of that same country, and every
      non-empty answer fetched is held by its country. */
  ghost predicate PassContent(t: Tracker, r: Tracker, fetched: seq<nat>, fetch: nat -> FetchOutcome)
    requires WellFormed(t)
  {
    && r.news.Keys == t.news.Keys
    && (forall j :: 0 <= j < |fetched| ==> fetched[j] < |t.countries|)
    && (forall k :: k in t.news && k !in t.countries ==> r.news[k] == t.news[k])
    && AddedWereFetched(t, r, fetched, fetch)
    && AddedAreNew(t, r)
    && FetchedAreHeld(t, r, fetched, fetch)
  }

  /** The answers a pass fetched for country `k`, in the order of `fetched`. */
  function AnswersFor(countries: seq<string>, fetched: seq<nat>, fetch: nat -> FetchOutcome, k: string): seq<string>
    decreases |fetched|
  {
    if fetched == [] then []
    else
      var last := fetched[|fetched| - 1];
      AnswersFor(countries, fetched[..|fetched| - 1], fetch, k)
        + (if last < |countries| && countries[last] == k then [Candidate(fetch(last))] else [])
  }

  ghost predicate AddedWereFetched(t: Tracker, r: Tracker, fetched: seq<nat>, fetch: nat -> FetchOutcome)
    requires WellFormed(t) && r.news.Keys == t.news.Keys
    requires forall j :: 0 <= j < |fetched| ==> fetched[j] < |t.countries|
  {
    forall k, m :: k in t.news && |t.news[k]| <= m < |r.news[k]| ==>
      r.news[k][m] in AnswersFor(t.countries, fetched, fetch, k)
  }

  /** Line 43's guard, seen over a whole pass: every item added to a list is
      non-empty and was not already earlier in that list. */
  ghost predicate AddedAreNew(t: Tracker, r: Tracker)
    requires r.news.Keys == t.news.Keys
  {
    forall k, m :: k in t.news && |t.news[k]| <= m < |r.news[k]| ==>
      r.news[k][m] != "" && r.news[k][m] !in r.news[k][..m]
  }

  ghost predicate FetchedAreHeld(t: Tracker, r: Tracker, fetched: seq<nat>, fetch: nat -> FetchOutcome)
    requires WellFormed(t) && r.news.Keys == t.news.Keys
    requires forall j :: 0 <= j < |fetched| ==> fetched[j] < |t.countries|
  {
    forall p :: 0 <= p < |fetched| && Candidate(fetch(fetched[p])) != "" ==>
      Candidate(fetch(fetched[p])) in r.news[t.countries[fetched[p]]]
  }

  /** The shape of one visit of `countries[i]` that `VisitCountry` guarantees,
      seen from the pass: only that country's list changes, by the fetched answer. */
  ghost predicate VisitShape(t: Tracker, r: Tracker, r': Tracker, i: nat, issued: bool, fetch: nat -> FetchOutcome)
    requires WellFormed(t) && i < |t.countries| && r.news.Keys == t.news.Keys
  {
    var c := t.countries[i];
    var a := Candidate(fetch(i));
    && r'.news.Keys == r.news.Keys
    && (forall k :: k in r.news && k != c ==> r'.news[k] == r.news[k])
    && r'.news[c] == (if issued && a != "" && a !in r.news[c] then r.news[c] + [a] else r.news[c])
  }

  lemma AddedStep(t: Tracker, r: Tracker, r': Tracker, i: nat, fetched: seq<nat>, issued: bool,
                  fetch: nat -> FetchOutcome)
    requires WellFormed(t) && i < |t.countries| && r.news.Keys == t.news.Keys
    requires forall j :: 0 <= j < |fetched| ==> fetched[j] < |t.countries|
    requires AddedWereFetched(t, r, fetched, fetch) && VisitShape(t, r, r', i, issued, fetch)
    ensures AddedWereFetched(t, r', if issued then fetched + [i] else fetched, fetch)
  {
    var c := t.countries[i];
    var fetched' := if issued then fetched + [i] else fetched;
    forall k, m | k in t.news && |t.news[k]| <= m < |r'.news[k]|
      ensures r'.news[k][m] in AnswersFor(t.countries, fetched', fetch, k)
    {
      var before := AnswersFor(t.countries, fetched, fetch, k);
      if issued {
        assert fetched'[..|fetched'| - 1] == fetched;
        assert AnswersFor(t.countries, fetched', fetch, k)
            == before + (if c == k then [Candidate(fetch(i))] else []);
      }
      if m < |r.news[k]| {
        assert r.news[k] <= r'.news[k];
        assert r'.news[k][m] == r.news[k][m];
        assert r.news[k][m] in before;
      } else {
        assert k == c && issued;
      }
    }
  }

  lemma NewStep(t: Tracker, r: Tracker, r': Tracker, i: nat, issued: bool, fetch: nat -> FetchOutcome)
    requires WellFormed(t) && i < |t.countries| && r.news.Keys == t.news.Keys
    requires forall k :: k in t.news ==> t.news[k] <= r.news[k]
    requires AddedAreNew(t, r) && VisitShape(t, r, r', i, issued, fetch)
    ensures AddedAreNew(t, r')
  {
    var c := t.countries[i];
    forall k, m | k in t.news && |t.news[k]| <= m < |r'.news[k]|
      ensures r'.news[k][m] != "" && r'.news[k][m] !in r'.news[k][..m]
    {
      if k == c && r'.news[c] != r.news[c] && m < |r.news[c]| {
        assert r'.news[c][..m] == r.news[c][..m];
      } else if k == c && r'.news[c] != r.news[c] {
        assert r'.news[c][..m] == r.news[c];
      }
    }
  }

  lemma HeldStep(t: Tracker, r: Tracker, r': Tracker, i: nat, fetched: seq<nat>, issued: bool,
                 fetch: nat -> FetchOutcome)
    requires WellFormed(t) && i < |t.countries| && r.news.Keys == t.news.Keys
    requires forall j :: 0 <= j < |fetched| ==> fetched[j] < |t.countries|
    requires FetchedAreHeld(t, r, fetched, fetch) && VisitShape(t, r, r', i, issued, fetch)
    ensures FetchedAreHeld(t, r', if issued then fetched + [i] else fetched, fetch)
  {
    var fetched' := if issued then fetched + [i] else fetched;
    forall p | 0 <= p < |fetched'| && Candidate(fetch(fetched'[p])) != ""
      ensures Candidate(fetch(fetched'[p])) in r'.news[t.countries[fetched'[p]]]
    {
      var k := t.countries[fetched'[p]];
      assert r.news[k] <= r'.news[k];
      if p < |fetched| {
        assert fetched'[p] == fetched[p];
      }
    }
  }

  /** One iteration of `RefreshPass` keeps `PassContent`. */
  lemma PassContentStep(t: Tracker, r: Tracker, r': Tracker, i: nat, fetched: seq<nat>, issued: bool,
                        fetch: nat -> FetchOutcome)
    requires WellFormed(t) && i < |t.countries| && PassContent(t, r, fetched, fetch)
    requires forall k :: k in t.news ==> t.news[k] <= r.news[k]
    requires VisitShape(t, r, r', i, issued, fetch)
    ensures PassContent(t, r', if issued then fetched + [i] else fetched, fetch)
  {
    AddedStep(t, r, r', i, fetched, issued, fetch);
    NewStep(t, r, r', i, issued, fetch);
    HeldStep(t, r, r', i, fetched, issued, fetch);
  }

  /** One iteration of `RefreshPass`: a visit as `VisitCountry` describes it keeps
      both loop invariants. */
  lemma PassInvariantStep(t: Tracker, r: Tracker, r': Tracker, i: nat, fetched: seq<nat>, issued: bool,
                          fetch: nat -> FetchOutcome)
    requires PassProgress(t, r, i, fetched) && PassContent(t, r, fetched, fetch) && i < |t.countries|
    requires var c := t.countries[i]; var a := Candidate(fetch(i));
      && WellFormed(r') && r'.task == Some(AtKey(i + 1)) && r'.countries == r.countries && r'.missed == r.missed
      && (issued <==> |r.news[c]| < Capacity)
      && (forall k :: k in r.news && k != c ==> k in r'.news && r'.news[k] == r.news[k])
      && r'.news.Keys == r.news.Keys
      && r'.news[c] == (if issued && a != "" && a !in r.news[c] then r.news[c] + [a] else r.news[c])
    ensures var fetched' := if issued then fetched + [i] else fetched;
      PassProgress(t, r', i + 1, fetched') && PassContent(t, r', fetched', fetch)
  {
    assert r.news[t.countries[i]] <= r'.news[t.countries[i]];
    PassStep(t, r, r', i, fetched, issued);
    PassContentStep(t, r, r', i, fetched, issued, fetch);
  }

  /** One iteration of `RefreshPass`, seen through `Visit`: all three loop
      invariants carry over to the next index. */
  lemma VisitKeepsPass(t: Tracker, r: Tracker, r': Tracker, i: nat, fetched: seq<nat>, issued: bool,
                       fetch: nat -> FetchOutcome)
    requires PassProgress(t, r, i, fetched) && PassContent(t, r, fetched, fetch) && i < |t.countries|
    requires PassTrace(t, r, i, fetched, fetch)
    requires r' == Visit(r, fetch(i)) && (issued <==> |r.news[t.countries[i]]| < Capacity)
    ensures var fetched' := if issued then fetched + [i] else fetched;
      && PassProgress(t, r', i + 1, fetched') && PassContent(t, r', fetched', fetch)
      && PassTrace(t, r', i + 1, fetched', fetch)
  {
    VisitFacts(r, fetch(i));
    PassInvariantStep(t, r, r', i, fetched, issued, fetch);
    TraceStep(t, r, r', i, fetched, issued, fetch);
  }

  /** The loop invariants hold before the first visit. */
  lemma PassStart(t: Tracker, fetch: nat -> FetchOutcome)
    requires WellFormed(t) && t.task == Some(AtKey(0))
    ensures PassProgress(t, t, 0, []) && PassContent(t, t, [], fetch) && PassTrace(t, t, 0, [], fetch)
  {
  }

  /** The body of `RefreshPass`'s loop: visit `countries[i]` with the answer
      `fetch(i)` and record the index when a fetch was issued. */
  method PassIteration(t: Tracker, r: Tracker, i: nat, fetched: seq<nat>, fetch: nat -> FetchOutcome)
    returns (r': Tracker, fetched': seq<nat>)
    requires PassProgress(t, r, i, fetched) && PassContent(t, r, fetched, fetch) && i < |t.countries|
    requires PassTrace(t, r, i, fetched, fetch)
    ensures PassProgress(t, r', i + 1, fetched') && PassContent(t, r', fetched', fetch)
    ensures PassTrace(t, r', i + 1, fetched', fetch)
    ensures fetched' == fetched || fetched' == fetched + [i]
  {
    var issued;
    r', issued := VisitCountry(r, fetch(i));
    VisitKeepsPass(t, r, r', i, fetched, issued, fetch);
    fetched' := if issued then fetched + [i] else fetched;
  }

  /** The loop invariants at the end of a pass, unpacked. */
  lemma PassDone(t: Tracker, r: Tracker, fetched: seq<nat>, fetch: nat -> FetchOutcome)
    requires PassProgress(t, r, |t.countries|, fetched) && PassContent(t, r, fetched, fetch)
    ensures WellFormed(r) && r.task == Some(AtKey(|t.countries|))
    ensures r.countries == t.countries && r.missed == t.missed
    ensures forall k :: k in t.news ==> k in r.news && t.news[k] <= r.news[k]
    ensures forall j, l :: 0 <= j < l < |fetched| ==> fetched[j] < fetched[l]
    ensures forall j :: 0 <= j < |fetched| ==> fetched[j] < |t.countries|
    ensures forall i :: 0 <= i < |t.countries| && |t.news[t.countries[i]]| >= Capacity ==> i !in fetched
    ensures forall i :: 0 <= i < |t.countries| && |r.news[t.countries[i]]| < Capacity ==> i in fetched
    ensures r.news.Keys == t.news.Keys
    ensures forall k :: k in t.news && k !in t.countries ==> k in r.news && r.news[k] == t.news[k]
    ensures forall k, m :: k in t.news && k in r.news && |t.news[k]| <= m < |r.news[k]| ==>
      r.news[k][m] in AnswersFor(t.countries, fetched, fetch, k)
    ensures forall k, m :: k in t.news && k in r.news && |t.news[k]| <= m < |r.news[k]| ==>
      r.news[k][m] != "" && r.news[k][m] !in r.news[k][..m]
    ensures forall p :: 0 <= p < |fetched| && Candidate(fetch(fetched[p])) != "" ==>
      fetched[p] < |t.countries| && t.countries[fetched[p]] in r.news
      && Candidate(fetch(fetched[p])) in r.news[t.countries[fetched[p]]]
  {
  }

  /** `PassTrace` at the end of a pass, unpacked. */
  lemma TraceDone(t: Tracker, r: Tracker, fetched: seq<nat>, fetch: nat -> FetchOutcome)
    requires WellFormed(t) && t.task == Some(AtKey(0)) && PassTrace(t, r, |t.countries|, fetched, fetch)
    ensures var s := PassStates(t, fetch, |t.countries|);
      && r == s[|t.countries|]
      && forall j :: 0 <= j < |t.countries| ==> (j in fetched <==> |s[j].news[t.countries[j]]| < Capacity)
  {
    var s := PassStates(t, fetch, |t.countries|);
    assert FetchedMatches(t.countries, s, |t.countries|, fetched);
  }

  /** One refresh pass with no other caller in between (`update_all_news` run
      alone). `fetch(i)` is what the agent returns for countries[i]. Countries
      are visited in order; a country already full at the start is never
      fetched, and one still below capacity at the end was fetched. Lists only
      grow, and only with non-empty answers fetched for that same country and
      not already in the list. Every non-empty answer fetched ends up held.
      Keys outside `countries` are untouched. Visit by visit, the pass goes
      through `PassStates`: the result is its last state, and index `j` was
      fetched exactly when countries[j] held fewer than `Capacity` items at
      visit `j`, which fixes the outcome even when a country is listed twice. */
  method RefreshPass(t: Tracker, fetch: nat -> FetchOutcome) returns (r: Tracker, fetched: seq<nat>)
    requires WellFormed(t) && t.task == Some(AtKey(0))
    ensures WellFormed(r) && r.task == Some(AtKey(|t.countries|))
    ensures r.countries == t.countries && r.missed == t.missed
    ensures forall k :: k in t.news ==> k in r.news && t.news[k] <= r.news[k]
    ensures forall j, l :: 0 <= j < l < |fetched| ==> fetched[j] < fetched[l]
    ensures forall j :: 0 <= j < |fetched| ==> fetched[j] < |t.countries|
    ensures forall i :: 0 <= i < |t.countries| && |t.news[t.countries[i]]| >= Capacity ==> i !in fetched
    ensures forall i :: 0 <= i < |t.countries| && |r.news[t.countries[i]]| < Capacity ==> i in fetched
    ensures r.news.Keys == t.news.Keys
    ensures forall k :: k in t.news && k !in t.countries ==> k in r.news && r.news[k] == t.news[k]
    ensures forall k, m :: k in t.news && k in r.news && |t.news[k]| <= m < |r.news[k]| ==>
      r.news[k][m] in AnswersFor(t.countries, fetched, fetch, k)
    ensures forall k, m :: k in t.news && k in r.news && |t.news[k]| <= m < |r.news[k]| ==>
      r.news[k][m] != "" && r.news[k][m] !in r.news[k][..m]
    ensures forall p :: 0 <= p < |fetched| && Candidate(fetch(fetched[p])) != "" ==>
      fetched[p] < |t.countries| && t.countries[fetched[p]] in r.news
      && Candidate(fetch(fetched[p])) in r.news[t.countries[fetched[p]]]
    ensures var s := PassStates(t, fetch, |t.countries|);
      && r == s[|t.countries|]
      && forall j :: 0 <= j < |t.countries| ==> (j in fetched <==> |s[j].news[t.countries[j]]| < Capacity)
  {
    r, fetched := PassLoop(t, fetch);
    PassDone(t, r, fetched, fetch);
    TraceDone(t, r, fetched, fetch);
  }

  /** The loop of `RefreshPass`: visit every country once, in order. */
  method PassLoop(t: Tracker, fetch: nat -> FetchOutcome) returns (r: Tracker, fetched: seq<nat>)
    requires WellFormed(t) && t.task == Some(AtKey(0))
    ensures PassProgress(t, r, |t.countries|, fetched) && PassContent(t, r, fetched, fetch)
    ensures PassTrace(t, r, |t.countries|, fetched, fetch)
  {
    r := t;
    fetched := [];
    PassStart(t, fetch);
    var i := 0;
    while i < |t.countries|
      invariant PassProgress(t, r, i, fetched)
      invariant PassContent(t, r, fetched, fetch)
      invariant PassTrace(t, r, i, fetched, fetch)
    {
      r, fetched := PassIteration(t, r, i, fetched, fetch);
      i := i + 1;
    }
  }
}
