/** Properties of the tracker over arbitrary interleavings of the refresh loop
    with `start` calls and drains. */
module TrackerTraces {
  import opened Base
  import opened NewsTracker
  import NewsAgent
  import opened JsonValues

  /** Every interleaving keeps the invariant. */
  lemma {:induction false} RunPreservesInv(t: Tracker, es: seq<Event>)
    requires Inv(t)
    ensures Inv(Run(t, es).0)
    decreases |es|
  {
    if es != [] {
      NextPreservesInv(t, es[0]);
      RunPreservesInv(Next(t, es[0]).0, es[1..]);
    }
  }

  /** Whatever interleaving of refresh steps, starts and drains happens after
      construction, every list holds at most three items, none empty and no two
      equal; every counter is zero; an unconfigured key holds nothing. */
  lemma ReachableStates(countries: seq<string>, es: seq<Event>)
    ensures var t := Run(Init(countries), es).0;
      && (forall k :: k in t.news ==> |t.news[k]| <= Capacity)
      && (forall k :: k in t.news ==> NoDuplicates(t.news[k]))
      && (forall k :: k in t.news ==> "" !in t.news[k])
      && (forall k :: k in t.missed ==> t.missed[k] == 0)
      && (forall k :: k in t.news && k !in countries ==> t.news[k] == [])
  {
    RunPreservesInv(Init(countries), es);
  }

  /** `get_and_clear_all_news` leaves nothing held anywhere, and returns all of it. */
  lemma DrainAllEmptiesEverything(t: Tracker)
    requires Inv(t)
    ensures forall k :: k in DrainAll(t).0.news ==> DrainAll(t).0.news[k] == []
    ensures forall k :: Held(t, k) == (if k in DrainAll(t).1 then DrainAll(t).1[k] else [])
  {
  }

  /** Draining a key outside the configured countries returns nothing; its only
      effect is an entry holding nothing with a zero counter. */
  lemma UnknownKeyDrain(t: Tracker, key: string)
    requires Inv(t) && key !in t.countries
    ensures Drain(t, key).1 == []
    ensures forall k :: Held(Drain(t, key).0, k) == Held(t, k)
  {
  }

  /** The loop only ever fetches configured countries, with the country's query. */
  lemma {:induction false} OnlyConfiguredFetched(t: Tracker, es: seq<Event>)
    requires WellFormed(t)
    ensures forall o :: o in Run(t, es).1 && o.FetchIssued? ==> o.key in t.countries && o.query == Query(o.key)
    decreases |es|
  {
    if es != [] {
      var s := Next(t, es[0]);
      OnlyConfiguredFetched(s.0, es[1..]);
    }
  }

  /** A fetch that raised is stored as its error message, unless that very
      message is already held. */
  lemma ThrownFetchStored(t: Tracker, message: string)
    requires Inv(t) && CanCommit(t)
    ensures var c := t.countries[t.task.value.i]; var m := "Error fetching news: " + message;
      Commit(t, Threw(message)).news[c] == (if m in t.news[c] then t.news[c] else t.news[c] + [m])
  {
  }

  /** The agent's answer for an MCP reply whose `result` is the empty string is
      the empty string, and the loop stores nothing for it. */
  lemma EmptyAgentAnswerNotStored(t: Tracker, fields: map<string, Json>, rd: NewsAgent.Renderers)
    requires Inv(t) && CanCommit(t)
    requires "error" !in fields && "result" in fields && fields["result"] == JStr("")
    ensures Commit(t, Returned(NewsAgent.FetchText(NewsAgent.Ok(JObj(fields)), rd))).news == t.news
  {
    NewsAgent.StringResultVerbatim(fields, "", rd);
  }

  // ----- single task -----

  function Spawns(outs: seq<Output>): nat {
    if outs == [] then 0 else (if outs[0] == Spawned then 1 else 0) + Spawns(outs[1..])
  }

  /** However many times `start` is called, the refresh task is created at most
      once, and never once it exists. */
  lemma {:induction false} StartSpawnsOnce(t: Tracker, es: seq<Event>)
    requires WellFormed(t)
    ensures Spawns(Run(t, es).1) <= (if t.task.None? then 1 else 0)
    decreases |es|
  {
    if es != [] {
      var s := Next(t, es[0]);
      StartSpawnsOnce(s.0, es[1..]);
      assert Run(t, es).1[1..] == Run(s.0, es[1..]).1;
    }
  }

  // ----- delivery -----

  /** The item a step appends to `key`'s list, if any. */
  function Accepted(t: Tracker, e: Event, key: string): seq<string>
    requires WellFormed(t)
  {
    if e.Committed? && CanCommit(t) && t.countries[t.task.value.i] == key
       && Candidate(e.outcome) != "" && Candidate(e.outcome) !in t.news[key]
    then [Candidate(e.outcome)]
    else []
  }

  /** The items for `key` a step hands to a caller. */
  function Delivered(o: Output, key: string): seq<string> {
    match o
    case Items(k, items) => if k == key then items else []
    case AllItems(all) => if key in all then all[key] else []
    case _ => []
  }

  function AcceptedTrace(t: Tracker, es: seq<Event>, key: string): seq<string>
    requires WellFormed(t)
    decreases |es|
  {
    if es == [] then [] else Accepted(t, es[0], key) + AcceptedTrace(Next(t, es[0]).0, es[1..], key)
  }

  function DeliveredTrace(outs: seq<Output>, key: string): seq<string> {
    if outs == [] then [] else Delivered(outs[0], key) + DeliveredTrace(outs[1..], key)
  }

  /** What `key` held and what the step `e` appended to it is what the step
      handed out followed by what `key` holds afterwards. */
  ghost predicate Conserves(t: Tracker, e: Event, key: string)
    requires WellFormed(t)
  {
    Held(t, key) + Accepted(t, e, key) == Delivered(Next(t, e).1, key) + Held(Next(t, e).0, key)
  }

  /** One step moves items between the list and the callers without loss or copy. */
  lemma StepConserves(t: Tracker, e: Event, key: string)
    requires Inv(t)
    ensures Held(t, key) + Accepted(t, e, key) == Delivered(Next(t, e).1, key) + Held(Next(t, e).0, key)
  {
    if e.Committed? {
      CommitConserves(t, e, key);
    } else if e.Drained? {
      DrainConserves(t, e, key);
    } else if e.DrainedAll? {
      DrainAllConserves(t, key);
    } else {
      QuietConserves(t, e, key);
    }
    assert Conserves(t, e, key);
  }

  lemma CommitConserves(t: Tracker, e: Event, key: string)
    requires WellFormed(t) && e.Committed?
    ensures Conserves(t, e, key)
  {
    assert Delivered(Next(t, e).1, key) == [];
    if CanCommit(t) {
      var c := t.countries[t.task.value.i];
      if c != key { assert Held(Commit(t, e.outcome), key) == Held(t, key); }
    }
  }

  lemma DrainConserves(t: Tracker, e: Event, key: string)
    requires WellFormed(t) && e.Drained?
    ensures Conserves(t, e, key)
  {
    assert Accepted(t, e, key) == [];
    if e.key == key {
      assert Held(t, key) + [] == Held(t, key);
    } else {
      assert [] + Held(t, key) == Held(t, key);
    }
  }

  lemma DrainAllConserves(t: Tracker, key: string)
    requires Inv(t)
    ensures Conserves(t, DrainedAll, key)
  {
    var d := DrainAll(t);
    assert Next(t, DrainedAll) == (d.0, AllItems(d.1));
    assert Accepted(t, DrainedAll, key) == [];
    assert Delivered(AllItems(d.1), key) == Held(t, key);
    assert Held(d.0, key) == [] by {
      if key in t.news && key !in t.countries {
        assert d.0.news[key] == t.news[key];
      }
    }
    assert Held(t, key) + [] == Held(t, key) + Held(d.0, key);
  }

  lemma QuietConserves(t: Tracker, e: Event, key: string)
    requires WellFormed(t) && (e.CountChecked? || e.Started? || e.Slept?)
    ensures Conserves(t, e, key)
  {
    assert Next(t, e).0.news == t.news && Delivered(Next(t, e).1, key) == [];
    assert Held(t, key) + [] == [] + Held(t, key);
  }

  lemma Regroup(h0: seq<string>, acc: seq<string>, accRest: seq<string>, del: seq<string>,
                delRest: seq<string>, h1: seq<string>, hEnd: seq<string>)
    requires h0 + acc == del + h1
    requires h1 + accRest == delRest + hEnd
    ensures h0 + (acc + accRest) == (del + delRest) + hEnd
  {
    calc {
      h0 + (acc + accRest);
      (h0 + acc) + accRest;
      (del + h1) + accRest;
      del + (h1 + accRest);
      del + (delRest + hEnd);
    }
  }

  /** Each accepted item reaches callers exactly once: for every key, what it held
      followed by everything appended equals everything drained followed by what
      it still holds. */
  lemma {:induction false} DeliveredExactlyOnce(t: Tracker, es: seq<Event>, key: string)
    requires Inv(t)
    ensures Held(t, key) + AcceptedTrace(t, es, key)
         == DeliveredTrace(Run(t, es).1, key) + Held(Run(t, es).0, key)
    decreases |es|
  {
    if es != [] {
      var s := Next(t, es[0]);
      var rest := Run(s.0, es[1..]);
      StepConserves(t, es[0], key);
      NextPreservesInv(t, es[0]);
      DeliveredExactlyOnce(s.0, es[1..], key);
      var outs := Run(t, es).1;
      assert outs == [s.1] + rest.1;
      assert outs[1..] == rest.1;
      assert DeliveredTrace(outs, key) == Delivered(s.1, key) + DeliveredTrace(rest.1, key);
      assert AcceptedTrace(t, es, key) == Accepted(t, es[0], key) + AcceptedTrace(s.0, es[1..], key);
      Regroup(Held(t, key), Accepted(t, es[0], key), AcceptedTrace(s.0, es[1..], key),
              Delivered(s.1, key), DeliveredTrace(rest.1, key), Held(s.0, key), Held(rest.0, key));
    }
  }

  // ----- backpressure -----

  predicate DrainsNothingOf(es: seq<Event>, key: string) {
    forall j :: 0 <= j < |es| ==> es[j] != Drained(key) && es[j] != DrainedAll
  }

  /** One step that does not drain `key` neither fetches for a full `key` nor
      shrinks its list. */
  lemma FullKeyStep(t: Tracker, e: Event, key: string)
    requires WellFormed(t) && |Held(t, key)| >= Capacity && e != Drained(key) && e != DrainedAll
    ensures Next(t, e).1 != FetchIssued(key, Query(key))
    ensures |Held(Next(t, e).0, key)| >= Capacity
  {
    match e
    case CountChecked => FullKeyCheck(t, key);
    case Committed(o) => FullKeyCommit(t, o, key);
    case Drained(k) => OtherKeyDrain(t, k, key);
    case Started =>
    case Slept =>
  }

  lemma FullKeyCheck(t: Tracker, key: string)
    requires WellFormed(t) && |Held(t, key)| >= Capacity
    ensures Next(t, CountChecked).1 != FetchIssued(key, Query(key))
    ensures Next(t, CountChecked).0.news == t.news
  {
    if CanCheck(t) {
      var c := t.countries[t.task.value.i];
      assert c == key ==> CheckCount(t).1 == Skipped(c);
    }
  }

  lemma FullKeyCommit(t: Tracker, o: FetchOutcome, key: string)
    requires WellFormed(t)
    ensures Next(t, Committed(o)).1 == Silent
    ensures Held(t, key) <= Held(Next(t, Committed(o)).0, key)
  {
    if CanCommit(t) {
      assert Held(t, key) <= Held(Commit(t, o), key);
    }
  }

  lemma OtherKeyDrain(t: Tracker, k: string, key: string)
    requires WellFormed(t) && k != key
    ensures Next(t, Drained(k)).1 == Items(k, Held(t, k))
    ensures Held(Next(t, Drained(k)).0, key) == Held(t, key)
  {
  }

  /** A country holding three items is never fetched again until a drain
      touches it, whatever else happens in between. */
  lemma {:induction false} FullKeyNotFetched(t: Tracker, es: seq<Event>, key: string)
    requires WellFormed(t) && |Held(t, key)| >= Capacity && DrainsNothingOf(es, key)
    ensures forall o :: o in Run(t, es).1 ==> o != FetchIssued(key, Query(key))
    ensures |Held(Run(t, es).0, key)| >= Capacity
    decreases |es|
  {
    if es != [] {
      var s := Next(t, es[0]);
      FullKeyStep(t, es[0], key);
      assert DrainsNothingOf(es[1..], key) by {
        forall j | 0 <= j < |es| - 1 ensures es[1..][j] != Drained(key) && es[1..][j] != DrainedAll {
          assert es[1..][j] == es[j + 1];
        }
      }
      FullKeyNotFetched(s.0, es[1..], key);
      assert Run(t, es).1 == [s.1] + Run(s.0, es[1..]).1;
    }
  }

  // ----- visiting order -----

  /** The index in `countries` of the loop's next visit (0 before `start`, and at
      the end of a pass, since the next pass starts over). */
  function Cursor(t: Tracker): (c: nat)
    ensures |t.countries| > 0 ==> c < |t.countries|
  {
    var i := match t.task
      case None => 0
      case Some(AtKey(i)) => i
      case Some(Fetching(i)) => i + 1;
    if i >= |t.countries| then 0 else i
  }

  /** The index after `p` in a round-robin over `n` countries. */
  function Succ(p: nat, n: nat): (r: nat)
    requires p < n
    ensures r < n && (r == 0 || r == p + 1)
  {
    if p + 1 >= n then 0 else p + 1
  }

  /** The index `j` visits after `p` in a round-robin over `n` countries. */
  function RoundRobin(p: nat, j: nat, n: nat): (r: nat)
    requires p < n
    ensures r < n
    decreases j
  {
    if j == 0 then p else RoundRobin(Succ(p, n), j - 1, n)
  }

  /** The countries a run of steps visits (skips and fetches), in order. */
  function Visits(outs: seq<Output>): seq<string> {
    if outs == [] then []
    else VisitOf(outs[0]) + Visits(outs[1..])
  }

  function VisitOf(o: Output): seq<string> {
    match o
    case Skipped(k) => [k]
    case FetchIssued(k, _) => [k]
    case _ => []
  }

  /** A step visits at most the country under the cursor, and moves the cursor on
      exactly when it does. */
  lemma StepVisits(t: Tracker, e: Event)
    requires WellFormed(t)
    ensures var s := Next(t, e);
      && (VisitOf(s.1) == [] ==> Cursor(s.0) == Cursor(t))
      && (VisitOf(s.1) != [] ==> |t.countries| > 0 && VisitOf(s.1) == [t.countries[Cursor(t)]]
                                  && Cursor(s.0) == Succ(Cursor(t), |t.countries|))
  {
    if e.CountChecked? {
      CheckVisits(t);
    } else {
      QuietStepKeepsCursor(t, e);
    }
  }

  /** A count check visits the country under the cursor, if the loop stands at one. */
  lemma CheckVisits(t: Tracker)
    requires WellFormed(t)
    ensures var s := Next(t, CountChecked);
      && (VisitOf(s.1) == [] ==> Cursor(s.0) == Cursor(t))
      && (VisitOf(s.1) != [] ==> |t.countries| > 0 && VisitOf(s.1) == [t.countries[Cursor(t)]]
                                  && Cursor(s.0) == Succ(Cursor(t), |t.countries|))
  {
    if CanCheck(t) {
      var s := CheckCount(t);
      assert Cursor(s.0) == Succ(Cursor(t), |t.countries|);
    }
  }

  /** Every step other than a count check visits nothing and keeps the cursor. */
  lemma QuietStepKeepsCursor(t: Tracker, e: Event)
    requires WellFormed(t) && !e.CountChecked?
    ensures VisitOf(Next(t, e).1) == [] && Cursor(Next(t, e).0) == Cursor(t)
  {
    match e
    case Committed(o) =>
    case Started =>
    case Slept =>
    case Drained(k) =>
      ClientStepKeepsTask(t, e);
    case DrainedAll =>
      ClientStepKeepsTask(t, e);
  }

  lemma ClientStepKeepsTask(t: Tracker, e: Event)
    requires WellFormed(t) && (e.Drained? || e.DrainedAll?)
    ensures Next(t, e).0.task == t.task && VisitOf(Next(t, e).1) == []
  {
  }

  /** `v` lists countries round-robin from index `p` on. */
  ghost predicate RoundRobinFrom(v: seq<string>, countries: seq<string>, p: nat)
    requires p < |countries|
  {
    forall j :: 0 <= j < |v| ==> v[j] == countries[RoundRobin(p, j, |countries|)]
  }

  lemma VisitThenRest(v: seq<string>, countries: seq<string>, p: nat)
    requires p < |countries| && RoundRobinFrom(v, countries, Succ(p, |countries|))
    ensures RoundRobinFrom([countries[p]] + v, countries, p)
  {
    var w := [countries[p]] + v;
    forall j | 1 <= j < |w|
      ensures w[j] == countries[RoundRobin(p, j, |countries|)]
    {
      assert w[j] == v[j - 1];
    }
  }

  /** The loop visits the configured countries round-robin in their configured
      order, resuming at its cursor, whatever drains and starts interleave. */
  lemma {:induction false} VisitsInOrder(t: Tracker, es: seq<Event>)
    requires Inv(t) && |t.countries| > 0
    ensures var v := Visits(Run(t, es).1);
      forall j :: 0 <= j < |v| ==> v[j] == t.countries[RoundRobin(Cursor(t), j, |t.countries|)]
    decreases |es|
  {
    if es != [] {
      var s := Next(t, es[0]);
      var rest := Run(s.0, es[1..]).1;
      StepVisits(t, es[0]);
      NextPreservesInv(t, es[0]);
      VisitsInOrder(s.0, es[1..]);
      assert RoundRobinFrom(Visits(rest), t.countries, Cursor(s.0));
      var outs := Run(t, es).1;
      assert outs[1..] == rest;
      assert Visits(outs) == VisitOf(s.1) + Visits(rest);
      if VisitOf(s.1) != [] {
        VisitThenRest(Visits(rest), t.countries, Cursor(t));
      } else {
        assert VisitOf(s.1) + Visits(rest) == Visits(rest);
      }
      assert RoundRobinFrom(Visits(outs), t.countries, Cursor(t));
    }
  }

  /** A tracker for the single country `c`, between passes, holding `items`. */
  function SingleCountry(c: string, items: seq<string>): Tracker {
    Tracker([c], map[c := items], map[c := 0], Some(AtKey(0)))
  }

  function PassWith(text: string): seq<Event> {
    [CountChecked, Committed(Returned(text)), Slept]
  }

  /** One undisturbed pass over the single country when the agent answers `text`. */
  lemma SinglePass(c: string, items: seq<string>, text: string)
    requires |items| < Capacity && text != ""
    ensures Run(SingleCountry(c, items), PassWith(text)).0
         == SingleCountry(c, if text in items then items else items + [text])
  {
    var t := SingleCountry(c, items);
    var t1 := Next(t, CountChecked).0;
    var t2 := Next(t1, Committed(Returned(text))).0;
    var t3 := Next(t2, Slept).0;
    assert t3 == SingleCountry(c, if text in items then items else items + [text]);
    assert [Slept][1..] == [];
    assert Run(t2, [Slept]).0 == t3;
    assert [Committed(Returned(text)), Slept][1..] == [Slept];
    assert Run(t1, [Committed(Returned(text)), Slept]).0 == t3;
    assert PassWith(text)[1..] == [Committed(Returned(text)), Slept];
  }

  // ----- the end-to-end scenario -----

  /** Running `a` and then one more pass, from a state `a` leads to. */
  lemma ThenPass(t: Tracker, a: seq<Event>, c: string, items: seq<string>, text: string)
    requires WellFormed(t) && Run(t, a).0 == SingleCountry(c, items)
    requires |items| < Capacity && text != ""
    ensures Run(t, a + PassWith(text)).0 == SingleCountry(c, if text in items then items else items + [text])
  {
    RunConcat(t, a, PassWith(text));
    SinglePass(c, items, text);
  }

  /** `start`, then three passes in which the agent answers `x`, `x` and `y`. */
  function ThreePasses(x: string, y: string): seq<Event> {
    [Started] + PassWith(x) + PassWith(x) + PassWith(y)
  }

  /** Starting a fresh single-country tracker leaves it between passes, empty. */
  lemma StartSingle(c: string)
    ensures Run(Init([c]), [Started]).0 == SingleCountry(c, [])
  {
    assert [Started][1..] == [];
  }

  /** After two passes answering `x`, `x` holds once. */
  lemma TwoPassesHold(c: string, x: string)
    requires x != ""
    ensures Run(Init([c]), [Started] + PassWith(x) + PassWith(x)).0 == SingleCountry(c, [x])
  {
    var t0 := Init([c]);
    StartSingle(c);
    ThenPass(t0, [Started], c, [], x);
    assert [] + [x] == [x];
    ThenPass(t0, [Started] + PassWith(x), c, [x], x);
  }

  /** After the three passes the repeated answer has been stored once. */
  lemma ThreePassesHold(c: string, x: string, y: string)
    requires x != "" && y != "" && x != y
    ensures Run(Init([c]), ThreePasses(x, y)).0 == SingleCountry(c, [x, y])
  {
    TwoPassesHold(c, x);
    ThenPass(Init([c]), [Started] + PassWith(x) + PassWith(x), c, [x], y);
    assert y !in [x] && [x] + [y] == [x, y];
  }

  /** One country; the agent answers "A", "A", then "B" over three passes (any two
      distinct non-empty answers): the repeated answer is not stored twice, and a
      drain returns both answers in order and empties the list. */
  lemma ThreePassScenario(c: string, x: string, y: string)
    requires x != "" && y != "" && x != y
    ensures var r := Run(Init([c]), ThreePasses(x, y) + [Drained(c)]);
      && r.1[|ThreePasses(x, y)|] == Items(c, [x, y])
      && Held(r.0, c) == []
  {
    var t0 := Init([c]);
    var p3 := ThreePasses(x, y);
    ThreePassesHold(c, x, y);
    RunConcat(t0, p3, [Drained(c)]);
    var mid := Run(t0, p3);
    DrainSingle(c, [x, y]);
    assert |mid.1| == |p3|;
  }

  /** Draining the single country returns its list and empties it. */
  lemma DrainSingle(c: string, items: seq<string>)
    ensures var d := Run(SingleCountry(c, items), [Drained(c)]);
      d.1 == [Items(c, items)] && Held(d.0, c) == []
  {
    assert [Drained(c)][1..] == [];
  }
}
