/** `NewsAgentExecutor`: picks the country out of an incoming message, drains the
    tracker for it once, and enqueues exactly one text reply. The message types
    are reduced to what `execute` reads: each part's own `text` and, failing
    that, its `root.text`; an attribute that is missing reads as `None`. */
module NewsAgentExecutor {
  import opened Base
  import opened JsonValues
  import Text
  import NewsTracker

  datatype Root = Root(text: Option<string>)
  datatype Part = Part(text: Option<string>, root: Option<Root>)

  /** A request message; a `parts` of `None` is the empty list here, since both
      are falsy to `execute`. */
  datatype Message = Message(parts: seq<Part>)

  /** The text a part carries: its own non-empty `text`, else a non-empty
      `root.text`, else nothing. */
  function PartText(p: Part): (r: Option<string>)
    ensures r.Some? ==> r.value != ""
    ensures r.Some? ==> r == p.text || (p.root.Some? && r == p.root.value.text)
    ensures p.text.Some? && p.text.value != "" ==> r == p.text
    ensures r.None? <==> (p.text.None? || p.text.value == "")
                         && (p.root.None? || p.root.value.text.None? || p.root.value.text.value == "")
  {
    if p.text.Some? && p.text.value != "" then p.text
    else if p.root.Some? && p.root.value.text.Some? && p.root.value.text.value != "" then p.root.value.text
    else None
  }

  /** The position of the first part carrying text, or `|parts|` when none does:
      where the loop of `execute` breaks. */
  function FirstTextIndex(parts: seq<Part>): (k: nat)
    ensures k <= |parts|
    ensures forall j :: 0 <= j < k ==> PartText(parts[j]).None?
    ensures k < |parts| ==> PartText(parts[k]).Some?
    decreases |parts|
  {
    if parts == [] then 0
    else if PartText(parts[0]).Some? then 0
    else 1 + FirstTextIndex(parts[1..])
  }

  /** The country `execute` reads: the stripped text of the first part carrying
      text, unless that is empty; nothing without a message or such a part. */
  function CountryOf(msg: Option<Message>): (r: Option<string>)
    ensures r.Some? ==> r.value != "" && !Text.IsSpace(r.value[0]) && !Text.IsSpace(r.value[|r.value| - 1])
    ensures r.Some? ==> msg.Some? && FirstTextIndex(msg.value.parts) < |msg.value.parts|
                        && r.value == Text.Strip(PartText(msg.value.parts[FirstTextIndex(msg.value.parts)]).value)
    ensures (msg.Some? && FirstTextIndex(msg.value.parts) < |msg.value.parts|
             && Text.Strip(PartText(msg.value.parts[FirstTextIndex(msg.value.parts)]).value) != "")
            ==> r.Some?
  {
    if msg.None? then None
    else
      var parts := msg.value.parts;
      var k := FirstTextIndex(parts);
      if k == |parts| then None
      else
        var country := Text.Strip(PartText(parts[k]).value);
        if country == "" then None else Some(country)
  }

  /** The JSON object `{country: items}` that a non-empty reply serializes. */
  function ReplyObject(country: string, items: seq<string>): Json {
    JObj(map[country := StrArray(items)])
  }

  /** Reads the string list stored under `country` back out of a reply object. */
  function ItemsOf(j: Json, country: string): Option<seq<string>> {
    if j.JObj? && country in j.fields && j.fields[country].JArr?
       && forall i :: 0 <= i < |j.fields[country].items| ==> j.fields[country].items[i].JStr?
    then Some(seq(|j.fields[country].items|, i requires 0 <= i < |j.fields[country].items| && j.fields[country].items[i].JStr? => j.fields[country].items[i].s))
    else None
  }

  /** The reply object carries exactly the drained items, in order, under the
      country and nothing else. */
  lemma ReplyObjectRoundTrip(country: string, items: seq<string>)
    ensures ItemsOf(ReplyObject(country, items), country) == Some(items)
    ensures ReplyObject(country, items).fields.Keys == {country}
  {
    var got := ItemsOf(ReplyObject(country, items), country);
    assert got.Some?;
    assert got.value == items;
  }

  /** The reply text for what the drain returned: the serialised reply object,
      from which the items read back, or a message naming the country. */
  function ReplyText(country: string, items: seq<string>, dumps: Json -> string): (r: string)
    ensures items != [] ==> exists j :: r == dumps(j) && ItemsOf(j, country) == Some(items) && j.fields.Keys == {country}
    ensures items == [] ==>
      (|NoNewsPrefix| < |r| && r[..|NoNewsPrefix|] == NoNewsPrefix
       && r[|NoNewsPrefix|..|r| - 1] == country && r[|r| - 1] == '.')
  {
    ReplyObjectRoundTrip(country, items);
    if items != [] then dumps(ReplyObject(country, items))
    else NoNewsPrefix + country + "."
  }

  const NoNewsPrefix := "No news available for "

  const NoCountry := "No country provided."

  /** What one `execute` call leaves behind: the tracker and the events enqueued. */
  datatype Execution = Execution(tracker: NewsTracker.Tracker, enqueued: seq<string>)

  /** `execute`: with no country the tracker is not called; otherwise the country
      is drained once, as a `Drained` step of the tracker. Either way exactly one
      message is enqueued. */
  function Execute(t: NewsTracker.Tracker, msg: Option<Message>, dumps: Json -> string): (r: Execution)
    requires NewsTracker.WellFormed(t)
    ensures |r.enqueued| == 1
    ensures CountryOf(msg).None? ==> r.tracker == t && r.enqueued == [NoCountry]
    ensures CountryOf(msg).Some? ==>
      var c := CountryOf(msg).value;
      && NewsTracker.Next(t, NewsTracker.Drained(c)) == (r.tracker, NewsTracker.Items(c, NewsTracker.Held(t, c)))
      && r.enqueued == [ReplyText(c, NewsTracker.Held(t, c), dumps)]
  {
    match CountryOf(msg)
    case None => Execution(t, [NoCountry])
    case Some(country) =>
      var drained := NewsTracker.Drain(t, country);
      Execution(drained.0, [ReplyText(country, drained.1, dumps)])
  }

  /** A request naming a country with news gets that news as `{country: [...]}`,
      and the country is left holding nothing; other keys are untouched. */
  lemma ExecuteDeliversHeld(t: NewsTracker.Tracker, msg: Option<Message>, dumps: Json -> string)
    requires NewsTracker.WellFormed(t) && CountryOf(msg).Some?
    ensures var c := CountryOf(msg).value; var r := Execute(t, msg, dumps);
      && (NewsTracker.Held(t, c) != [] ==> r.enqueued == [dumps(ReplyObject(c, NewsTracker.Held(t, c)))])
      && (NewsTracker.Held(t, c) == [] ==> r.enqueued == [NoNewsPrefix + c + "."])
      && NewsTracker.Held(r.tracker, c) == []
      && (forall k :: k != c ==> NewsTracker.Held(r.tracker, k) == NewsTracker.Held(t, k))
  {
  }

  /** A whitespace-only first text part ends the search: later parts are not
      read, the reply is that no country was given, and the tracker is untouched. */
  lemma BlankFirstPartHidesLaterParts(t: NewsTracker.Tracker, blank: string, later: seq<Part>, dumps: Json -> string)
    requires NewsTracker.WellFormed(t) && blank != "" && Text.AllSpace(blank)
    ensures var r := Execute(t, Some(Message([Part(Some(blank), None)] + later)), dumps);
      r.tracker == t && r.enqueued == [NoCountry]
  {
    var parts := [Part(Some(blank), None)] + later;
    assert FirstTextIndex(parts) == 0;
  }

  /** Parts without text are passed over: the country comes from the first
      part that has text, its own or its root's. */
  lemma {:induction false} TextlessPartsSkipped(textless: seq<Part>, p: Part, later: seq<Part>)
    requires forall j :: 0 <= j < |textless| ==> PartText(textless[j]).None?
    requires PartText(p).Some?
    ensures var country := Text.Strip(PartText(p).value);
      CountryOf(Some(Message(textless + [p] + later))) == (if country == "" then None else Some(country))
  {
    FirstTextAfterTextless(textless, p, later);
  }

  lemma {:induction false} FirstTextAfterTextless(textless: seq<Part>, p: Part, later: seq<Part>)
    requires forall j :: 0 <= j < |textless| ==> PartText(textless[j]).None?
    requires PartText(p).Some?
    ensures var parts := textless + [p] + later;
      FirstTextIndex(parts) == |textless| && parts[|textless|] == p
    decreases |textless|
  {
    var parts := textless + [p] + later;
    if textless == [] {
      assert parts[0] == p;
    } else {
      FirstTextAfterTextless(textless[1..], p, later);
      assert parts[1..] == textless[1..] + [p] + later;
      assert parts[0] == textless[0];
    }
  }

  /** A part's own text is preferred over its `root.text`. */
  lemma OwnTextPreferred(own: string, rootText: string)
    requires own != ""
    ensures CountryOf(Some(Message([Part(Some(own), Some(Root(Some(rootText))))])))
         == (if Text.Strip(own) == "" then None else Some(Text.Strip(own)))
  {
    assert FirstTextIndex([Part(Some(own), Some(Root(Some(rootText))))]) == 0;
  }

  /** `cancel` always raises. */
  function Cancel(): (r: Result<(), string>)
    ensures r.Failure?
  {
    Failure("cancel not supported")
  }
}
