/** `NewsAgent.fetch_news`: the request it sends and the decision tree that turns
    the upstream JSON-RPC reply into the text the tracker caches.

    The HTTP exchange is an input (`Reply`): a status with a body that did or did
    not decode as JSON, or a transport failure (connection error, the 30-second
    timeout). What Python prints for a value (`str(v)`), `json.dumps(v, indent=2)`
    and the text of an exception are not modelled; they arrive as the functions
    of a `Renderers` value. */
module NewsAgent {
  import opened Base
  import opened JsonValues
  import Text

  const CitationSuffix := ", remove citations and dont use markdown"

  /** The text of the one user message in the request: the query plus the
      instruction to drop citations and markdown. */
  function UserMessage(query: string): (m: string)
    ensures |m| == |query| + |CitationSuffix|
    ensures m[..|query|] == query && m[|query|..] == CitationSuffix
  {
    query + CitationSuffix
  }

  /** The JSON-RPC request body posted to the MCP server: a `tools/call` of the
      search tool whose one message is the query with the suffix appended. */
  function Payload(query: string): (r: Json)
    ensures r.JObj? && r.fields.Keys == {"jsonrpc", "id", "method", "params"}
    ensures MessageOf(r) == Some(UserMessage(query))
  {
    JObj(map[
      "jsonrpc" := JStr("2.0"),
      "id" := JNum(1.0),
      "method" := JStr("tools/call"),
      "params" := JObj(map[
        "name" := JStr("search_perplexity"),
        "arguments" := JObj(map[
          "messages" := JArr([JObj(map["role" := JStr("user"), "content" := JStr(UserMessage(query))])]),
          "output_format" := JStr("json")])])])
  }

  /** The user message carried by a request body, where the request shape has one. */
  function MessageOf(payload: Json): Option<string> {
    if payload.JObj? && "params" in payload.fields then
      var params := payload.fields["params"];
      if params.JObj? && "arguments" in params.fields then
        var args := params.fields["arguments"];
        if args.JObj? && "messages" in args.fields then
          var msgs := args.fields["messages"];
          if msgs.JArr? && |msgs.items| > 0 && msgs.items[0].JObj? && "content" in msgs.items[0].fields
             && msgs.items[0].fields["content"].JStr?
          then Some(msgs.items[0].fields["content"].s)
          else None
        else None
      else None
    else None
  }

  /** The request sends exactly the query with the suffix appended, and the query
      can be read back from it. */
  lemma PayloadCarriesQuery(query: string)
    ensures MessageOf(Payload(query)) == Some(UserMessage(query))
    ensures StripSuffix(UserMessage(query)) == Some(query)
  {
  }

  /** Inverse of `UserMessage`: the query a user message was built from. */
  function StripSuffix(m: string): (r: Option<string>)
    ensures r.Some? ==> UserMessage(r.value) == m
  {
    if |m| >= |CitationSuffix| && m[|m| - |CitationSuffix|..] == CitationSuffix
    then Some(m[..|m| - |CitationSuffix|])
    else None
  }

  /** What the HTTP exchange produced. */
  datatype Reply =
    | Response(status: int, body: Body)
    | TransportError(reason: string)   // raised by aiohttp: connection failure, timeout

  /** `await resp.json()`: a decoded document, or the error raised when the body is
      not JSON. */
  datatype Body = Decoded(data: Json) | Undecodable(reason: string)

  /** The exceptions that end in the `except Exception` branch. */
  datatype Fault =
    | Transport(reason: string)   // the session or the POST raised
    | BadBody(reason: string)     // `resp.json()` raised
    | NotAMapping(data: Json)     // `"error" in data`, `data['error']` or `data.get` on a non-dict
    | ItemNotAMapping(item: Json) // `content_list[0].get` on a non-dict item

  /** The formatting the source leaves to Python: `str(v)` inside an f-string,
      `json.dumps(v, indent=2)`, and `str(e)` for a caught exception. */
  datatype Renderers = Renderers(show: Json -> string, dumps: Json -> string, describe: Fault -> string)

  /** Which branch of the decision tree a reply takes. */
  datatype Verdict =
    | BadStatus(status: int)
    | McpError(error: Json)
    | NoResult
    | ContentText(text: Json, result: Json)
    | StringResult(s: string)
    | Dumped(result: Json)
    | Raised(fault: Fault)

  /** The first content item of a dict `result`, when `result['content']` is a
      non-empty list. */
  function FirstContent(result: Json): Option<Json> {
    if result.JObj? && "content" in result.fields then
      var content := result.fields["content"];
      if content.JArr? && |content.items| > 0 then Some(content.items[0]) else None
    else None
  }

  /** The branch taken for a present, non-null `result`. */
  function DecideResult(result: Json): Verdict
    requires result != JNull
  {
    match FirstContent(result)
    case Some(item) =>
      if !item.JObj? then Raised(ItemNotAMapping(item))
      else if "text" in item.fields && Truthy(item.fields["text"]) then ContentText(item.fields["text"], result)
      else if result.JStr? then StringResult(result.s)
      else Dumped(result)
    case None =>
      if result.JStr? then StringResult(result.s) else Dumped(result)
  }

  /** The branch `fetch_news` takes for a reply. */
  function Decide(reply: Reply): (v: Verdict)
    ensures reply.TransportError? ==> v == Raised(Transport(reply.reason))
    ensures reply.Response? && reply.status != 200 <==> v.BadStatus?
    ensures v.BadStatus? ==> v.status == reply.status
  {
    match reply
    case TransportError(reason) => Raised(Transport(reason))
    case Response(status, body) =>
      if status != 200 then BadStatus(status)
      else match body
        case Undecodable(reason) => Raised(BadBody(reason))
        case Decoded(data) =>
          if !data.JObj? then Raised(NotAMapping(data))
          else if "error" in data.fields then McpError(data.fields["error"])
          else match Member(data.fields, "result")
            case None => NoResult
            case Some(result) => if result == JNull then NoResult else DecideResult(result)
  }

  /** The value `fetch_news` returns for a verdict. */
  function Render(v: Verdict, rd: Renderers): Json {
    match v
    case BadStatus(status) => JStr("Failed to fetch news: " + Text.IntToDecimal(status))
    case McpError(error) => JStr("Error from MCP: " + rd.show(error))
    case NoResult => JStr("No news found.")
    case ContentText(text, _) => text
    case StringResult(s) => JStr(s)
    case Dumped(result) => JStr(rd.dumps(result))
    case Raised(fault) => JStr("Exception while fetching news: " + rd.describe(fault))
  }

  /** `fetch_news` as written. Its value is whatever the source returns, which is
      the `text` member itself on the content branch, string or not. */
  function FetchNews(reply: Reply, rd: Renderers): (r: Json)
    ensures !r.JStr? <==> Decide(reply).ContentText? && !Decide(reply).text.JStr?
    ensures Decide(reply).ContentText? ==> r == Decide(reply).text
    ensures Decide(reply).BadStatus? || Decide(reply).Raised? ==> r.JStr? && r.s != ""
  {
    Render(Decide(reply), rd)
  }

  /** `fetch_news` with its declared `str` result honoured: a truthy `text`
      member that is not a string is not returned; the enclosing `result` (a
      dict on that branch) is serialised instead, as the fallback branch does. */
  function FetchText(reply: Reply, rd: Renderers): (r: string)
    ensures FetchNews(reply, rd).JStr? ==> r == FetchNews(reply, rd).s
    ensures !FetchNews(reply, rd).JStr? ==> Decide(reply).ContentText? && r == rd.dumps(Decide(reply).result)
  {
    match Decide(reply)
    case ContentText(text, result) =>
      // `result` is a dict here, so the `str` branch cannot apply
      if text.JStr? then text.s else rd.dumps(result)
    case v => Render(v, rd).s
  }

  /** A reply that reached the server with status 200 and decoded to `data`. */
  function Ok(data: Json): Reply {
    Response(200, Decoded(data))
  }

  /** A non-200 status is reported before the body is looked at, and the status
      can be read back from the message. */
  lemma BadStatusFirst(status: int, body: Body, other: Body, rd: Renderers)
    requires status != 200
    ensures FetchNews(Response(status, body), rd) == FetchNews(Response(status, other), rd)
    ensures var m := FetchNews(Response(status, body), rd);
      && m.JStr? && |m.s| >= 22 && m.s[..22] == "Failed to fetch news: "
      && Text.ParseInt(m.s[22..]) == Some(status)
  {
    var m := FetchNews(Response(status, body), rd);
    assert m.s[22..] == Text.IntToDecimal(status);
    Text.DecimalRoundTrip(status);
  }

  /** A top-level `error` member wins over anything in `result`. */
  lemma ErrorMemberFirst(fields: map<string, Json>, result: Json, rd: Renderers)
    requires "error" in fields
    ensures FetchNews(Ok(JObj(fields)), rd) == JStr("Error from MCP: " + rd.show(fields["error"]))
    ensures FetchNews(Ok(JObj(fields["result" := result])), rd) == FetchNews(Ok(JObj(fields)), rd)
  {
  }

  /** A missing or null `result` (and no `error`) means there is no news. */
  lemma NoResultMeansNoNews(fields: map<string, Json>, rd: Renderers)
    requires "error" !in fields
    ensures ("result" !in fields || fields["result"] == JNull)
        <==> FetchNews(Ok(JObj(fields)), rd) == JStr("No news found.") && Decide(Ok(JObj(fields))) == NoResult
  {
  }

  /** A dict `result` whose first content item has a truthy `text` yields exactly
      that text. */
  lemma ContentTextReturned(fields: map<string, Json>, item: map<string, Json>, rest: seq<Json>, rd: Renderers)
    requires "error" !in fields && "result" in fields
    requires fields["result"].JObj? && "content" in fields["result"].fields
    requires fields["result"].fields["content"] == JArr([JObj(item)] + rest)
    requires "text" in item && Truthy(item["text"])
    ensures FetchNews(Ok(JObj(fields)), rd) == item["text"]
  {
  }

  /** A string `result` is returned as it is, the empty string included. */
  lemma StringResultVerbatim(fields: map<string, Json>, s: string, rd: Renderers)
    requires "error" !in fields && "result" in fields && fields["result"] == JStr(s)
    ensures FetchNews(Ok(JObj(fields)), rd) == JStr(s)
  {
  }

  /** Every other present `result` is rendered with `json.dumps`: the non-dict,
      non-string ones, dicts without a usable content list, and dicts whose first
      content item is a dict without a truthy `text`. */
  lemma OtherResultDumped(fields: map<string, Json>, rd: Renderers)
    requires "error" !in fields && "result" in fields
    requires var result := fields["result"];
      && result != JNull && !result.JStr?
      && (FirstContent(result).Some? ==> FirstContent(result).value.JObj?)
      && (FirstContent(result).Some? ==>
            var item := FirstContent(result).value.fields; "text" !in item || !Truthy(item["text"]))
    ensures FetchNews(Ok(JObj(fields)), rd) == JStr(rd.dumps(fields["result"]))
  {
  }

  /** The `except Exception` branch is taken exactly for a transport failure, an
      undecodable 200 body, decoded data that is not a dict, or a first content
      item that is not a dict; its text is the fixed prefix and the exception. */
  lemma RaisesExactlyWhen(reply: Reply, rd: Renderers)
    ensures Decide(reply).Raised? <==>
      || reply.TransportError?
      || (reply.status == 200 && reply.body.Undecodable?)
      || (reply.status == 200 && reply.body.Decoded? && !reply.body.data.JObj?)
      || (reply.status == 200 && reply.body.Decoded? && reply.body.data.JObj?
          && "error" !in reply.body.data.fields && "result" in reply.body.data.fields
          && reply.body.data.fields["result"] != JNull
          && FirstContent(reply.body.data.fields["result"]).Some?
          && !FirstContent(reply.body.data.fields["result"]).value.JObj?)
    ensures Decide(reply).Raised? ==>
      FetchNews(reply, rd) == JStr("Exception while fetching news: " + rd.describe(Decide(reply).fault))
  {
  }

  /** The source's result is a string on every branch but one: a truthy `text`
      member that is not a string. */
  lemma StringUnlessContentText(reply: Reply, rd: Renderers)
    ensures !FetchNews(reply, rd).JStr? ==> Decide(reply).ContentText? && !Decide(reply).text.JStr?
  {
  }

  /** A reply whose first content item carries the number 5 as `text`: the source
      returns the number itself, not a string, while `FetchText` renders the
      enclosing `result` instead. */
  lemma NumericTextEscapes(rd: Renderers)
    ensures var result := JObj(map["content" := JArr([JObj(map["text" := JNum(5.0)])])]);
      var reply := Ok(JObj(map["result" := result]));
      && FetchNews(reply, rd) == JNum(5.0)
      && FetchText(reply, rd) == rd.dumps(result)
  {
    var result := JObj(map["content" := JArr([JObj(map["text" := JNum(5.0)])])]);
    var data := JObj(map["result" := result]);
    assert "error" !in data.fields;
    assert Member(data.fields, "result") == Some(result);
    assert FirstContent(result) == Some(JObj(map["text" := JNum(5.0)]));
  }
}
