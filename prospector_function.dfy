/**
 * The lead-prospector edge function: it checks the caller and the request,
 * sends the search results to the AI gateway, and pulls the leads out of the
 * reply text. The reply's JSON is found with the greedy pattern `\{[\s\S]*\}`,
 * which spans from the first `{` to the last `}`; the span is then given to
 * `JSON.parse`, here the parameter `parse`.
 */
module ProspectorFunction {
  import opened Wrappers
  import opened Text
  import opened Leads

  /** The position of the first `c` in `s`. */
  function FirstIndex(s: string, c: char): (r: Option<nat>)
    ensures r.Some? ==> r.value < |s| && s[r.value] == c && forall k :: 0 <= k < r.value ==> s[k] != c
    ensures r.None? ==> forall k :: 0 <= k < |s| ==> s[k] != c
  {
    if s == [] then None
    else if s[0] == c then Some(0)
    else
      match FirstIndex(s[1..], c)
      case None => None
      case Some(i) => Some(i + 1)
  }

  /** The position of the last `c` in `s`. */
  function LastIndex(s: string, c: char): (r: Option<nat>)
    ensures r.Some? ==> r.value < |s| && s[r.value] == c && forall k :: r.value < k < |s| ==> s[k] != c
    ensures r.None? ==> forall k :: 0 <= k < |s| ==> s[k] != c
  {
    if s == [] then None
    else if s[|s| - 1] == c then Some(|s| - 1)
    else
      var init := s[..|s| - 1];
      assert forall k :: 0 <= k < |init| ==> init[k] == s[k];
      LastIndex(init, c)
  }

  /** The text `content.match(/\{[\s\S]*\}/)` matches: from the first `{` to the
      last `}`, when that `}` comes after it. */
  function MatchSpan(content: string): (r: Option<string>)
    ensures r.Some? <==> exists i, j :: 0 <= i < j < |content| && content[i] == '{' && content[j] == '}'
    ensures r.Some? ==> exists i, j ::
              && 0 <= i < j < |content| && r.value == content[i..j + 1]
              && content[i] == '{' && (forall k :: 0 <= k < i ==> content[k] != '{')
              && content[j] == '}' && (forall k :: j < k < |content| ==> content[k] != '}')
  {
    var i, j := FirstIndex(content, '{'), LastIndex(content, '}');
    if i.Some? && j.Some? && i.value < j.value then
      Some(content[i.value..j.value + 1])
    else
      None
  }

  /** The span starts with `{`, ends with `}`, and is at least two characters. */
  lemma MatchSpanShape(content: string)
    requires MatchSpan(content).Some?
    ensures var t := MatchSpan(content).value;
      |t| >= 2 && t[0] == '{' && t[|t| - 1] == '}'
  {
  }

  /** Matching again inside the matched span gives the span back. */
  lemma MatchSpanIdempotent(content: string)
    requires MatchSpan(content).Some?
    ensures MatchSpan(MatchSpan(content).value) == MatchSpan(content)
  {
    var t := MatchSpan(content).value;
    var i, j := FirstIndex(t, '{'), LastIndex(t, '}');
    assert |t| >= 2 && t[0] == '{' && t[|t| - 1] == '}';
    assert i == Some(0);
    assert j == Some(|t| - 1);
    assert t[0..|t|] == t;
  }

  /** What `JSON.parse` yields that matters here: the `leads` value when it is
      truthy, else nothing. A parse error is `None` from `parse`. */
  datatype ParsedReply = ParsedReply(leads: Option<seq<Candidate>>)

  /** `leads` after the try block: the parsed `leads`, or `[]` when there is no
      span, the span does not parse, or it has no truthy `leads`. */
  function ExtractLeads(content: string, parse: string -> Option<ParsedReply>): (r: seq<Candidate>)
    ensures MatchSpan(content).None? ==> r == []
    ensures MatchSpan(content).Some? && parse(MatchSpan(content).value).None? ==> r == []
    ensures r != [] ==> MatchSpan(content).Some? && parse(MatchSpan(content).value) == Some(ParsedReply(Some(r)))
    ensures forall ls :: MatchSpan(content).Some? && parse(MatchSpan(content).value) == Some(ParsedReply(Some(ls))) ==> r == ls
  {
    match MatchSpan(content)
    case None => []
    case Some(span) =>
      match parse(span)
      case None => []
      case Some(p) => p.leads.GetOr([])
  }

  /** Prose around one object, where the prose before it has no `{` and the prose
      after it no `}`: the span is exactly the object. */
  lemma WrappedObject(before: string, obj: string, after: string)
    requires |obj| >= 2 && obj[0] == '{' && obj[|obj| - 1] == '}'
    requires forall k :: 0 <= k < |before| ==> before[k] != '{'
    requires forall k :: 0 <= k < |after| ==> after[k] != '}'
    ensures MatchSpan(before + obj + after) == Some(obj)
  {
    var s := before + obj + after;
    var i, j := |before|, |before| + |obj| - 1;
    assert s[i] == '{' && s[j] == '}';
    assert forall k :: 0 <= k < i ==> s[k] == before[k];
    assert forall k :: j < k < |s| ==> s[k] == after[k - j - 1];
    assert FirstIndex(s, '{') == Some(i);
    assert LastIndex(s, '}') == Some(j);
    assert s[i..j + 1] == obj;
  }

  /** A reply that wraps one object in prose gives that object to the parser. */
  lemma ProseAroundObject()
    ensures MatchSpan("Aqui está: " + "{\"leads\": []}" + " Obrigado.") == Some("{\"leads\": []}")
  {
    WrappedObject("Aqui está: ", "{\"leads\": []}", " Obrigado.");
  }

  /** Two separate objects are not split: the span runs from the first one's `{`
      to the second one's `}`, with the prose between them. */
  lemma TwoObjectsOneSpan()
    ensures MatchSpan("{\"a\": 1} e {\"b\": 2}") == Some("{\"a\": 1} e {\"b\": 2}")
  {
    var s := "{\"a\": 1} e {\"b\": 2}";
    assert FirstIndex(s, '{') == Some(0);
    assert LastIndex(s, '}') == Some(|s| - 1);
    assert s[0..|s|] == s;
  }

  /** A reply without `{` has no span and yields no leads. */
  lemma NoBraceNoSpan(content: string)
    requires forall k :: 0 <= k < |content| ==> content[k] != '{'
    ensures MatchSpan(content) == None
    ensures forall parse: string -> Option<ParsedReply> :: ExtractLeads(content, parse) == []
  {
  }

  /** The incoming request. `searchResults` is `None` when it is missing or is not
      an array; its items are kept as their JSON text. */
  datatype Request = Request(authenticated: bool, searchResults: Option<seq<string>>)

  /** The gateway's answer: its HTTP status, and the first choice's message
      content, or "" when absent. */
  datatype GatewayReply = GatewayReply(status: nat, content: string)

  /** The function's JSON answer with its HTTP status. */
  datatype Response = Response(status: nat, success: bool, error: string, leads: seq<Candidate>)

  /** `response.ok`. */
  predicate Ok(status: nat) {
    200 <= status <= 299
  }

  /** The handler for a POST. `apiKey` is the configured key, "" when it is unset. */
  function Handle(req: Request, apiKey: string, reply: GatewayReply, parse: string -> Option<ParsedReply>): (r: Response)
    ensures !req.authenticated ==> r == Response(401, false, "Unauthorized", [])
    ensures req.authenticated && req.searchResults.None? ==> r == Response(400, false, "Search results are required", [])
    ensures req.authenticated && req.searchResults.Some? && apiKey == "" ==>
              r == Response(500, false, "LOVABLE_API_KEY is not configured", [])
    ensures req.authenticated && req.searchResults.Some? && apiKey != "" && !Ok(reply.status) ==>
              r == Response(500, false, "AI API error: " + Decimal(reply.status), [])
    ensures r.success <==> req.authenticated && req.searchResults.Some? && apiKey != "" && Ok(reply.status)
    ensures r.success ==> r.status == 200 && r.error == "" && r.leads == ExtractLeads(reply.content, parse)
    ensures !r.success ==> r.leads == [] && r.error != ""
  {
    if !req.authenticated then Response(401, false, "Unauthorized", [])
    else if req.searchResults.None? then Response(400, false, "Search results are required", [])
    else if apiKey == "" then Response(500, false, "LOVABLE_API_KEY is not configured", [])
    else if !Ok(reply.status) then Response(500, false, "AI API error: " + Decimal(reply.status), [])
    else Response(200, true, "", ExtractLeads(reply.content, parse))
  }

  /** A request without search results is refused before the AI is consulted:
      the answer does not depend on the key, the gateway or the parser. */
  lemma MissingResultsIgnoresAi(req: Request, k1: string, k2: string, r1: GatewayReply, r2: GatewayReply,
                                p1: string -> Option<ParsedReply>, p2: string -> Option<ParsedReply>)
    requires req.authenticated && req.searchResults.None?
    ensures Handle(req, k1, r1, p1) == Handle(req, k2, r2, p2)
    ensures Handle(req, k1, r1, p1).status == 400
  {
  }

  /** An empty array of results is present (an array is truthy), so it reaches the AI. */
  lemma EmptyResultsReachAi(apiKey: string, reply: GatewayReply, parse: string -> Option<ParsedReply>)
    requires apiKey != "" && Ok(reply.status)
    ensures Handle(Request(true, Some([])), apiKey, reply, parse).success
  {
  }

  /** A reply the parser cannot read still succeeds, with no leads. */
  lemma UnparsedReplySucceedsEmpty(req: Request, apiKey: string, reply: GatewayReply, parse: string -> Option<ParsedReply>)
    requires req.authenticated && req.searchResults.Some? && apiKey != "" && Ok(reply.status)
    requires MatchSpan(reply.content).None? || parse(MatchSpan(reply.content).value).None?
    ensures Handle(req, apiKey, reply, parse) == Response(200, true, "", [])
  {
  }
}
