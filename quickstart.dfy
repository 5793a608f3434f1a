/** `renderQuickstart` (components/quickstart.ts): the endpoint, a
    copyable curl request built from the first skill, and an illustrative
    response stamped with the time of rendering. */
module Quickstart {
  import opened Wrappers
  import opened Types
  import opened Text
  import Html

  /** The local `escapeHtml(str: string | undefined)`: absent or empty
      text gives the empty string, anything else the replacement chain. */
  function EscapeHtml(str: Option<string>): (r: string)
    ensures Html.MarkupSafe(r)
    ensures str.None? ==> r == ""
  {
    if str.None? || str.value == "" then "" else Html.EscapeHtml(str.value)
  }

  /** On a present string the guard changes nothing: the two copies of
      the escaper agree, and differ only in accepting `undefined`. */
  lemma EscapeHtmlAgrees(s: string)
    ensures EscapeHtml(Some(s)) == Html.EscapeHtml(s)
  {
    if s == "" {
      assert Html.NoReserved(s);
    }
  }

  const FallbackMethod := "message/send"

  /** `skills[0]?.id || 'message/send'`. */
  function ExampleMethod(skills: seq<Skill>): (m: string)
    ensures m != ""
    ensures |skills| > 0 && skills[0].id != "" ==> m == skills[0].id
    ensures |skills| == 0 || skills[0].id == "" ==> m == FallbackMethod
  {
    if |skills| > 0 && skills[0].id != "" then skills[0].id else FallbackMethod
  }

  /** `skills[0]?.examples?.[0]`: the first example of the first skill, if any. */
  function FirstExample(skills: seq<Skill>): Option<string> {
    if |skills| > 0 && skills[0].examples.Some? && |skills[0].examples.value| > 0
    then Some(skills[0].examples.value[0])
    else None
  }

  /** `{"symbol":"<e>"}` for a non-empty first example `e`, inserted
      without escaping; `{}` otherwise. */
  function ExampleParams(skills: seq<Skill>): (params: string)
    ensures params == "{}" <==> FirstExample(skills).None? || FirstExample(skills).value == ""
  {
    match FirstExample(skills)
    case Some(e) =>
      if e == "" then "{}"
      else
        var params := "{\"symbol\":\"" + e + "\"}";
        assert params[1] == '"';
        params
    case None => "{}"
  }

  const Intro := "\n    <section>\n      <h2>\U{26A1} Quick Start</h2>\n      <p style=\"color: var(--text-dim); margin-bottom: 1rem;\">Get started with a single request. Payments handled automatically via x402.</p>\n      \n      <div class=\"endpoint\">\n        <span class=\"method\">POST</span>\n        "
  const RequestIntro := "\n      </div>\n\n      <h3>Example Request</h3>\n      <pre><button class=\"copy-btn\" onclick=\"copyCode(this)\">Copy</button>"
  const CurlOptions := "\n  -H \"Content-Type: application/json\" \\\n  -d '{\"jsonrpc\":\"2.0\","
  const ResponseIntro := "\"id\":1}'</pre>\n\n      <div class=\"response-example\">\n        <h3>Response (after x402 payment)</h3>\n        <pre>{\n  \"jsonrpc\": \"2.0\",\n  \"result\": {\n    \"symbol\": \"BTCUSDT\",\n    \"price\": 86047.98,\n    \"source\": \"Polymarket (Binance)\",\n    \"timestamp\": "
  const ResponseClose := "\n  },\n  \"id\": 1\n}</pre>\n      </div>\n    </section>"

  /** The endpoint: the escaped URL with `/a2a` appended. */
  function Endpoint(url: string): (e: string)
    ensures e == Html.EscapeHtml(url) + "/a2a"
  {
    EscapeHtmlAgrees(url);
    EscapeHtml(Some(url)) + "/a2a"
  }

  /** The endpoint as shown above the example. */
  function EndpointPath(url: string): string {
    "<span class=\"path\">" + Endpoint(url) + "</span>"
  }

  /** The first line of the curl example, on the same endpoint. */
  function CurlLine(url: string): string {
    "curl -X POST " + Endpoint(url) + " \\"
  }

  /** The method and params members of the JSON-RPC body; the method is escaped. */
  function MethodField(name: string): string {
    "\"method\":\"" + EscapeHtml(Some(name)) + "\","
  }

  function ParamsField(params: string): string {
    "\"params\":" + params + ","
  }

  /** The fragment up to the timestamp: endpoint, curl request and the
      fixed start of the example response. */
  function RequestText(url: string, name: string, params: string): string {
    Intro + (EndpointPath(url) + (RequestIntro + (CurlLine(url) + (CurlOptions +
      (MethodField(name) + (ParamsField(params) + ResponseIntro))))))
  }

  /** The end of the example response, from the timestamp on; `now`
      stands for `Date.now()`. */
  function ResponseTail(now: int): string {
    IntToDecimal(now) + ResponseClose
  }

  /** The template literal of `renderQuickstart`. The theme argument is
      accepted and not read. */
  function RenderQuickstart(card: AgentCard, theme: Theme, now: int): string {
    RequestText(card.url, ExampleMethod(card.skills), ExampleParams(card.skills)) + ResponseTail(now)
  }

  /** The escaped URL with `/a2a` appears twice: as the endpoint path and,
      after it, in the curl line. */
  lemma QuickstartEndpointTwice(card: AgentCard, theme: Theme, now: int)
    ensures OccursBefore(Html.EscapeHtml(card.url) + "/a2a", Html.EscapeHtml(card.url) + "/a2a",
                         RenderQuickstart(card, theme, now))
  {
    var name, params := ExampleMethod(card.skills), ExampleParams(card.skills);
    EndpointTwiceInRequest(card.url, name, params);
    OccursBeforeInPrefix(Endpoint(card.url), Endpoint(card.url), RequestText(card.url, name, params), ResponseTail(now));
  }

  lemma EndpointTwiceInRequest(url: string, name: string, params: string)
    ensures OccursBefore(Endpoint(url), Endpoint(url), RequestText(url, name, params))
  {
    var e := Endpoint(url);
    OccursBetween("<span class=\"path\">", e, "</span>");
    OccursBetween("curl -X POST ", e, " \\");
    var rest := CurlOptions + (MethodField(name) + (ParamsField(params) + ResponseIntro));
    OccursBeforeNested(Intro, EndpointPath(url), RequestIntro, CurlLine(url), rest, e, e);
  }

  /** The JSON-RPC body names the example method, escaped, and carries the
      example params as they are. */
  lemma QuickstartRequestBody(card: AgentCard, theme: Theme, now: int)
    ensures Occurs(MethodField(ExampleMethod(card.skills)), RenderQuickstart(card, theme, now))
    ensures Occurs(ParamsField(ExampleParams(card.skills)), RenderQuickstart(card, theme, now))
    ensures MethodField(ExampleMethod(card.skills)) == "\"method\":\"" + Html.EscapeHtml(ExampleMethod(card.skills)) + "\","
  {
    var url, name, params := card.url, ExampleMethod(card.skills), ExampleParams(card.skills);
    OccursAtStart(MethodField(name), ParamsField(params) + ResponseIntro);
    OccursAtStart(ParamsField(params), ResponseIntro);
    OccursInSuffix(ParamsField(params), MethodField(name), ParamsField(params) + ResponseIntro);
    InBody(url, name, params, MethodField(name));
    InBody(url, name, params, ParamsField(params));
    OccursInPrefix(MethodField(name), RequestText(url, name, params), ResponseTail(now));
    OccursInPrefix(ParamsField(params), RequestText(url, name, params), ResponseTail(now));
    EscapeHtmlAgrees(name);
  }

  /** What occurs in the JSON-RPC body occurs in the request. */
  lemma InBody(url: string, name: string, params: string, x: string)
    requires Occurs(x, MethodField(name) + (ParamsField(params) + ResponseIntro))
    ensures Occurs(x, RequestText(url, name, params))
  {
    var body := MethodField(name) + (ParamsField(params) + ResponseIntro);
    OccursInSuffix(x, CurlOptions, body);
    OccursInSuffix(x, CurlLine(url), CurlOptions + body);
    OccursInSuffix(x, RequestIntro, CurlLine(url) + (CurlOptions + body));
    OccursInSuffix(x, EndpointPath(url), RequestIntro + (CurlLine(url) + (CurlOptions + body)));
    OccursInSuffix(x, Intro, EndpointPath(url) + (RequestIntro + (CurlLine(url) + (CurlOptions + body))));
  }

  /** A non-empty first example reaches the fragment unescaped. */
  lemma QuickstartExampleVerbatim(card: AgentCard, theme: Theme, now: int)
    requires FirstExample(card.skills).Some? && FirstExample(card.skills).value != ""
    ensures Occurs("{\"symbol\":\"" + FirstExample(card.skills).value + "\"}", RenderQuickstart(card, theme, now))
  {
    var p := ExampleParams(card.skills);
    ExampleParamsOfExample(card.skills);
    QuickstartRequestBody(card, theme, now);
    OccursBetween("\"params\":", p, ",");
    OccursTransitive(p, ParamsField(p), RenderQuickstart(card, theme, now));
  }

  lemma ExampleParamsOfExample(skills: seq<Skill>)
    requires FirstExample(skills).Some? && FirstExample(skills).value != ""
    ensures ExampleParams(skills) == "{\"symbol\":\"" + FirstExample(skills).value + "\"}"
  {
  }

  /** Only the URL and the first skill are read: cards that agree on those
      give the same fragment, whatever their other skills and the theme. */
  lemma QuickstartReadsOnlyUrlAndFirstSkill(a: AgentCard, b: AgentCard, ta: Theme, tb: Theme, now: int)
    requires a.url == b.url
    requires |a.skills| == 0 <==> |b.skills| == 0
    requires |a.skills| > 0 ==> a.skills[0] == b.skills[0]
    ensures RenderQuickstart(a, ta, now) == RenderQuickstart(b, tb, now)
  {
    SameFirstSkill(a.skills, b.skills);
  }

  lemma SameFirstSkill(s: seq<Skill>, t: seq<Skill>)
    requires |s| == 0 <==> |t| == 0
    requires |s| > 0 ==> s[0] == t[0]
    ensures ExampleMethod(s) == ExampleMethod(t) && ExampleParams(s) == ExampleParams(t)
  {
    assert FirstExample(s) == FirstExample(t);
  }

  /** The timestamp is the one varying input, and it is not lost: two
      renderings of the same card are equal exactly when their timestamps are. */
  lemma QuickstartTimestamp(card: AgentCard, theme: Theme, n1: int, n2: int)
    ensures RenderQuickstart(card, theme, n1) == RenderQuickstart(card, theme, n2) <==> n1 == n2
  {
    if RenderQuickstart(card, theme, n1) == RenderQuickstart(card, theme, n2) {
      CancelPrefix(RequestText(card.url, ExampleMethod(card.skills), ExampleParams(card.skills)), ResponseTail(n1), ResponseTail(n2));
      CancelSuffix(IntToDecimal(n1), IntToDecimal(n2), ResponseClose);
      IntToDecimalInjective(n1, n2);
    }
  }

  /** The examples of a one-skill card with one example, and of a card without skills. */
  lemma QuickstartExamples(priced: seq<Skill>, none: seq<Skill>)
    requires priced == [Skill("get_price", Some(["BTCUSDT"]))]
    requires none == []
    ensures ExampleMethod(priced) == "get_price"
    ensures ExampleParams(priced) == "{\"symbol\":\"BTCUSDT\"}"
    ensures ExampleMethod(none) == "message/send"
    ensures ExampleParams(none) == "{}"
  {
  }
}
