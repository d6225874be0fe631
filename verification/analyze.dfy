/**
  The serverless analyze endpoint: it answers the CORS preflight, accepts only
  POST, checks that amount, risk and time horizon are present, builds the
  advisory prompt, forwards it to the chat-completion service and relays the
  reply. The outcome of the upstream call is an input; the handler reports
  the request it would send (`None` when it makes no upstream call).
 */
module Analyze {

  import opened Options
  import opened Js
  import opened Strings

  /** The request body after `JSON.parse` and destructuring of the three fields. */
  datatype Body =
    /** `JSON.parse` threw, or the body decoded to `null` and destructuring threw. */
    | Unparsable(message: string)
    | Parsed(amount: Value, risk: Value, timeHorizon: Value)

  datatype Event = Event(httpMethod: string, body: Body)

  /** What the upstream call comes back with. */
  datatype Upstream =
    /** The call or the decoding of its reply threw (network error, bad JSON, no first choice). */
    | Threw(message: string)
    /** The service answered with a non-2xx status. */
    | NotOk(status: nat, errorText: string)
    /** `choices[0].message.content` of a successful reply. */
    | Completion(content: string)

  datatype UpstreamRequest = UpstreamRequest(model: string, maxTokens: nat, prompt: string)

  /** The response body, before JSON serialisation. */
  datatype ResponseBody =
    | Empty
    | Error(error: string)
    | ErrorWithMessage(error: string, message: string)
    | Content(text: string)

  datatype Response = Response(statusCode: nat, headers: map<string, string>, body: ResponseBody)

  datatype Outcome = Outcome(response: Response, request: Option<UpstreamRequest>)

  const CorsHeaders: map<string, string> := map[
    "Access-Control-Allow-Origin" := "*",
    "Access-Control-Allow-Headers" := "Content-Type",
    "Access-Control-Allow-Methods" := "POST, OPTIONS",
    "Content-Type" := "application/json"]

  const Model: string := "llama-3.1-70b-versatile"
  const MaxTokens: nat := 2000
  const MethodNotAllowed: string := "Method Not Allowed"
  const MissingParameters: string := "Missing required parameters"
  const InternalError: string := "Internal server error"
  /** The TypeError message Node.js gives when an object cannot be converted to a primitive. */
  const ConversionError: string := "Cannot convert object to primitive value"

  const HorizonLabels: map<string, string> := map[
    "short" := "kurzfristig (weniger als 1 Jahr)",
    "medium" := "mittelfristig (1-5 Jahre)",
    "long" := "langfristig (mehr als 5 Jahre)"]

  const RiskLabels: map<string, string> := map[
    "conservative" := "konservativ (sicherheitsorientiert)",
    "moderate" := "moderat (ausgewogen)",
    "aggressive" := "aggressiv (wachstumsorientiert)"]

  /** `table[key]` interpolated into a template: the label, or `undefined` for an unknown key. */
  function Label(table: map<string, string>, key: Value): string
    requires Printable(key)
  {
    var k := Interpolate(key);
    if k in table then table[k] else "undefined"
  }

  const PromptOpening: string := "Du bist ein erfahrener Finanzberater. Ein Kunde möchte "
  const PromptDetailsHeading: string := "\n\nKundendetails:\n"
  const PromptInstructions: string :=
    "\nBitte erstelle eine detaillierte, personalisierte Investitionsempfehlung mit folgenden Punkten:"
    + "\n\n1. Portfolio-Allokation: Gib eine konkrete prozentuale Aufteilung auf verschiedene Anlageklassen (z.B. Aktien, Anleihen, ETFs, Gold, Cash)"
    + "\n\n2. Konkrete Beispiele: Nenne 3-5 spezifische Investitionsmöglichkeiten mit Namen (z.B. bestimmte ETFs, Indexfonds)"
    + "\n\n3. Risiko-Bewertung: Erkläre die Risiken dieser Strategie"
    + "\n\n4. Erwartete Rendite: Gib eine realistische Einschätzung der möglichen Rendite"
    + "\n\n5. Nächste Schritte: Was sollte der Kunde als nächstes tun?"
    + "\n\nBitte antworte auf Deutsch und strukturiere die Antwort übersichtlich."

  function AmountSentence(amount: Value): string requires Printable(amount) { "CHF " + Interpolate(amount) + " investieren." }
  function AmountLine(amount: Value): string requires Printable(amount) { "- Investitionsbetrag: CHF " + Interpolate(amount) + "\n" }
  function RiskLine(risk: Value): string requires Printable(risk) { "- Risikoprofil: " + Label(RiskLabels, risk) + "\n" }
  function HorizonLine(timeHorizon: Value): string requires Printable(timeHorizon) { "- Anlagehorizont: " + Label(HorizonLabels, timeHorizon) + "\n" }

  /** The advisory prompt sent upstream. */
  function Prompt(amount: Value, risk: Value, timeHorizon: Value): string
    requires AllPrintable(amount, risk, timeHorizon)
  {
    PromptOpening + AmountSentence(amount) + PromptDetailsHeading
    + AmountLine(amount) + RiskLine(risk) + HorizonLine(timeHorizon)
    + PromptInstructions
  }

  /** Decimal digits of a natural number, as a template literal prints it. */
  function ShowNat(n: nat): string
    decreases n
  {
    var digit := [(('0' as int) + n % 10) as char];
    if n < 10 then digit else ShowNat(n / 10) + digit
  }

  /** The three fields are all truthy. */
  predicate HasAllFields(amount: Value, risk: Value, timeHorizon: Value) {
    Truthy(amount) && Truthy(risk) && Truthy(timeHorizon)
  }

  /** All three fields convert to strings, so building the prompt does not throw. */
  predicate AllPrintable(amount: Value, risk: Value, timeHorizon: Value) {
    Printable(amount) && Printable(risk) && Printable(timeHorizon)
  }

  /** The POST path once the request has been validated and the upstream call made. */
  function Relay(upstream: Upstream): Response {
    match upstream
    case Threw(message) => Response(500, CorsHeaders, ErrorWithMessage(InternalError, message))
    case NotOk(status, errorText) =>
      Response(500, CorsHeaders, ErrorWithMessage(InternalError, "Groq API Error " + ShowNat(status) + ": " + errorText))
    case Completion(content) => Response(200, CorsHeaders, Content(content))
  }

  /** `exports.handler`. */
  function Handle(event: Event, upstream: Upstream): (o: Outcome)
    ensures o.response.headers == CorsHeaders
    ensures o.response.statusCode in {200, 400, 405, 500}
    ensures event.httpMethod == "OPTIONS" ==>
      o == Outcome(Response(200, CorsHeaders, Empty), None)
    ensures event.httpMethod != "OPTIONS" && event.httpMethod != "POST" ==>
      o == Outcome(Response(405, CorsHeaders, Error(MethodNotAllowed)), None)
    ensures event.httpMethod == "POST" && event.body.Unparsable? ==>
      o == Outcome(Response(500, CorsHeaders, ErrorWithMessage(InternalError, event.body.message)), None)
    ensures (event.httpMethod == "POST" && event.body.Parsed?
      && !HasAllFields(event.body.amount, event.body.risk, event.body.timeHorizon)) ==>
      o == Outcome(Response(400, CorsHeaders, Error(MissingParameters)), None)
    ensures (event.httpMethod == "POST" && event.body.Parsed?
      && HasAllFields(event.body.amount, event.body.risk, event.body.timeHorizon)
      && !AllPrintable(event.body.amount, event.body.risk, event.body.timeHorizon)) ==>
      o == Outcome(Response(500, CorsHeaders, ErrorWithMessage(InternalError, ConversionError)), None)
    ensures o.request.Some? <==>
      event.httpMethod == "POST" && event.body.Parsed?
      && HasAllFields(event.body.amount, event.body.risk, event.body.timeHorizon)
      && AllPrintable(event.body.amount, event.body.risk, event.body.timeHorizon)
    ensures o.request.Some? ==>
      o.request.value == UpstreamRequest(Model, MaxTokens,
        Prompt(event.body.amount, event.body.risk, event.body.timeHorizon))
    ensures o.request.Some? && upstream.Completion? ==>
      o.response.statusCode == 200 && o.response.body == Content(upstream.content)
    ensures o.request.Some? && upstream.Threw? ==>
      o.response.statusCode == 500 && o.response.body == ErrorWithMessage(InternalError, upstream.message)
    ensures o.request.Some? && upstream.NotOk? ==>
      o.response.statusCode == 500
      && o.response.body.ErrorWithMessage? && o.response.body.error == InternalError
      && o.response.body.message == "Groq API Error " + ShowNat(upstream.status) + ": " + upstream.errorText
  {
    if event.httpMethod == "OPTIONS" then
      Outcome(Response(200, CorsHeaders, Empty), None)
    else if event.httpMethod != "POST" then
      Outcome(Response(405, CorsHeaders, Error(MethodNotAllowed)), None)
    else
      match event.body
      case Unparsable(message) =>
        Outcome(Response(500, CorsHeaders, ErrorWithMessage(InternalError, message)), None)
      case Parsed(amount, risk, timeHorizon) =>
        if !HasAllFields(amount, risk, timeHorizon) then
          Outcome(Response(400, CorsHeaders, Error(MissingParameters)), None)
        else if !AllPrintable(amount, risk, timeHorizon) then
          Outcome(Response(500, CorsHeaders, ErrorWithMessage(InternalError, ConversionError)), None)
        else
          Outcome(Relay(upstream), Some(UpstreamRequest(Model, MaxTokens, Prompt(amount, risk, timeHorizon))))
  }

  /** Success is reported exactly for a preflight or a relayed completion, and only a completion carries content. */
  lemma SuccessCharacterised(event: Event, upstream: Upstream)
    ensures var o := Handle(event, upstream);
      && (o.response.statusCode == 200 <==>
           event.httpMethod == "OPTIONS" || (o.request.Some? && upstream.Completion?))
      && (o.response.body.Content? <==> o.request.Some? && upstream.Completion?)
  {
  }

  /** When no upstream request is made, the upstream outcome cannot influence the response. */
  lemma UpstreamIgnoredWithoutRequest(event: Event, u1: Upstream, u2: Upstream)
    requires Handle(event, u1).request.None?
    ensures Handle(event, u1) == Handle(event, u2)
  {
  }

  /** Each of the four middle pieces of a seven-piece concatenation occurs in it. */
  lemma PiecesContained(o: string, s: string, d: string, a: string, r: string, h: string, i: string)
    ensures var p := o + s + d + a + r + h + i;
      Contains(p, s) && Contains(p, a) && Contains(p, r) && Contains(p, h)
  {
    var p := o + s + d + a + r + h + i;
    assert p == o + s + (d + a + r + h + i);
    ContainsInfix(o, s, d + a + r + h + i);
    assert p == (o + s + d) + a + (r + h + i);
    ContainsInfix(o + s + d, a, r + h + i);
    assert p == (o + s + d + a) + r + (h + i);
    ContainsInfix(o + s + d + a, r, h + i);
    ContainsInfix(o + s + d + a + r, h, i);
  }

  /** The prompt quotes the amount twice and the looked-up risk and horizon labels. */
  lemma PromptEmbedsFields(amount: Value, risk: Value, timeHorizon: Value)
    requires AllPrintable(amount, risk, timeHorizon)
    ensures var p := Prompt(amount, risk, timeHorizon);
      && Contains(p, AmountSentence(amount))
      && Contains(p, AmountLine(amount))
      && Contains(p, RiskLine(risk))
      && Contains(p, HorizonLine(timeHorizon))
  {
    PiecesContained(PromptOpening, AmountSentence(amount), PromptDetailsHeading,
      AmountLine(amount), RiskLine(risk), HorizonLine(timeHorizon), PromptInstructions);
  }

  /** For a known risk key and a known horizon key the prompt carries the fixed labels of the two tables. */
  lemma KnownKeysLabelled(amount: Value, risk: Value, timeHorizon: Value)
    requires AllPrintable(amount, risk, timeHorizon)
    requires Interpolate(risk) in RiskLabels && Interpolate(timeHorizon) in HorizonLabels
    ensures var p := Prompt(amount, risk, timeHorizon);
      && Contains(p, "- Risikoprofil: " + RiskLabels[Interpolate(risk)] + "\n")
      && Contains(p, "- Anlagehorizont: " + HorizonLabels[Interpolate(timeHorizon)] + "\n")
      && Contains(p, "CHF " + Interpolate(amount) + " investieren.")
  {
    PromptEmbedsFields(amount, risk, timeHorizon);
  }

  /** A key outside either table is printed as `undefined`. */
  lemma UnknownKeyPrintsUndefined(amount: Value, risk: Value, timeHorizon: Value)
    requires AllPrintable(amount, risk, timeHorizon)
    ensures Interpolate(risk) !in RiskLabels ==>
      Contains(Prompt(amount, risk, timeHorizon), "- Risikoprofil: undefined\n")
    ensures Interpolate(timeHorizon) !in HorizonLabels ==>
      Contains(Prompt(amount, risk, timeHorizon), "- Anlagehorizont: undefined\n")
  {
    UndefinedLines(risk, timeHorizon);
    PromptEmbedsFields(amount, risk, timeHorizon);
  }

  lemma UndefinedLines(risk: Value, timeHorizon: Value)
    requires Printable(risk) && Printable(timeHorizon)
    ensures Interpolate(risk) !in RiskLabels ==> RiskLine(risk) == "- Risikoprofil: undefined\n"
    ensures Interpolate(timeHorizon) !in HorizonLabels ==> HorizonLine(timeHorizon) == "- Anlagehorizont: undefined\n"
  {
  }

  /** An object that cannot be printed gets through the presence check but fails with 500 before any upstream request. */
  lemma UnconvertibleFieldFails(risk: Value, timeHorizon: Value, upstream: Upstream)
    requires Truthy(risk) && Truthy(timeHorizon)
    ensures Handle(Event("POST", Parsed(Unconvertible, risk, timeHorizon)), upstream)
      == Outcome(Response(500, CorsHeaders, ErrorWithMessage(InternalError, ConversionError)), None)
  {
  }

}
