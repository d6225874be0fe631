# InvestWise core, modelled in Dafny

InvestWise is a browser front end that gives investment advice, backed by one
serverless endpoint that forwards a prompt to a chat-completion service. This
project models the sequential logic of both halves and proves properties of it:

- **Portfolio ledger** (`portfolio.dfy`, module `Portfolio`): positions are
  appended from a validated form, removed by id, and summed into total value,
  total invested and gain/loss. Every change is saved to browser storage,
  modelled by the `saved` field of `Ledger`. The clock reading used as an id is
  a parameter.
- **Savings calculator** (`calculator.dfy`, module `Calculator`): the nested
  year/month compounding loop of `calculateFinal`, written as a method with loop
  invariants and checked against the recursive `Grow`. It is applied to the
  three fixed rates 4 %, 6.5 % and 8.5 %. Arithmetic is over `real`.
- **Paragraph stage of the recommendation formatter** (`formatter.dfy`,
  module `Formatter`, over `strings.dfy`, module `Strings`): split at blank
  lines, wrap every chunk without `<h3>`/`<ul>` in `<p>…</p>`, join with newlines.
- **Analyze endpoint** (`analyze.dfy`, module `Analyze`): the status-code
  decision of the handler. The upstream call's outcome is an input, and the
  handler reports the request it would send.

`js.dfy` (module `Js`) holds the JavaScript value semantics these rely on:
`parseFloat` results, truthiness, and template-literal printing. `options.dfy`
holds `Option`.

The calculator's yearly loop compares an integer counter against the years
value, which may be fractional. An empty, zero or unparsable years field counts
as one year. While the counter and the balance stay in the range of a double,
the loop runs ceil(years) times, and not at all for a negative field
(`Calculator.LoopYears`).

## Model

| member | source | states |
|---|---|---|
| Portfolio.Load | app.js:3 | a missing storage key yields the empty portfolio with nothing saved; a stored list is adopted and storage already mirrors it |
| Portfolio.ReloadShowsSame | app.js:3-347 | after any sequence of adds and removes from any start, loading what storage holds gives back the in-memory portfolio, so a reload shows the same list |
| Portfolio.AddPosition | app.js:312-331 | an empty name, or a share count or price that is 0 or NaN, leaves the ledger untouched (no append, no save); otherwise exactly one record is appended after the unchanged earlier entries, with the given id and name, buy and current price equal to the price, value shares times price, and storage then mirrors the portfolio; consistency is preserved |
| Portfolio.Without | app.js:340 | the result holds exactly the positions whose id differs, never more entries than the input, and is the input itself when no position carries the id |
| Portfolio.RemovePosition | app.js:339-341 | the new portfolio is the order-preserving filter `Without` of the old one, holding exactly the old positions with a different id, an absent id leaves it unchanged, storage is rewritten to match, and consistency is preserved |
| Portfolio.WithoutConcat | app.js:340 | removal distributes over concatenation, so the survivors keep their original relative order |
| Portfolio.RemoveIdempotent | app.js:339-340 | removing an id a second time changes nothing |
| Portfolio.PortfolioStats | app.js:376-379 | gain/loss is total value minus total invested; an empty portfolio shows three zeros; a one-position portfolio shows that position's value and shares times buy price; a consistent portfolio has equal totals and zero gain/loss |
| Portfolio.BalancedWhenConsistent | app.js:377-378 | when every position's value is shares times buy price, the sum of values equals the sum of shares times buy price |
| Portfolio.TotalsOfConcat | app.js:377-378 | both left-to-right sums split over a concatenation of portfolios |
| Portfolio.StatsOfConcat | app.js:377-378 | the displayed totals of a concatenation are the sums of the parts' totals, which with the empty and one-position cases makes them the sums over all positions |
| Portfolio.StatsAfterAdd | app.js:321-330 | an accepted add raises total value and total invested each by exactly shares times price |
| Portfolio.ReplayKeepsBalance | app.js:321-379 | from a consistent portfolio, any sequence of adds and removes keeps every position at cost and the displayed gain/loss at zero |
| Portfolio.ReplayKeepsSync | app.js:330-347 | once storage mirrors the portfolio, every later add or remove keeps it mirrored |
| Portfolio.FreshStartBalanced | app.js:3 | a first visit with nothing stored stays consistent with zero gain/loss under any sequence of actions |
| Calculator.LoopYears | app.js:268 | the yearly loop runs the least natural number of times that is not below the years field (zero for a negative value; an empty, zero or unparsable field has already become one year) |
| Calculator.LoopYearsUnique | app.js:268 | any iteration count at which the loop test first fails is that number |
| Calculator.Round | app.js:274 | rounding gives the integer within half of the value, halves rounded upwards |
| Calculator.RoundMonotone | app.js:274 | rounding preserves order |
| Calculator.CalculateFinal | app.js:266-275 | the nested loop (grow by the rate, then twelve monthly deposits, per year) returns the rounded value of the yearly recurrence after the loop count |
| Calculator.CalculateStrategies | app.js:250-281 | fields default to amount 0, one year, no deposit; a non-positive amount yields no projection; otherwise the three projections use the rates 0.04, 0.065, 0.085, and with a non-negative deposit they are ordered conservative, moderate, aggressive |
| Calculator.GrowNonNegative | app.js:266-273 | with non-negative principal and deposits and a rate of at least -100 %, the balance stays non-negative |
| Calculator.GrowMonotoneInRate | app.js:266-273 | with non-negative principal and deposits, a higher rate never gives a lower balance |
| Calculator.ProjectedMonotoneInRate | app.js:266-275 | the same order holds for the rounded projection |
| Calculator.GrowClosedForm | app.js:266-273 | the yearly recurrence equals principal times (1+rate)^n plus twelve deposits times 1 + (1+rate) + … + (1+rate)^(n-1) |
| Calculator.NoDepositsIsCompoundInterest | app.js:266-275 | without deposits and with whole years n the projection is round(principal·(1+rate)^n) |
| Calculator.OneYearModerateExample | app.js:260-275 | one year of 1000 at the moderate rate without deposits projects to 1065 |
| Strings.IndexOf | app.js:181 | the result is the first occurrence at or after the start index, or none when there is no later occurrence |
| Strings.Split | app.js:181 | splitting yields at least one chunk; joining the chunks with the separator gives the input back; no chunk contains the separator; every cut is at the leftmost occurrence (no occurrence starts inside a chunk followed by the separator); there is one chunk exactly when the separator does not occur |
| Formatter.WrapParagraph | app.js:182-185 | a chunk holding `<h3>` or `<ul>` passes unchanged, any other is enclosed in `<p>` and `</p>`; wrapping never creates a block, and stripping the tags recovers the chunk |
| Formatter.TagNotStraddled | app.js:182-185 | a four-character tag such as `<h3>` or `<ul>` occurs in a chunk enclosed in `<p>…</p>` exactly when it occurs in the chunk |
| Formatter.Paragraphs | app.js:181-186 | there is one output chunk per blank-line separated input chunk, and each is the input chunk unchanged when it is a block and wrapped in a paragraph otherwise |
| Formatter.FormatParagraphs | app.js:181-186 | a text without a blank line comes out unchanged if it is a block and as one paragraph otherwise |
| Formatter.FormatParagraphsStep | app.js:181-186 | for a text with a blank line, the output is the first chunk's result, one newline, then the output for the text after the first blank line |
| Formatter.ParagraphsRoundTrip | app.js:181-186 | the stage only adds tags: stripping them from every output chunk and rejoining with blank lines recovers the input |
| Analyze.Handle | netlify/functions/analyze.js:3-125 | every response carries the CORS and JSON header map; OPTIONS gives 200 with an empty body, any other non-POST 405 `Method Not Allowed`, an unparsable body 500, a falsy amount, risk or horizon 400 `Missing required parameters`, a field whose string conversion throws 500 `Internal server error`, all without an upstream request; exactly a valid POST with printable fields sends the prompt to the fixed model with 2000 tokens; an upstream completion is relayed verbatim with 200, a thrown error or non-ok status gives 500 `Internal server error` with the error message |
| Analyze.SuccessCharacterised | netlify/functions/analyze.js:13-112 | status 200 means a preflight or a relayed completion and nothing else, and only a relayed completion carries content |
| Analyze.UpstreamIgnoredWithoutRequest | netlify/functions/analyze.js:13-36 | whenever no upstream request is made, the response does not depend on the upstream outcome |
| Analyze.PromptEmbedsFields | netlify/functions/analyze.js:50-55 | the prompt states the amount in its opening sentence and in the details, and the risk and horizon lines carry the looked-up labels |
| Analyze.KnownKeysLabelled | netlify/functions/analyze.js:38-55 | for a known risk key and a known horizon key the prompt carries the fixed labels of the two tables and the amount |
| Analyze.UnknownKeyPrintsUndefined | netlify/functions/analyze.js:38-55 | a risk key or horizon key outside its table is printed as `undefined` in the prompt |
| Analyze.UnconvertibleFieldFails | netlify/functions/analyze.js:30-123 | an object field that cannot be converted to a string passes the presence check, and the prompt template then throws, giving 500 `Internal server error` with no upstream request |

## Left out

- DOM wiring, page navigation and the HTML markup of the portfolio list (app.js:6-89, 156-164, 349-374): user-interface only.
- Dashboard figures (app.js:192-247): fixed mock values and a price fetch.
- The browser-side analyze flow (app.js:91-154), including its minimum amount of 100: network and alerts around the endpoint, not part of this model.
- JSON serialisation of the stored portfolio and of response bodies: storage holds the list itself and bodies are a datatype.
- The header, bold and list regular-expression substitutions before the paragraph stage (app.js:170-178): they depend on JavaScript regular-expression semantics.
- Floating point: all arithmetic is over `real`. While every product, sum and loop counter stays within the range of a double, results agree with the page's doubles only up to rounding. Overflow to ±Infinity or NaN is not modelled: a share count and price of 1e200 make the page's value Infinity and its gain/loss NaN, a long projection overflows to Infinity, and a years field above 2^53 never ends the page's loop. `parseFloat` is an input value (`Float`), Infinity is not represented, and `toLocaleString`/`toFixed` formatting is omitted.
- Portfolio.ReplayKeepsBalance: zero gain/loss holds for the page only while all values and totals stay finite doubles; overflow is not modelled.
- Portfolio.FreshStartBalanced: holds for the page only while all values and totals stay finite doubles; overflow is not modelled.
- Calculator.CalculateFinal: agrees with the page only while the balance stays a finite double and the years field is at most 2^53; beyond that the page returns Infinity or does not terminate.
- Calculator.LoopYears: is the page's iteration count only for a years field of at most 2^53, where `year++` still changes the counter.
- Clock-based ids: the id is a parameter. Ids are not guaranteed unique, so no uniqueness is claimed.
- Logging to the console, including the API-key checks (netlify/functions/analyze.js:72-74, 94-95, 115).
- The upstream HTTP call (netlify/functions/analyze.js:76-99): its result is the `Upstream` input. A reply without a first choice counts as a thrown error.
- Analyze.Handle: property lookups of keys inherited from the object prototype (for example `toString`) are treated as missing keys printing `undefined`, whereas JavaScript would print the inherited function. The message for a field whose string conversion throws is fixed to the Node.js TypeError text.
- Portfolio.Load: a stored list is adopted as it is, so a stored list that was edited outside the page need not be consistent; the balance lemmas assume consistency of their start.
