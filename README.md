# FlyAgente AI — a verified model of the flight-search core

FlyAgente AI is a single-page flight finder. The user fills in a query:
- origin, destination, departure date and an optional return date;
- three passenger counters.

The page then asks a generative model with web search for three offers:
- the cheapest fare in cash;
- the best fare in miles;
- a premium-cabin fare.

It shows the offers as cards, together with a written summary.

This project models that core in Dafny and proves properties of the model.

- **The page state (`App.tsx`)**, in module `App`:
  - the passenger steppers, with their clamping at one adult and zero children or infants;
  - the text inputs;
  - the submit handler: its validation, its loading/error/results transitions, and the message shown on failure;
  - the FAQ accordion and the legal overlay.

  The state updaters are functions on values. The page itself is the class `App.SearchPage`, whose methods write its fields.
- **The search service (`geminiService.ts`)**, in modules `SearchPrompt` and `GeminiService`:
  - the prompt template with the query spliced in;
  - the request: model, web-search tool and JSON answer type;
  - the fallback to `"{}"` for an empty answer;
  - the citations taken from the first candidate's grounding metadata;
  - the collapse of every failure into one fixed message.

  The model call and `JSON.parse` are function parameters: the model can only be called, not inspected.
- **The result card (`components/FlightCard.tsx`)**, in module `FlightCard`: the badge chosen from the deal's tag, and the "TOTAL C/ TAXAS" note.
- **Shared types (`types.ts`)**, in module `FlightTypes`.

Helper modules:
- `Wrappers`: `Option` and `Result`.
- `Text`: prefix readers.
- `Decimal`: how a JavaScript integer of magnitude below 10^21 prints in a template literal, and a parser that reads it back.

The prompt is a long fixed text. So `SearchPrompt` renders a generic `Template` record. It proves the read-back properties for any template whose labels keep the fields apart (`Separated`), then instantiates them for the real template `FlyAgente`. `ReadQuery` is the inverse of the rendering. Through it, the model states that the prompt carries every field of the query verbatim.

## Model

| member | source | states |
|---|---|---|
| FlightTypes.Tag | types.ts:13 | each of the three declared deal kinds has a tag, and parsing that tag gives the kind back |
| FlightTypes.TagInjective | types.ts:13 | two kinds have the same tag exactly when they are the same kind |
| FlightTypes.ParseDealTypeTag | types.ts:13 | a tag that parses to a kind is that kind's tag |
| Decimal.NatStringValue | geminiService.ts:16 | the decimal digits printed for a natural number have that number as their value |
| Decimal.TakeIntString | geminiService.ts:16 | reading an integer off its printed form, followed by text not starting with a digit, gives the integer and that text back |
| Decimal.TakeIntSound | geminiService.ts:16 | whatever the integer reader accepts is exactly the printed form of the integer it returns, followed by the rest |
| SearchPrompt.ReturnPart | geminiService.ts:15 | the dates line carries "e Volta" and the return date when one is given; the one-way note appears exactly when the return date is empty |
| SearchPrompt.DatesLine | geminiService.ts:15 | for the real template: "e Volta " followed by the return date when one is given, and "(Somente Ida)" exactly when the return date is empty |
| SearchPrompt.ReadPassengersOf | geminiService.ts:16 | the passengers line reads back as the adult, child and infant counts it was printed from |
| SearchPrompt.ReadRender | geminiService.ts:8-41 | for any template that keeps fields apart, reading the rendered prompt gives back the query, provided no text field contains the delimiter that ends it |
| SearchPrompt.ReadQuerySound | geminiService.ts:8-41 | any text the reader accepts is exactly the rendering of the query it returns |
| SearchPrompt.FlyAgenteSeparated | geminiService.ts:13-16 | the real template's labels keep origin, destination, dates and counts apart |
| SearchPrompt.PromptReadBack | geminiService.ts:8-41 | the prompt sent for a query contains every field of the query, and they can be read back |
| SearchPrompt.PromptInjective | geminiService.ts:8-41 | two such queries give the same prompt exactly when they are equal |
| SearchPrompt.ReturnLabelAmbiguous | geminiService.ts:15 | for any template whose return label is "e Volta ", a departure date ending in " e Volta" and a return date starting with "e Volta " trade places without changing the rendering, so the read-back needs its condition |
| SearchPrompt.PromptNeedsDelimitable | geminiService.ts:15 | the real prompt is the same for the non-delimitable query with departure "X e Volta" and return "Y" as for the one with departure "X" and return "e Volta Y" |
| SearchPrompt.RenderRepeats | geminiService.ts:33-39 | the prompt ends with the JSON template, which repeats the infants count in the description field and the destination in the summary field |
| GeminiService.BuildRequest | geminiService.ts:44-51 | the request uses the fixed model name, web search as its only tool and JSON as the answer type; its contents read back as the query |
| GeminiService.RequestCarriesPrompt | geminiService.ts:8-46 | every query, delimitable or not, is sent as the prompt rendered from it; for a delimitable query that text reads back as the query |
| GeminiService.ResponseText | geminiService.ts:53 | a non-empty answer text is passed on unchanged; a missing or empty one becomes "{}" |
| GeminiService.FirstCandidateChunks | geminiService.ts:54 | the citations are present exactly when the whole chain is present (candidates, a first candidate, its metadata, its chunks), and are then that first candidate's chunks |
| GeminiService.WithGrounding | geminiService.ts:57-60 | the result keeps the parsed deals and summary, and its citations are replaced by the metadata's, present or not |
| GeminiService.SearchFlights | geminiService.ts:43-64 | a search succeeds exactly when the call and the parse both succeed; every failure carries the one fixed message; a success carries the parsed deals and summary with the first candidate's citations |
| GeminiService.SingleRequest | geminiService.ts:44-51 | the outcome depends on the model only through its answer to the single request built from the query |
| GeminiService.FailuresIndistinguishable | geminiService.ts:61-64 | any two failed searches give the same result, whatever their query and cause |
| GeminiService.DealsPassThrough | geminiService.ts:56-60 | the parsed answer is not validated: its deals and summary are returned unchanged |
| FlightCard.GetBadge | components/FlightCard.tsx:11-22 | a card gets the default "Oferta" badge exactly when its tag is not one of the three declared ones |
| FlightCard.LabelDeterminesKind | components/FlightCard.tsx:11-22 | the badge label alone tells which declared kind the deal is, or that it is none of them |
| FlightCard.KnownLabelsDistinct | components/FlightCard.tsx:13-18 | the three declared kinds have pairwise different labels |
| FlightCard.RenderCard | components/FlightCard.tsx:26-66 | the tax note is shown exactly when the price includes taxes; the price, airline, description, steps and link are shown verbatim; the badge is the tag's |
| FlightCard.CurrencyNotShown | components/FlightCard.tsx:26-66 | the currency field does not affect the card |
| FlightCard.RenderCards | App.tsx:277 | one card per deal, in order |
| FlightCard.OneCardPerKind | components/FlightCard.tsx:11-22 | deals of pairwise different declared kinds, in any order, show cards with pairwise different badges |
| App.WithPassengerDelta | App.tsx:41-46 | a stepper click adds the delta to one counter, clamped at its floor (1 for adults, 0 for the others), and changes no other field |
| App.StepperKeepsFloors | App.tsx:41-46 | stepper clicks keep every counter at or above its floor, so the total shown is at least one |
| App.PlusThenMinus | App.tsx:41-46 | "+" then "-" on one stepper restores the form |
| App.MinusThenPlus | App.tsx:41-46 | "-" then "+" restores the form exactly when the counter was above its floor |
| App.WithText | App.tsx:169-190 | typing in an input sets that field and keeps every other field and counter |
| App.DisplayedError | App.tsx:63 | a failure's non-empty message is shown as is; an empty one is replaced by the fallback; the message shown is never empty |
| App.ToggledFaq | App.tsx:305 | clicking an entry opens it unless it is the open one, which it closes |
| App.ToggleTwice | App.tsx:305 | two clicks on the same entry restore the accordion exactly when it was closed or that entry was open |
| App.ExpandedEntries | App.tsx:311 | at most one FAQ answer is expanded: the open entry's, if it is in the list |
| App.LegalTitle | App.tsx:88 | the overlay is titled "Política de Privacidade" exactly for the privacy text |
| App.SearchPage.constructor | App.tsx:10-23 | the page starts with empty text fields, one adult, no children or infants, no search in progress, no results, no error, no FAQ entry open and no overlay |
| App.SearchPage.UpdatePassenger | App.tsx:41-46 | the form becomes the clamped update, and the page invariant is kept |
| App.SearchPage.EditField | App.tsx:169-190 | the form becomes the edited one, and the page invariant is kept |
| App.SearchPage.StartSearch | App.tsx:48-57 | a query missing its origin, destination or departure date sets the validation message and leaves earlier results on screen; a complete one clears error and results and shows only the spinner |
| App.SearchPage.CompleteSearch | App.tsx:59-66 | a success shows only the results; a failure shows only its message; the spinner goes away either way |
| App.SearchPage.HandleSearch | App.tsx:48-67 | a full submission ends with the service's results, or with the service's fixed failure message, and nothing loading |
| App.SearchPage.ToggleFaq | App.tsx:305 | the open entry becomes the toggled one; exactly the clicked entry is expanded, unless it was the open one |
| App.SearchPage.OpenLegal | App.tsx:399-400 | the overlay shows the chosen document |
| App.SearchPage.CloseLegal | App.tsx:90-123 | the overlay is closed |

## Left out

- The page's markup, styling, icons' drawing, the hero and information sections, and the FAQ and legal texts themselves: they are presentation only.
- `scrollToSection` (App.tsx:25-39): it depends on the browser's layout and scrolling.
- `handleVipPro` (App.tsx:69-71): it only shows an alert.
- `components/AdUnit.tsx`: it is the advertisement slot's markup and the ad network's script.
- The SDK client and its API key (geminiService.ts:6) are not part of this model. The client is built before the `try`, so a failure there reaches the page with its own message and not the fixed one. `App.SearchPage.CompleteSearch` accepts any message for that reason.
- `console.error` (geminiService.ts:62): it is logging only.
- The model call and `JSON.parse` are parameters, as total functions that succeed or fail. Timing, streaming and the content of the model's answer are not modelled.
- The parse is not modelled beyond its outcome. An answer `"{}"` parses to an object with no `deals`, which the page would then fail to map; the model's `SearchResponse` always holds a sequence of deals.
- Overlapping submissions are not modelled. `App.SearchPage.StartSearch` requires that no search is in progress, because the submit button is disabled while loading (App.tsx:233). The model is sequential: a search starts and completes in one call.
- App.SearchPage.HandleSearch: the service's own error message is the fixed one, so the empty-message fallback applies only to failures that happen outside the wrapper, such as the client construction above.
- Counters are mathematical integers. Stepper clicks can only move them by one, so the page never produces non-integer or non-finite values. Printing an integer in the prompt follows JavaScript for integers of magnitude below 10^21.
- The source's badge field is `label`. Here it is `text`, because `label` is a reserved word in Dafny.
- SearchPrompt.RenderRepeats: it gives the ending of the prompt as a concatenation, not the character positions of the repeated values.
- SearchPrompt.PromptReadBack: it is claimed only for delimitable queries. These have no line break in the origin, destination or return date, and no space in the departure date. The single-line text inputs and the date inputs give such values. `SearchPrompt.ReadRender` and `SearchPrompt.PromptInjective` carry the same condition.
- The condition is needed. A departure date "X e Volta" with return date "Y" renders like departure "X" with return "e Volta Y" (`SearchPrompt.ReturnLabelAmbiguous`, `SearchPrompt.PromptNeedsDelimitable`).
- GeminiService.BuildRequest: its own contract ties the request's contents to the query only for delimitable queries. For every query, the contents are the rendered prompt; this is stated by `GeminiService.RequestCarriesPrompt`. It sits outside the function's contract so that the long fixed texts of the template stay out of the proofs about the search.
- Decimal.IntString: it writes every digit of any integer. JavaScript writes numbers of magnitude 10^21 or more with an exponent (`1e+21`), and integers above 2^53 are not exact. The counters start at 1, 0 and 0 and move by one per click, so they never come near either bound.
- The deal's field `type` (types.ts:13) is `kind` here, because `type` is a reserved word in Dafny.

## Where the code and the design description differ

The page is described as showing one of three mutually exclusive views: the form, the spinner, or the results. The code does not fully do this:
- A submission that fails validation after an earlier successful search sets the error and does not clear the results. The error box and the old results are then shown together. `App.SearchPage.StartSearch` states this (`Shown() == Panels(true, false, old(results).Some?)`).
- The spinner and the results are never shown together: a started search clears the results.
