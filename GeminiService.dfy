/** `searchFlightsWithAI` (geminiService.ts:5-65): one request to the model
    with a fixed configuration, the answer text parsed as JSON, the citations
    of the first candidate attached, and every failure reported with the same
    message.

    The model client and `JSON.parse` are code this model cannot see; they are
    parameters: `generate` answers a request or fails, `parse` turns a text
    into a response or fails. */
module GeminiService {
  import opened Wrappers
  import opened FlightTypes
  import opened SearchPrompt

  const ModelName: string := "gemini-3-flash-preview"
  const JsonMimeType: string := "application/json"

  /** What `response.text || "{}"` falls back to. */
  const EmptyObject: string := "{}"

  /** The one message every failure of the search is reported with. */
  const ScanFailedMessage: string :=
    "Não conseguimos realizar a varredura global agora. Por favor, tente novamente em instantes."

  datatype Tool = GoogleSearch

  /** The argument of `ai.models.generateContent`. */
  datatype GenerateRequest = GenerateRequest(
    model: string,
    contents: string,
    tools: seq<Tool>,
    responseMimeType: string)

  datatype GroundingMetadata = GroundingMetadata(groundingChunks: Option<seq<GroundingChunk>>)

  datatype Candidate = Candidate(groundingMetadata: Option<GroundingMetadata>)

  /** The parts of the model's answer the wrapper reads; None stands for a
      property that is undefined. */
  datatype GenerateResponse = GenerateResponse(
    text: Option<string>,
    candidates: Option<seq<Candidate>>)

  /** The request sent for a query: the prompt, the model, web search as the
      only tool, and JSON as the answer's type. */
  function BuildRequest(q: Query): (r: GenerateRequest)
    ensures r.model == ModelName && r.tools == [GoogleSearch] && r.responseMimeType == JsonMimeType
    ensures Delimitable(q) ==> ReadQuery(FlyAgente, r.contents) == Some(q)
  {
    if Delimitable(q) then PromptReadBack(q); GenerateRequest(ModelName, Prompt(q), [GoogleSearch], JsonMimeType)
    else GenerateRequest(ModelName, Prompt(q), [GoogleSearch], JsonMimeType)
  }

  /** Every query, delimitable or not, is sent as its rendering into the
      prompt's template. */
  lemma RequestCarriesPrompt(q: Query)
    ensures BuildRequest(q).contents == Prompt(q)
    ensures ReadQuery(FlyAgente, BuildRequest(q).contents) == Some(q) <== Delimitable(q)
  {
  }

  /** The text handed to the parser: the answer's text, or "{}" when that is
      undefined or empty (both are falsy). */
  function ResponseText(response: GenerateResponse): (text: string)
    ensures text != ""
    ensures response.text.Some? && response.text.value != "" ==> text == response.text.value
    ensures response.text.None? || response.text.value == "" ==> text == EmptyObject
  {
    if response.text.Some? && response.text.value != "" then response.text.value else EmptyObject
  }

  /** `response.candidates?.[0]?.groundingMetadata?.groundingChunks`: undefined
      as soon as any link of the chain is. */
  function FirstCandidateChunks(response: GenerateResponse): (chunks: Option<seq<GroundingChunk>>)
    ensures chunks.Some? <==>
              && response.candidates.Some? && |response.candidates.value| > 0
              && response.candidates.value[0].groundingMetadata.Some?
              && response.candidates.value[0].groundingMetadata.value.groundingChunks.Some?
    ensures chunks.Some? ==> chunks == response.candidates.value[0].groundingMetadata.value.groundingChunks
  {
    match response.candidates
    case None => None
    case Some(candidates) =>
      if |candidates| == 0 then None
      else
        match candidates[0].groundingMetadata
        case None => None
        case Some(metadata) => metadata.groundingChunks
  }

  /** `{...result, groundingChunks}`: the parsed answer with its citations
      replaced by the ones from the metadata, present or not. */
  function WithGrounding(parsed: SearchResponse, chunks: Option<seq<GroundingChunk>>): (r: SearchResponse)
    ensures r.deals == parsed.deals && r.summary == parsed.summary && r.groundingChunks == chunks
  {
    parsed.(groundingChunks := chunks)
  }

  /** One search: a single request, then the answer shaped into a response.
      Every failure, of the request or of the parse, gives the same message. */
  function SearchFlights(
    q: Query,
    generate: GenerateRequest -> Result<GenerateResponse, string>,
    parse: string -> Result<SearchResponse, string>): (r: Result<SearchResponse, string>)
    ensures r.Failure? ==> r.error == ScanFailedMessage
    ensures var answer := generate(BuildRequest(q));
            r.Success? <==> answer.Success? && parse(ResponseText(answer.value)).Success?
    ensures r.Success? ==>
              var response := generate(BuildRequest(q)).value;
              var parsed := parse(ResponseText(response)).value;
              && r.value.deals == parsed.deals
              && r.value.summary == parsed.summary
              && r.value.groundingChunks == FirstCandidateChunks(response)
  {
    var request := BuildRequest(q);
    match generate(request)
    case Failure(_) => Failure(ScanFailedMessage)
    case Success(response) =>
      var chunks := FirstCandidateChunks(response);
      match parse(ResponseText(response))
      case Failure(_) => Failure(ScanFailedMessage)
      case Success(parsed) => Success(WithGrounding(parsed, chunks))
  }

  /** The search depends on the model only through its answer to the one
      request built from the query: no other request is made, and there is no
      retry whose answer could change the outcome. */
  lemma SingleRequest(
    q: Query,
    generate1: GenerateRequest -> Result<GenerateResponse, string>,
    generate2: GenerateRequest -> Result<GenerateResponse, string>,
    parse: string -> Result<SearchResponse, string>)
    requires generate1(BuildRequest(q)) == generate2(BuildRequest(q))
    ensures SearchFlights(q, generate1, parse) == SearchFlights(q, generate2, parse)
  {
  }

  /** Failures are not told apart: two failed searches, whatever the query and
      whatever went wrong, give the same result. */
  lemma FailuresIndistinguishable(
    q1: Query, generate1: GenerateRequest -> Result<GenerateResponse, string>, parse1: string -> Result<SearchResponse, string>,
    q2: Query, generate2: GenerateRequest -> Result<GenerateResponse, string>, parse2: string -> Result<SearchResponse, string>)
    requires SearchFlights(q1, generate1, parse1).Failure?
    requires SearchFlights(q2, generate2, parse2).Failure?
    ensures SearchFlights(q1, generate1, parse1) == SearchFlights(q2, generate2, parse2)
  {
  }

  /** The parsed answer is not checked: whatever deals it holds, in any number
      and with any tags, are returned unchanged. */
  lemma DealsPassThrough(q: Query, response: GenerateResponse, parsed: SearchResponse)
    ensures var r := SearchFlights(q, _ => Success(response), _ => Success(parsed));
            r == Success(SearchResponse(parsed.deals, parsed.summary, FirstCandidateChunks(response)))
  {
  }
}
