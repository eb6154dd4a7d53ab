/** The records that flow between the search page, the service wrapper and the
    result cards (types.ts). */
module FlightTypes {
  import opened Wrappers

  /** The search form: free-text origin and destination, the two dates as the
      date inputs give them ("" when not filled in) and three passenger counters. */
  datatype Query = Query(
    origin: string,
    destination: string,
    departureDate: string,
    returnDate: string,
    adults: int,
    children: int,
    infants: int)

  /** The three kinds of offer the prompt asks for. */
  datatype DealType = CheapestCash | CheapestMiles | MostExpensive

  /** The tag a deal of this kind carries in the JSON answer. */
  function Tag(t: DealType): (s: string)
    ensures ParseDealType(s) == Some(t)
  {
    match t
    case CheapestCash => "cheapest_cash"
    case CheapestMiles => "cheapest_miles"
    case MostExpensive => "most_expensive"
  }

  /** The kind a tag names, or None for a tag outside the three declared ones. */
  function ParseDealType(s: string): (r: Option<DealType>)
  {
    if s == "cheapest_cash" then Some(CheapestCash)
    else if s == "cheapest_miles" then Some(CheapestMiles)
    else if s == "most_expensive" then Some(MostExpensive)
    else None
  }

  /** One offer as the service returns it. The answer is cast, not validated,
      so `kind` holds whatever tag the JSON carried. */
  datatype FlightDeal = FlightDeal(
    kind: string,
    airline: string,
    price: string,
    currency: string,
    description: string,
    howToBuy: string,
    link: string,
    isTotalWithTaxes: bool)

  datatype WebSource = WebSource(uri: string, title: string)

  /** A citation the service attaches when it grounded its answer on a web search. */
  datatype GroundingChunk = GroundingChunk(web: Option<WebSource>)

  datatype SearchResponse = SearchResponse(
    deals: seq<FlightDeal>,
    summary: string,
    groundingChunks: Option<seq<GroundingChunk>>)

  /** Tags and kinds are in one-to-one correspondence. */
  lemma TagInjective(t1: DealType, t2: DealType)
    ensures Tag(t1) == Tag(t2) <==> t1 == t2
  {
    if Tag(t1) == Tag(t2) {
      assert ParseDealType(Tag(t1)) == Some(t1);
    }
  }

  lemma ParseDealTypeTag(s: string)
    ensures ParseDealType(s).Some? ==> Tag(ParseDealType(s).value) == s
  {
  }
}
