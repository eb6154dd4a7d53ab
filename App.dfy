/** The search page (App.tsx): the query form with its passenger steppers,
    the submit handler around one search, the FAQ accordion and the legal
    overlay.

    The state updaters that React runs on values are functions here; the page
    itself is a class whose methods perform the page's state writes. */
module App {
  import opened Wrappers
  import opened FlightTypes
  import GeminiService

  /** Shown when origin, destination or departure date is missing. */
  const ValidationMessage: string := "Por favor, informe a Origem, o Destino e a Data de Ida."

  /** Shown when a search fails with an empty message. */
  const FallbackMessage: string := "Erro de varredura global. Tente novamente."

  /** The number of entries of the FAQ list. */
  const FaqCount: int := 4

  datatype PassengerKind = Adults | Children | Infants

  datatype TextField = Origin | Destination | DepartureDate | ReturnDate

  datatype LegalDoc = Privacy | Terms

  /** The form as the page first shows it. */
  const InitialQuery: Query := Query("", "", "", "", 1, 0, 0)

  /** The least value a stepper can reach: one adult, no children, no infants. */
  function Floor(kind: PassengerKind): int {
    if kind == Adults then 1 else 0
  }

  function Count(q: Query, kind: PassengerKind): int {
    match kind
    case Adults => q.adults
    case Children => q.children
    case Infants => q.infants
  }

  predicate WithinFloors(q: Query) {
    q.adults >= Floor(Adults) && q.children >= Floor(Children) && q.infants >= Floor(Infants)
  }

  /** The total shown beside the steppers. */
  function TotalPassengers(q: Query): int {
    q.adults + q.children + q.infants
  }

  function TextOf(q: Query, field: TextField): string {
    match field
    case Origin => q.origin
    case Destination => q.destination
    case DepartureDate => q.departureDate
    case ReturnDate => q.returnDate
  }

  /** `updatePassager`: moves one counter by `delta` and clamps it at its floor;
      every other field is kept. */
  function WithPassengerDelta(q: Query, kind: PassengerKind, delta: int): (r: Query)
    ensures Count(r, kind) >= Floor(kind)
    ensures Count(q, kind) + delta >= Floor(kind) ==> Count(r, kind) == Count(q, kind) + delta
    ensures Count(q, kind) + delta < Floor(kind) ==> Count(r, kind) == Floor(kind)
    ensures forall other :: other != kind ==> Count(r, other) == Count(q, other)
    ensures forall field :: TextOf(r, field) == TextOf(q, field)
  {
    var n := if Count(q, kind) + delta < Floor(kind) then Floor(kind) else Count(q, kind) + delta;
    match kind
    case Adults => q.(adults := n)
    case Children => q.(children := n)
    case Infants => q.(infants := n)
  }

  /** The `onChange` of a text or date input: sets that field and keeps the rest. */
  function WithText(q: Query, field: TextField, value: string): (r: Query)
    ensures TextOf(r, field) == value
    ensures forall other :: other != field ==> TextOf(r, other) == TextOf(q, other)
    ensures forall kind :: Count(r, kind) == Count(q, kind)
  {
    match field
    case Origin => q.(origin := value)
    case Destination => q.(destination := value)
    case DepartureDate => q.(departureDate := value)
    case ReturnDate => q.(returnDate := value)
  }

  /** The submit handler's gate: origin, destination and departure date must be
      non-empty; the return date may be empty. */
  predicate CanSubmit(q: Query) {
    q.origin != "" && q.destination != "" && q.departureDate != ""
  }

  /** `err.message || "..."`: the message shown for a failed search. */
  function DisplayedError(message: string): (shown: string)
    ensures shown != ""
    ensures message != "" ==> shown == message
    ensures message == "" ==> shown == FallbackMessage
  {
    if message != "" then message else FallbackMessage
  }

  /** `openFaq === i ? null : i`: clicking entry `i` closes it when it is the
      open one and opens it otherwise. */
  function ToggledFaq(open: Option<int>, i: int): (r: Option<int>)
    ensures r == Some(i) <==> open != Some(i)
    ensures r.None? <==> open == Some(i)
  {
    if open == Some(i) then None else Some(i)
  }

  /** The entries whose answer is shown (`openFaq === i`) among `n` entries. */
  function ExpandedEntries(open: Option<int>, n: int): (s: set<int>)
    ensures forall i :: i in s <==> 0 <= i < n && open == Some(i)
    ensures |s| <= 1
  {
    var s := set i | 0 <= i < n && open == Some(i);
    assert s == {} || s == {open.value};
    s
  }

  /** The title of the legal overlay. */
  function LegalTitle(doc: LegalDoc): (title: string)
    ensures title == "Política de Privacidade" <==> doc == Privacy
  {
    if doc == Privacy then "Política de Privacidade" else "Termos de Uso"
  }

  /** Which parts of the results section are on screen. */
  datatype Panels = Panels(errorBox: bool, spinner: bool, resultsBox: bool)

  /** Every stepper click keeps the counters at or above their floors, so the
      total shown is at least one. */
  lemma StepperKeepsFloors(q: Query, kind: PassengerKind, delta: int)
    requires WithinFloors(q)
    ensures WithinFloors(WithPassengerDelta(q, kind, delta))
    ensures TotalPassengers(WithPassengerDelta(q, kind, delta)) >= 1
  {
    var r := WithPassengerDelta(q, kind, delta);
    assert Count(r, Adults) >= 1 && Count(r, Children) >= 0 && Count(r, Infants) >= 0;
  }

  /** A "+" then a "-" on the same stepper gives the form back. */
  lemma PlusThenMinus(q: Query, kind: PassengerKind)
    requires WithinFloors(q)
    ensures WithPassengerDelta(WithPassengerDelta(q, kind, 1), kind, -1) == q
  {
  }

  /** A "-" then a "+" gives the form back exactly when the counter was above
      its floor; at the floor the "-" is lost. */
  lemma MinusThenPlus(q: Query, kind: PassengerKind)
    requires WithinFloors(q)
    ensures WithPassengerDelta(WithPassengerDelta(q, kind, -1), kind, 1) == q <==> Count(q, kind) > Floor(kind)
  {
    if Count(q, kind) == Floor(kind) {
      assert Count(WithPassengerDelta(WithPassengerDelta(q, kind, -1), kind, 1), kind) == Floor(kind) + 1;
    }
  }

  /** Two clicks on the same entry restore the accordion exactly when it was
      closed or that entry was the open one; if another entry was open, the
      two clicks leave everything closed. */
  lemma ToggleTwice(open: Option<int>, i: int)
    ensures ToggledFaq(ToggledFaq(open, i), i) == open <==> open.None? || open == Some(i)
  {
  }

  class SearchPage {
    var query: Query
    var loading: bool
    var results: Option<SearchResponse>
    var error: Option<string>
    var openFaq: Option<int>
    var legalModal: Option<LegalDoc>

    /** The counters are at or above their floors, the open FAQ entry is one
        of the list, a search in progress shows neither an error nor results,
        and an error, when set, is a message that is shown. */
    ghost predicate Valid()
      reads this
    {
      && WithinFloors(query)
      && (openFaq.Some? ==> 0 <= openFaq.value < FaqCount)
      && (loading ==> error.None? && results.None?)
      && error != Some("")
    }

    /** `{error && ...}`, `{loading && !results && ...}` and `{results && ...}`. */
    function Shown(): Panels
      reads this
    {
      Panels(error.Some? && error.value != "", loading && results.None?, results.Some?)
    }

    /** The page's initial state (App.tsx:10-23). */
    constructor ()
      ensures Valid()
      ensures query == InitialQuery && !loading && results.None? && error.None?
      ensures openFaq.None? && legalModal.None?
    {
      query := InitialQuery;
      loading := false;
      results := None;
      error := None;
      openFaq := None;
      legalModal := None;
    }

    /** A click on a passenger stepper. */
    method UpdatePassenger(kind: PassengerKind, delta: int)
      requires Valid()
      modifies this`query
      ensures Valid()
      ensures query == WithPassengerDelta(old(query), kind, delta)
    {
      StepperKeepsFloors(query, kind, delta);
      query := WithPassengerDelta(query, kind, delta);
    }

    /** Typing in a text or date input. */
    method EditField(field: TextField, value: string)
      requires Valid()
      modifies this`query
      ensures Valid()
      ensures query == WithText(old(query), field, value)
    {
      query := WithText(query, field, value);
    }

    /** The submit handler up to the call: a query missing a required field
        sets the validation message and starts nothing, leaving the spinner and
        any earlier results as they were; a complete query clears the error and
        the results and shows the spinner. The submit button is disabled while
        a search is in progress. */
    method StartSearch() returns (started: bool)
      requires Valid() && !loading
      modifies this`loading, this`error, this`results
      ensures Valid()
      ensures started == CanSubmit(query)
      ensures !started ==> error == Some(ValidationMessage) && !loading && results == old(results)
      ensures started ==> loading && error.None? && results.None?
      ensures started ==> Shown() == Panels(false, true, false)
      ensures !started ==> Shown() == Panels(true, false, old(results).Some?)
    {
      if !CanSubmit(query) {
        error := Some(ValidationMessage);
        return false;
      }
      loading := true;
      error := None;
      results := None;
      return true;
    }

    /** The submit handler after the call: a success shows the response, a
        failure shows its message (or the fallback when it is empty), and the
        spinner goes away in both cases. */
    method CompleteSearch(outcome: Result<SearchResponse, string>)
      requires Valid() && loading
      modifies this`loading, this`error, this`results
      ensures Valid() && !loading
      ensures outcome.Success? ==> results == Some(outcome.value) && error.None?
      ensures outcome.Failure? ==> results.None? && error == Some(DisplayedError(outcome.error))
      ensures Shown() == Panels(outcome.Failure?, false, outcome.Success?)
    {
      loading := false;
      match outcome
      case Success(data) =>
        results := Some(data);
      case Failure(message) =>
        error := Some(DisplayedError(message));
    }

    /** A whole submission with the service wrapper as the search: the error
        box and the results box end up showing exactly one of the two
        outcomes, and a failure of the service shows its fixed message. */
    method HandleSearch(
      generate: GeminiService.GenerateRequest -> Result<GeminiService.GenerateResponse, string>,
      parse: string -> Result<SearchResponse, string>) returns (started: bool)
      requires Valid() && !loading
      modifies this`loading, this`error, this`results
      ensures Valid() && !loading
      ensures started == CanSubmit(query)
      ensures !started ==> error == Some(ValidationMessage) && results == old(results)
      ensures started ==>
                var r := GeminiService.SearchFlights(query, generate, parse);
                && (r.Success? ==> results == Some(r.value) && error.None?)
                && (r.Failure? ==> results.None? && error == Some(GeminiService.ScanFailedMessage))
    {
      started := StartSearch();
      if started {
        var outcome := GeminiService.SearchFlights(query, generate, parse);
        CompleteSearch(outcome);
      }
    }

    /** A click on FAQ entry `i`. */
    method ToggleFaq(i: int)
      requires Valid() && 0 <= i < FaqCount
      modifies this`openFaq
      ensures Valid()
      ensures openFaq == ToggledFaq(old(openFaq), i)
      ensures ExpandedEntries(openFaq, FaqCount) == if old(openFaq) == Some(i) then {} else {i}
    {
      openFaq := ToggledFaq(openFaq, i);
    }

    /** The footer's "Privacidade" and "Termos de Uso" buttons. */
    method OpenLegal(doc: LegalDoc)
      requires Valid()
      modifies this`legalModal
      ensures Valid()
      ensures legalModal == Some(doc)
    {
      legalModal := Some(doc);
    }

    /** The overlay's close button and its "Entendido" button. */
    method CloseLegal()
      requires Valid()
      modifies this`legalModal
      ensures Valid()
      ensures legalModal.None?
    {
      legalModal := None;
    }
  }
}
