/** One result card (components/FlightCard.tsx): a badge chosen from the
    deal's tag, the price, the airline, the tax note, the description, the
    purchase steps and the link. */
module FlightCard {
  import opened Wrappers
  import opened FlightTypes

  datatype Icon = CreditCardIcon | StarIcon | PlaneIcon | InfoIcon

  datatype Badge = Badge(text: string, color: string, icon: Icon)

  /** The badge of a tag outside the three declared ones. */
  const DefaultBadge: Badge := Badge("Oferta", "bg-slate-100 text-slate-700", InfoIcon)

  /** The note shown on a price that includes taxes. */
  const TaxesNote: string := "TOTAL C/ TAXAS"

  /** `getBadge`: the badge for a deal's tag, with a default for any other tag. */
  function GetBadge(kind: string): (b: Badge)
    ensures b == DefaultBadge <==> ParseDealType(kind).None?
  {
    if kind == "cheapest_cash" then Badge("Mais Barata (Dinheiro)", "bg-green-100 text-green-700", CreditCardIcon)
    else if kind == "cheapest_miles" then Badge("Mais Barata (Milhas)", "bg-blue-100 text-blue-700", StarIcon)
    else if kind == "most_expensive" then Badge("Tarifa Premium / Mais Cara", "bg-amber-100 text-amber-700", PlaneIcon)
    else DefaultBadge
  }

  /** The kind a badge label stands for; None for the default label. */
  function KindOfLabel(text: string): Option<DealType> {
    if text == "Mais Barata (Dinheiro)" then Some(CheapestCash)
    else if text == "Mais Barata (Milhas)" then Some(CheapestMiles)
    else if text == "Tarifa Premium / Mais Cara" then Some(MostExpensive)
    else None
  }

  /** The label alone tells which kind of deal a card shows, and shows
      "Oferta" exactly for a tag outside the three declared ones. */
  lemma LabelDeterminesKind(kind: string)
    ensures KindOfLabel(GetBadge(kind).text) == ParseDealType(kind)
  {
  }

  /** The three declared tags get pairwise different labels. */
  lemma KnownLabelsDistinct(t1: DealType, t2: DealType)
    ensures GetBadge(Tag(t1)).text == GetBadge(Tag(t2)).text <==> t1 == t2
  {
    LabelDeterminesKind(Tag(t1));
    LabelDeterminesKind(Tag(t2));
  }

  /** What a card displays. */
  datatype CardView = CardView(
    badge: Badge,
    price: string,
    airline: string,
    taxesNote: Option<string>,
    description: string,
    howToBuy: string,
    link: string)

  /** The card for a deal. The currency field is not displayed. */
  function RenderCard(deal: FlightDeal): (v: CardView)
    ensures v.taxesNote.Some? <==> deal.isTotalWithTaxes
    ensures v.taxesNote.Some? ==> v.taxesNote.value == TaxesNote
    ensures v.badge == GetBadge(deal.kind)
    ensures v.price == deal.price && v.airline == deal.airline && v.description == deal.description
    ensures v.howToBuy == deal.howToBuy && v.link == deal.link
  {
    CardView(
      GetBadge(deal.kind), deal.price, deal.airline,
      if deal.isTotalWithTaxes then Some(TaxesNote) else None,
      deal.description, deal.howToBuy, deal.link)
  }

  /** `results.deals.map(deal => <FlightCard deal={deal} />)`: one card per
      deal, in order. */
  function RenderCards(deals: seq<FlightDeal>): (cards: seq<CardView>)
    ensures |cards| == |deals|
    ensures forall i | 0 <= i < |deals| :: cards[i] == RenderCard(deals[i])
  {
    seq(|deals|, i requires 0 <= i < |deals| => RenderCard(deals[i]))
  }

  /** Two deals that differ only in their currency give the same card. */
  lemma CurrencyNotShown(deal: FlightDeal, currency: string)
    ensures RenderCard(deal.(currency := currency)) == RenderCard(deal)
  {
  }

  /** An answer whose deals are of pairwise different declared kinds, in any
      order, shows cards with pairwise different badges. */
  lemma OneCardPerKind(deals: seq<FlightDeal>, kinds: seq<DealType>)
    requires |kinds| == |deals|
    requires forall i | 0 <= i < |deals| :: deals[i].kind == Tag(kinds[i])
    requires forall i, j | 0 <= i < j < |kinds| :: kinds[i] != kinds[j]
    ensures var cards := RenderCards(deals);
            |cards| == |deals| && forall i, j | 0 <= i < j < |cards| :: cards[i].badge.text != cards[j].badge.text
  {
    var cards := RenderCards(deals);
    forall i, j | 0 <= i < j < |cards|
      ensures cards[i].badge.text != cards[j].badge.text
    {
      KnownLabelsDistinct(kinds[i], kinds[j]);
    }
  }
}
