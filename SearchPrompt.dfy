/** The prompt that the service wrapper sends to the model
    (geminiService.ts:8-41), and a reader that recovers the query from it.

    A template literal is a list of fixed texts with values spliced in between.
    `Template` holds the fixed texts of this one; `Render` splices a query into
    a template and `ReadQuery` takes the result apart again. Both are proved
    inverse for every template whose short labels keep the fields apart, and
    the prompt's own template is shown to be one of those. */
module SearchPrompt {
  import opened Wrappers
  import opened FlightTypes
  import opened Decimal
  import opened Text

  /** The fixed texts of the template literal, in order. The dates line holds
      one of two texts (`returnLabel` before a return date, `oneWay` without). */
  datatype Template = Template(
    intro: string,
    destinationLabel: string,
    datesLabel: string,
    returnLabel: string,
    oneWay: string,
    passengersLabel: string,
    adultsLabel: string,
    childrenLabel: string,
    infantsLabel: string,
    instructions: string,
    descriptionTail: string,
    closing: string)

  /** From the opening newline of the template up to the origin. */
  const Intro: string :=
    "\n"
    + "    Você é o FlyAgente, o assistente de IA definitivo para encontrar passagens aéreas.\n"
    + "    SUA PRIORIDADE MÁXIMA É ENCONTRAR O MENOR PREÇO EM DINHEIRO (CASH) DISPONÍVEL NO PLANETA.\n"
    + "\n"
    + "    DADOS DA SOLICITAÇÃO:\n"
    + "    - Origem: "

  /** From the end of the request block up to the infants count in the
      description field of the JSON template. */
  const Instructions: string :=
    "\n"
    + "    REGRAS DE BUSCA E CÁLCULO:\n"
    + "    1. **Preço em Dinheiro (Foco Principal)**: Varra Google Flights, Skyscanner, OTAs (Decolar, Kayak, Expedia) e sites de companhias Low-Cost. O primeiro resultado DEVE ser a tarifa mais barata em dinheiro encontrada em toda a web.\n"
    + "    2. **Lógica de Bebês (Infants)**: Para bebês menores de 2 anos (que viajam no colo), considere que em voos nacionais eles pagam apenas taxas. Em internacionais, geralmente 10% da tarifa. Calcule o TOTAL final para o grupo completo.\n"
    + "    3. **Tarifas Award/Milhas**: Procure por emissões com milhas (Smiles, TudoAzul, Latam Pass, TAP Miles&Go) que possam bater o preço em dinheiro.\n"
    + "    4. **Qualidade do Conteúdo**: Gere descrições detalhadas e úteis. Explique por que aquela é a melhor oferta (ex: menor preço histórico, voo direto, etc). Isso é vital para o SEO do site.\n"
    + "\n"
    + "    RETORNE EM JSON:\n"
    + "    - 3 ofertas: 1. Menor preço absoluto em dinheiro; 2. Melhor opção em milhas; 3. Melhor custo-benefício em cabine superior (Executiva/Premium).\n"
    + "\n"
    + "    {\n"
    + "      \"deals\": [\n"
    + "        {\n"
    + "          \"type\": \"cheapest_cash\" | \"cheapest_miles\" | \"most_expensive\",\n"
    + "          \"airline\": \"Nome da Cia\",\n"
    + "          \"price\": \"R$ X.XXX,XX\",\n"
    + "          \"description\": \"Explicação detalhada sobre a rota, tempo de voo e por que este preço é imbatível. Mencione explicitamente a economia para os "

  /** From after that count up to the destination in the summary field. */
  const DescriptionTail: string :=
    " bebês.\",\n"
    + "          \"howToBuy\": \"Passo a passo exato para garantir este preço agora.\",\n"
    + "          \"link\": \"Link direto para o buscador ou companhia.\",\n"
    + "          \"isTotalWithTaxes\": true\n"
    + "        }\n"
    + "      ],\n"
    + "      \"summary\": \"Resumo estratégico: Vale a pena comprar agora? Existe previsão de queda? Dicas locais para o destino "

  /** The end of the JSON template and of the template literal. */
  const Closing: string :=
    ".\"\n"
    + "    }\n"
    + "  "

  /** The template of geminiService.ts:8-41. */
  const FlyAgente: Template := Template(
    Intro,
    "\n    - Destino: ",
    "\n    - Datas: Ida ",
    "e Volta ",
    "(Somente Ida)",
    "\n    - Passageiros: ",
    " Adultos, ",
    " Crianças (2-11 anos), ",
    " Bebês (menos de 2 anos).\n",
    Instructions,
    DescriptionTail,
    Closing)

  /** The part of the dates line after the departure date: the return date when
      one is given (a non-empty string is truthy), the one-way note otherwise. */
  function ReturnPart(t: Template, returnDate: string): (r: string)
    ensures Separated(t) ==> ((r == t.oneWay) <==> returnDate == "")
    ensures returnDate != "" ==> t.returnLabel <= r && r[|t.returnLabel|..] == returnDate
  {
    if returnDate != "" then
      assert (t.returnLabel + returnDate)[..|t.returnLabel|] == t.returnLabel;
      t.returnLabel + returnDate
    else
      t.oneWay
  }

  /** The request block's passengers line after its label, up to the infants count. */
  function PassengersText(t: Template, adults: int, children: int, infants: int): string {
    IntString(adults) + t.adultsLabel + IntString(children) + t.childrenLabel + IntString(infants)
  }

  /** The rest of the prompt after the infants count of the request block: the
      search rules and the JSON template, which mention the infants count and
      the destination once more. */
  function JsonTemplate(t: Template, infants: int, destination: string): string {
    t.infantsLabel + t.instructions + IntString(infants) + t.descriptionTail + destination + t.closing
  }

  /** The template literal with the query spliced in. */
  function Render(t: Template, q: Query): string {
    t.intro + q.origin
    + t.destinationLabel + q.destination
    + t.datesLabel + q.departureDate + " " + ReturnPart(t, q.returnDate)
    + t.passengersLabel + PassengersText(t, q.adults, q.children, q.infants)
    + JsonTemplate(t, q.infants, q.destination)
  }

  /** The prompt `searchFlightsWithAI` sends for a query. */
  function Prompt(q: Query): string {
    Render(FlyAgente, q)
  }

  /** The short labels keep the spliced values apart: each text field ends
      where a label starting a new line begins, the two forms of the dates line
      start differently, and no label after a number starts with a digit. */
  predicate Separated(t: Template) {
    && |t.destinationLabel| > 0 && t.destinationLabel[0] == '\n'
    && |t.datesLabel| > 0 && t.datesLabel[0] == '\n'
    && |t.passengersLabel| > 0 && t.passengersLabel[0] == '\n'
    && |t.returnLabel| > 0 && |t.oneWay| > 0 && t.returnLabel[0] != t.oneWay[0]
    && |t.adultsLabel| > 0 && !IsDigit(t.adultsLabel[0])
    && |t.childrenLabel| > 0 && !IsDigit(t.childrenLabel[0])
    && |t.infantsLabel| > 0 && !IsDigit(t.infantsLabel[0])
  }

  /** The fields that a reader of the prompt can delimit: the text fields sit on
      lines of their own and the departure date is followed by a space. Text
      inputs drop line breaks and date inputs give "yyyy-mm-dd" or "". */
  predicate Delimitable(q: Query) {
    '\n' !in q.origin && '\n' !in q.destination && '\n' !in q.returnDate && ' ' !in q.departureDate
  }

  /** Reads a value that runs up to `stop`, where `marker` begins, and returns
      it with the text after the marker. */
  function ReadField(s: string, stop: char, marker: string): Option<(string, string)> {
    var value := UpTo(s, stop);
    var rest :- StripPrefix(s[|value|..], marker);
    Some((value, rest))
  }

  /** Reads the dates line after the departure date up to the passengers label:
      the return date and the text after the label. The return label followed
      by an empty date is not something the template produces, so it is refused. */
  function ReadReturnPart(t: Template, s: string): Option<(string, string)> {
    if t.returnLabel <= s then
      var ret :- ReadField(s[|t.returnLabel|..], '\n', t.passengersLabel);
      if ret.0 == "" then None else Some(ret)
    else
      var rest :- StripPrefix(s, t.oneWay + t.passengersLabel);
      Some(("", rest))
  }

  /** Reads the three counters of the passengers line and the text after them. */
  function ReadPassengers(t: Template, s: string): Option<(int, int, int, string)> {
    var adults :- TakeInt(s);
    var s1 :- StripPrefix(adults.1, t.adultsLabel);
    var children :- TakeInt(s1);
    var s2 :- StripPrefix(children.1, t.childrenLabel);
    var infants :- TakeInt(s2);
    Some((adults.0, children.0, infants.0, infants.1))
  }

  /** The query a text was rendered from, or None when the text is not a
      rendering of the template. */
  function ReadQuery(t: Template, p: string): Option<Query> {
    var s :- StripPrefix(p, t.intro);
    var origin :- ReadField(s, '\n', t.destinationLabel);
    var destination :- ReadField(origin.1, '\n', t.datesLabel);
    var departure :- ReadField(destination.1, ' ', " ");
    var dates :- ReadReturnPart(t, departure.1);
    var counts :- ReadPassengers(t, dates.1);
    if counts.3 == JsonTemplate(t, counts.2, destination.0) then
      Some(Query(origin.0, destination.0, departure.0, dates.0, counts.0, counts.1, counts.2))
    else
      None
  }

  lemma ReadFieldOf(value: string, stop: char, marker: string, rest: string)
    requires stop !in value && |marker| > 0 && marker[0] == stop
    ensures ReadField(value + (marker + rest), stop, marker) == Some((value, rest))
  {
    UpToConcat(value, marker + rest, stop);
    assert (value + (marker + rest))[|value|..] == marker + rest;
    StripPrefixConcat(marker, rest);
  }

  lemma ReadFieldSound(s: string, stop: char, marker: string)
    requires ReadField(s, stop, marker).Some?
    ensures var r := ReadField(s, stop, marker).value;
            stop !in r.0 && s == r.0 + (marker + r.1)
  {
    var value := UpTo(s, stop);
    assert s == value + s[|value|..];
  }

  lemma ReadReturnPartOf(t: Template, returnDate: string, rest: string)
    requires Separated(t)
    requires '\n' !in returnDate
    ensures ReadReturnPart(t, ReturnPart(t, returnDate) + (t.passengersLabel + rest)) == Some((returnDate, rest))
  {
    var s := ReturnPart(t, returnDate) + (t.passengersLabel + rest);
    if returnDate == "" {
      assert s == t.oneWay + t.passengersLabel + rest;
      assert s[0] == t.oneWay[0];
      StripPrefixConcat(t.oneWay + t.passengersLabel, rest);
    } else {
      assert s == t.returnLabel + (returnDate + (t.passengersLabel + rest));
      StripPrefixConcat(t.returnLabel, returnDate + (t.passengersLabel + rest));
      ReadFieldOf(returnDate, '\n', t.passengersLabel, rest);
    }
  }

  lemma ReadReturnPartSound(t: Template, s: string)
    requires ReadReturnPart(t, s).Some?
    ensures var r := ReadReturnPart(t, s).value;
            '\n' !in r.0 && s == ReturnPart(t, r.0) + (t.passengersLabel + r.1)
  {
    if t.returnLabel <= s {
      assert s == t.returnLabel + s[|t.returnLabel|..];
      ReadFieldSound(s[|t.returnLabel|..], '\n', t.passengersLabel);
    }
  }

  lemma ReadPassengersOf(t: Template, adults: int, children: int, infants: int, rest: string)
    requires Separated(t)
    requires rest == [] || !IsDigit(rest[0])
    ensures ReadPassengers(t, PassengersText(t, adults, children, infants) + rest)
         == Some((adults, children, infants, rest))
  {
    var a, c, i := IntString(adults), IntString(children), IntString(infants);
    var t2 := i + rest;
    var t1 := c + (t.childrenLabel + t2);
    assert a + t.adultsLabel + c + t.childrenLabel + i + rest == a + (t.adultsLabel + t1);
    TakeIntString(adults, t.adultsLabel + t1);
    StripPrefixConcat(t.adultsLabel, t1);
    TakeIntString(children, t.childrenLabel + t2);
    StripPrefixConcat(t.childrenLabel, t2);
    TakeIntString(infants, rest);
  }

  lemma ReadPassengersSound(t: Template, s: string)
    requires ReadPassengers(t, s).Some?
    ensures var r := ReadPassengers(t, s).value;
            s == PassengersText(t, r.0, r.1, r.2) + r.3
  {
    var adults := TakeInt(s).value;
    TakeIntSound(s);
    var s1 := StripPrefix(adults.1, t.adultsLabel).value;
    var children := TakeInt(s1).value;
    TakeIntSound(s1);
    var s2 := StripPrefix(children.1, t.childrenLabel).value;
    var infants := TakeInt(s2).value;
    TakeIntSound(s2);
    var a, c, i := IntString(adults.0), IntString(children.0), IntString(infants.0);
    calc {
      s;
      a + (t.adultsLabel + (c + (t.childrenLabel + (i + infants.1))));
      { Regroup6(a, t.adultsLabel, c, t.childrenLabel, i, infants.1); }
      a + t.adultsLabel + c + t.childrenLabel + i + infants.1;
    }
  }

  lemma Regroup6(a: string, b: string, c: string, d: string, e: string, f: string)
    ensures a + b + c + d + e + f == a + (b + (c + (d + (e + f))))
  {
  }

  /** The rendering with its pieces grouped from the right, the order in which
      `ReadQuery` consumes them. */
  lemma RenderNested(t: Template, q: Query)
    ensures Render(t, q) == t.intro + (q.origin + (t.destinationLabel + (q.destination + (t.datesLabel
              + (q.departureDate + (" " + (ReturnPart(t, q.returnDate) + (t.passengersLabel
              + (PassengersText(t, q.adults, q.children, q.infants) + JsonTemplate(t, q.infants, q.destination))))))))))
  {
    Regroup(t.intro, q.origin, t.destinationLabel, q.destination, t.datesLabel, q.departureDate, " ",
      ReturnPart(t, q.returnDate), t.passengersLabel, PassengersText(t, q.adults, q.children, q.infants),
      JsonTemplate(t, q.infants, q.destination));
  }

  lemma Regroup(a: string, b: string, c: string, d: string, e: string, f: string,
                g: string, h: string, i: string, j: string, k: string)
    ensures a + b + c + d + e + f + g + h + i + j + k
         == a + (b + (c + (d + (e + (f + (g + (h + (i + (j + k)))))))))
  {
  }

  /** Reading a rendering gives back the query it was rendered from. */
  lemma ReadRender(t: Template, q: Query)
    requires Separated(t) && Delimitable(q)
    ensures ReadQuery(t, Render(t, q)) == Some(q)
  {
    var r6 := JsonTemplate(t, q.infants, q.destination);
    var r5 := PassengersText(t, q.adults, q.children, q.infants) + r6;
    var r4 := ReturnPart(t, q.returnDate) + (t.passengersLabel + r5);
    var r3 := q.departureDate + (" " + r4);
    var r2 := q.destination + (t.datesLabel + r3);
    var r1 := q.origin + (t.destinationLabel + r2);
    RenderNested(t, q);
    StripPrefixConcat(t.intro, r1);
    ReadFieldOf(q.origin, '\n', t.destinationLabel, r2);
    ReadFieldOf(q.destination, '\n', t.datesLabel, r3);
    ReadFieldOf(q.departureDate, ' ', " ", r4);
    ReadReturnPartOf(t, q.returnDate, r5);
    ReadPassengersOf(t, q.adults, q.children, q.infants, r6);
  }

  /** Whatever `ReadQuery` accepts is exactly the rendering of the query it returns. */
  lemma ReadQuerySound(t: Template, p: string)
    requires ReadQuery(t, p).Some?
    ensures Render(t, ReadQuery(t, p).value) == p
  {
    var q := ReadQuery(t, p).value;
    var s := StripPrefix(p, t.intro).value;
    var origin := ReadField(s, '\n', t.destinationLabel).value;
    ReadFieldSound(s, '\n', t.destinationLabel);
    var destination := ReadField(origin.1, '\n', t.datesLabel).value;
    ReadFieldSound(origin.1, '\n', t.datesLabel);
    var departure := ReadField(destination.1, ' ', " ").value;
    ReadFieldSound(destination.1, ' ', " ");
    var dates := ReadReturnPart(t, departure.1).value;
    ReadReturnPartSound(t, departure.1);
    ReadPassengersSound(t, dates.1);
    RenderNested(t, q);
  }

  /** The prompt's own template keeps the fields apart. */
  lemma FlyAgenteSeparated()
    ensures Separated(FlyAgente)
  {
  }

  /** The prompt embeds every field of a delimitable query verbatim: reading it
      back gives the query. */
  lemma PromptReadBack(q: Query)
    requires Delimitable(q)
    ensures ReadQuery(FlyAgente, Prompt(q)) == Some(q)
  {
    FlyAgenteSeparated();
    ReadRender(FlyAgente, q);
  }

  /** Two delimitable queries that differ in any field give different prompts. */
  lemma PromptInjective(q1: Query, q2: Query)
    requires Delimitable(q1) && Delimitable(q2)
    ensures Prompt(q1) == Prompt(q2) <==> q1 == q2
  {
    PromptReadBack(q1);
    PromptReadBack(q2);
  }

  /** The delimiting condition of the read-back is needed: a departure date
      that ends in the return label's words and a return date that starts
      with them can trade places without changing the rendering. */
  lemma ReturnLabelAmbiguous(t: Template, q: Query)
    requires t.returnLabel == "e Volta "
    ensures var q1 := q.(departureDate := "X e Volta", returnDate := "Y");
            var q2 := q.(departureDate := "X", returnDate := "e Volta Y");
            q1 != q2 && !Delimitable(q1) && Render(t, q1) == Render(t, q2)
  {
    var q1 := q.(departureDate := "X e Volta", returnDate := "Y");
    var q2 := q.(departureDate := "X", returnDate := "e Volta Y");
    var p := t.intro + q.origin + t.destinationLabel + q.destination + t.datesLabel;
    assert q1.departureDate + " " + ReturnPart(t, q1.returnDate) == q2.departureDate + " " + ReturnPart(t, q2.returnDate);
    assert p + q1.departureDate + " " + ReturnPart(t, q1.returnDate) == p + q2.departureDate + " " + ReturnPart(t, q2.returnDate);
    assert q1.departureDate[1] == ' ';
  }

  /** So the prompt itself does not tell apart two queries that differ only in
      their dates, once the departure date may hold a space. */
  lemma PromptNeedsDelimitable(q: Query)
    ensures var q1 := q.(departureDate := "X e Volta", returnDate := "Y");
            var q2 := q.(departureDate := "X", returnDate := "e Volta Y");
            q1 != q2 && !Delimitable(q1) && Prompt(q1) == Prompt(q2)
  {
    var t := FlyAgente;
    assert t.returnLabel == "e Volta ";
    ReturnLabelAmbiguous(t, q);
  }

  /** The dates line says "e Volta" and the return date exactly when a return
      date is given, and "(Somente Ida)" exactly when none is. */
  lemma DatesLine(q: Query)
    ensures var rest := ReturnPart(FlyAgente, q.returnDate);
            && (q.returnDate != "" ==> rest == "e Volta " + q.returnDate)
            && (q.returnDate == "" <==> rest == "(Somente Ida)")
  {
    FlyAgenteSeparated();
  }

  /** The rendering up to the infants count that the JSON template repeats. */
  function RenderHead(t: Template, q: Query): string {
    t.intro + q.origin + t.destinationLabel + q.destination + t.datesLabel + q.departureDate + " "
    + ReturnPart(t, q.returnDate) + t.passengersLabel + PassengersText(t, q.adults, q.children, q.infants)
    + (t.infantsLabel + t.instructions)
  }

  /** The rendering ends with the JSON template, which repeats the infants
      count and, after the description's tail, the destination. */
  lemma RenderRepeats(t: Template, q: Query)
    ensures Render(t, q) == RenderHead(t, q) + IntString(q.infants) + t.descriptionTail + q.destination + t.closing
  {
    var front := t.intro + q.origin + t.destinationLabel + q.destination + t.datesLabel + q.departureDate + " "
      + ReturnPart(t, q.returnDate) + t.passengersLabel + PassengersText(t, q.adults, q.children, q.infants);
    assert Render(t, q) == front + JsonTemplate(t, q.infants, q.destination);
    AppendTail(front, t.infantsLabel + t.instructions, IntString(q.infants), t.descriptionTail, q.destination, t.closing);
  }

  lemma AppendTail(h: string, x: string, a: string, b: string, c: string, d: string)
    ensures h + (x + a + b + c + d) == (h + x) + a + b + c + d
  {
  }
}
