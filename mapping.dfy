/** The listing normaliser: the body of the `listings.forEach` callback in
    `importarImoveis`, which turns one parsed `<Listing>` into the twelve
    column values of one `imoveis` row, or throws. */
module Mapping {
  import opened Wrappers
  import opened Feed
  import opened Text
  import opened JsNumber
  import opened Parking

  /** The field whose value makes the callback throw a `TypeError`: a method
      (`match`, `replace` or `toUpperCase`) called on `null`, `undefined` or an
      object instead of a string. */
  datatype Field = Title | DetailViewUrl | PropertyType | TransactionType | Neighborhood | City

  /** The order in which the callback evaluates the calls that can throw:
      `descricao.match`, `DetailViewUrl.replace`, then the four `toUpperCase`
      calls in the order of the pushed values. */
  function Order(f: Field): nat {
    match f
    case Title => 0
    case DetailViewUrl => 1
    case PropertyType => 2
    case TransactionType => 3
    case Neighborhood => 4
    case City => 5
  }

  // ----- Controlled vocabularies -----

  /** The feed's property categories and the labels they are stored under. */
  const PropertyTypeLabels: map<string, string> := map[
    "Residential / Apartment" := "Apartamento",
    "Residential / Home" := "Casa",
    "Residential / Land Lot" := "Terreno",
    "Residential / Farm Ranch" := "Chácara",
    "Commercial / Office" := "Sala Comercial",
    "Commercial / Studio" := "Studio",
    "Commercial / Agricultural" := "Área Agrícola",
    "Commercial / Industrial" := "Galpão Industrial",
    "Commercial / Edificio Comercial" := "Edifício Comercial"
  ]

  /** The `switch (tipoOriginal)`: a listed category becomes its label, and
      any other value, objects and `null` included, passes through. */
  function MapPropertyType(v: Raw): (r: Raw)
    ensures v.Scalar? && v.s in PropertyTypeLabels ==> r == Scalar(PropertyTypeLabels[v.s])
    ensures !(v.Scalar? && v.s in PropertyTypeLabels) ==> r == v
  {
    match v
    case Scalar(s) => if s in PropertyTypeLabels then Scalar(PropertyTypeLabels[s]) else v
    case _ => v
  }

  /** Each of the nine categories and its label. */
  lemma PropertyTypeTable()
    ensures MapPropertyType(Scalar("Residential / Apartment")) == Scalar("Apartamento")
    ensures MapPropertyType(Scalar("Residential / Home")) == Scalar("Casa")
    ensures MapPropertyType(Scalar("Residential / Land Lot")) == Scalar("Terreno")
    ensures MapPropertyType(Scalar("Residential / Farm Ranch")) == Scalar("Chácara")
    ensures MapPropertyType(Scalar("Commercial / Office")) == Scalar("Sala Comercial")
    ensures MapPropertyType(Scalar("Commercial / Studio")) == Scalar("Studio")
    ensures MapPropertyType(Scalar("Commercial / Agricultural")) == Scalar("Área Agrícola")
    ensures MapPropertyType(Scalar("Commercial / Industrial")) == Scalar("Galpão Industrial")
    ensures MapPropertyType(Scalar("Commercial / Edificio Comercial")) == Scalar("Edifício Comercial")
  {
  }

  /** Every label is a non-empty string. */
  lemma LabelsNonEmpty(k: string)
    requires k in PropertyTypeLabels
    ensures PropertyTypeLabels[k] != ""
  {
  }

  /** No label is itself a category, so mapping an already mapped value
      changes nothing; and no two categories share a label. */
  lemma PropertyTypeLabelsAreFinal(v: Raw)
    ensures MapPropertyType(MapPropertyType(v)) == MapPropertyType(v)
    ensures forall a, b :: a in PropertyTypeLabels && b in PropertyTypeLabels && a != b ==>
              PropertyTypeLabels[a] != PropertyTypeLabels[b]
  {
  }

  /** The nested ternary for `finalidade`. */
  function MapTransactionType(v: Raw): (r: Raw)
    ensures v == Scalar("For Sale") ==> r == Scalar("Venda")
    ensures v == Scalar("For Rent") ==> r == Scalar("Aluguel")
    ensures v != Scalar("For Sale") && v != Scalar("For Rent") ==> r == v
  {
    if v == Scalar("For Sale") then Scalar("Venda")
    else if v == Scalar("For Rent") then Scalar("Aluguel")
    else v
  }

  // ----- Numbers -----

  /** `Number(v)`: a string is parsed, `undefined` and objects give `NaN`. */
  function NumberOf(v: Raw): Option<real> {
    match v
    case Scalar(s) => Number(s)
    case _ => None
  }

  /** `v?._`: the text payload of an attributed value; a string or a missing
      field has no `_` property. */
  function TextPayload(v: Raw): Raw {
    match v
    case Attributed(Some(t), _) => Scalar(t)
    case _ => Absent
  }

  /** A number is truthy unless it is 0 or `NaN`. */
  predicate TruthyNumber(n: Option<real>) {
    n.Some? && n.value != 0.0
  }

  /** `n || 0`. */
  function OrZero(n: Option<real>): (r: real)
    ensures TruthyNumber(n) ==> r == n.value
    ensures !TruthyNumber(n) ==> r == 0.0
  {
    if TruthyNumber(n) then n.value else 0.0
  }

  /** `Number(v) || 0`, as for bedrooms and bathrooms: an attributed value
      counts 0, since `Number` of an object is `NaN`. */
  function Count(v: Raw): (r: real)
    ensures r != 0.0 <==> TruthyNumber(NumberOf(v))
    ensures r != 0.0 ==> NumberOf(v) == Some(r)
    ensures !v.Scalar? ==> r == 0.0
  {
    OrZero(NumberOf(v))
  }

  /** A count written as plain digits is the integer they denote. */
  lemma CountOfDigits(ds: string)
    requires ds != [] && AllDigits(ds)
    ensures Count(Scalar(ds)) == DigitsValue(ds) as real
  {
    DigitStringParses(ds);
  }

  /** A negative count is kept as it is: nothing clamps it at 0. */
  lemma {:induction false} NegativeCountKept(ds: string)
    requires ds != [] && AllDigits(ds)
    ensures Count(Scalar("-" + ds)) == -(DigitsValue(ds) as real)
  {
    SignedIntegerParses(Minus, ds);
  }

  /** `Number("-3") || 0` is -3. */
  lemma NegativeCountExample()
    ensures Count(Scalar("-3")) == -3.0
  {
    assert "3"[..0] == "";
    assert DigitsValue("3") == 3;
    NegativeCountKept("3");
    assert "-" + "3" == "-3";
  }

  /** `Number(v?._) || Number(v) || 0`, as for the garage count and both areas:
      the text payload of an attributed value if it is a non-zero number, else
      the value itself if it is a non-zero number, else 0. */
  function Measure(v: Raw): (r: real)
    ensures v.Attributed? && v.text.Some? ==> r == Count(Scalar(v.text.value))
    ensures v.Scalar? ==> r == Count(v)
    ensures v.Absent? || (v.Attributed? && v.text.None?) ==> r == 0.0
  {
    var fromText := NumberOf(TextPayload(v));
    OrZero(if TruthyNumber(fromText) then fromText else NumberOf(v))
  }

  /** A measure written as a decimal literal, such as an area of `85.5`, is
      the value of its integer and fraction digits, negated after a `-`:
      nothing rejects a negative area. */
  lemma {:induction false} DecimalMeasure(sg: Sign, ds: string, fs: string)
    requires AllDigits(ds) && AllDigits(fs) && (ds != [] || fs != [])
    ensures Measure(Scalar(SignText(sg) + (ds + ".") + fs)) == DecimalValue(sg, ds, fs)
  {
    SignedDecimalParses(sg, ds, fs);
    MeasureOfNumber(SignText(sg) + (ds + ".") + fs, DecimalValue(sg, ds, fs));
  }

  /** A string that `Number` reads as a number measures that number (0 too,
      through `|| 0`). */
  lemma {:induction false} MeasureOfNumber(s: string, x: real)
    requires Number(s) == Some(x)
    ensures Measure(Scalar(s)) == x
  {
  }

  /** A count or measure whose text is not white space and does not start,
      after white space, with a literal is 0: `Number` reads `NaN`. */
  lemma {:induction false} UnparseableCount(s: string)
    requires Trim(s) != [] && !LiteralStart(TrimStart(s))
    ensures Count(Scalar(s)) == 0.0 && Measure(Scalar(s)) == 0.0
  {
    NumberNaN(s);
  }

  /** `Number("Consulte") || 0` is 0. */
  lemma UnparseableCountExample()
    ensures Count(Scalar("Consulte")) == 0.0
  {
    assert TrimStart("Consulte") == "Consulte";
    assert Trim("Consulte") == "Consulte";
    UnparseableCount("Consulte");
  }

  /** `Number("85.5") || 0` is 85.5. */
  lemma DecimalMeasureExample()
    ensures Measure(Scalar("85.5")) == 85.5
  {
    assert "85"[..1] == "8" && "8"[..0] == "";
    assert DigitsValue("85") == 85;
    assert "5"[1..] == "";
    assert FractionValue("5") == 0.5;
    assert SignText(Unsigned) + ("85" + ".") + "5" == "85.5";
    DecimalMeasure(Unsigned, "85", "5");
    assert DecimalValue(Unsigned, "85", "5") == 85.5;
  }

  /** One price field: `parseFloat(v._) || 0` for an object,
      `parseFloat(v) || 0` otherwise. */
  function PriceOf(v: Raw): (r: real)
    ensures v.Attributed? && v.text.Some? ==> r == OrZero(ParseFloat(v.text.value))
    ensures v.Scalar? ==> r == OrZero(ParseFloat(v.s))
    ensures v.Absent? || (v.Attributed? && v.text.None?) ==> r == 0.0
  {
    match v
    case Attributed(Some(t), _) => OrZero(ParseFloat(t))
    case Scalar(s) => OrZero(ParseFloat(s))
    case _ => 0.0
  }

  /** The price: a present list price wins even when it does not parse, the
      rental price is read only when there is no list price, and with neither
      the price is 0. */
  function SelectPrice(listPrice: Raw, rentalPrice: Raw): (r: real)
    ensures Truthy(listPrice) ==> r == PriceOf(listPrice)
    ensures !Truthy(listPrice) && Truthy(rentalPrice) ==> r == PriceOf(rentalPrice)
    ensures !Truthy(listPrice) && !Truthy(rentalPrice) ==> r == 0.0
  {
    if Truthy(listPrice) then PriceOf(listPrice)
    else if Truthy(rentalPrice) then PriceOf(rentalPrice)
    else 0.0
  }

  /** A price given as digits followed by anything `parseFloat` stops at,
      attributed (`{_: "450000", currency: "BRL"}`) or not, is the integer the
      digits denote, and the rental price is then ignored. */
  lemma DigitPriceWins(ds: string, rest: string, attrs: map<string, string>, rentalPrice: Raw)
    requires ds != [] && AllDigits(ds)
    requires rest == [] || (!IsDigit(rest[0]) && rest[0] != '.')
    ensures SelectPrice(Attributed(Some(ds + rest), attrs), rentalPrice) == DigitsValue(ds) as real
    ensures SelectPrice(Scalar(ds + rest), rentalPrice) == DigitsValue(ds) as real
  {
    ParseFloatIgnoresTrailingText(ds, rest);
    assert (ds + rest)[0] == ds[0];
  }

  /** A price that does not start, after white space, with a literal is 0:
      `parseFloat` reads `NaN`. A list price like that still wins over the
      rental price, since it is truthy. */
  lemma {:induction false} UnparseablePrice(s: string, attrs: map<string, string>, rentalPrice: Raw)
    requires !LiteralStart(TrimStart(s))
    ensures PriceOf(Scalar(s)) == 0.0 && PriceOf(Attributed(Some(s), attrs)) == 0.0
    ensures s != "" ==> SelectPrice(Scalar(s), rentalPrice) == 0.0
    ensures SelectPrice(Attributed(Some(s), attrs), rentalPrice) == 0.0
  {
    ParseFloatNaN(s);
  }

  /** A list price of `R$ 450000` is stored as 0, whatever the rental price. */
  lemma UnparseablePriceExample(rentalPrice: Raw)
    ensures SelectPrice(Scalar("R$ 450000"), rentalPrice) == 0.0
  {
    assert TrimStart("R$ 450000") == "R$ 450000";
    UnparseablePrice("R$ 450000", map[], rentalPrice);
  }

  /** The area: the living area when it is positive, otherwise the lot area,
      whatever that is. */
  function SelectArea(livingArea: Raw, lotArea: Raw): (r: real)
    ensures Measure(livingArea) > 0.0 ==> r == Measure(livingArea)
    ensures Measure(livingArea) <= 0.0 ==> r == Measure(lotArea)
    ensures r > 0.0 ==> r == Measure(livingArea) || r == Measure(lotArea)
  {
    var living := Measure(livingArea);
    if living > 0.0 then living else Measure(lotArea)
  }

  // ----- Parking count -----

  /** Whether the title is scanned: it is truthy and the structured garage
      count came out 0. */
  predicate ConsultsTitle(title: Raw, garage: Raw) {
    Truthy(title) && Measure(garage) == 0.0
  }

  /** `qtd_vagas`: the structured garage count, or, when that is 0 and there
      is a title, the integer the title's first `<N> vaga(s) [de] garagem`
      mentions (0 without a match). A title that is an object has no `match`
      method and throws. */
  function ParkingCount(title: Raw, garage: Raw): (r: Result<real, Field>)
    ensures !ConsultsTitle(title, garage) ==> r == Success(Measure(garage))
    ensures ConsultsTitle(title, garage) && title.Scalar? ==>
              r == Success(match ParkingFromTitle(title.s) case Some(n) => n as real case None => 0.0)
    ensures ConsultsTitle(title, garage) && title.Attributed? ==> r == Failure(Title)
  {
    var structured := Measure(garage);
    if Truthy(title) && structured == 0.0 then
      match title
      case Scalar(s) =>
        (match ParkingFromTitle(s)
         case Some(n) => Success(n as real)
         case None => Success(structured))
      case _ => Failure(Title)
    else Success(structured)
  }

  // ----- Link and required text -----

  /** `link`: a present URL with every `+` rewritten as `-`, `null` for a
      missing or empty one; an object has no `replace` method and throws. */
  function LinkOf(url: Raw): (r: Result<Option<string>, Field>)
    ensures !Truthy(url) ==> r == Success(None)
    ensures url.Scalar? && url.s != "" ==> r.Success? && r.value.Some?
    ensures url.Scalar? && url.s != "" ==>
              |r.value.value| == |url.s| && '+' !in r.value.value
              && forall i :: 0 <= i < |url.s| && url.s[i] != '+' ==> r.value.value[i] == url.s[i]
    ensures url.Scalar? && url.s != "" ==> r == Success(Some(DashForPlus(url.s)))
    ensures url.Attributed? ==> r == Failure(DetailViewUrl)
  {
    match url
    case Absent => Success(None)
    case Scalar(s) => if s == "" then Success(None) else DashForPlusRemovesPlus(s); Success(Some(DashForPlus(s)))
    case Attributed(_, _) => Failure(DetailViewUrl)
  }

  /** `v.toUpperCase()` on the value computed for field `f`: only a string
      has the method; `null`, `undefined` and objects throw. */
  function UpperText(v: Raw, f: Field): (r: Result<string, Field>)
    ensures r.Success? <==> v.Scalar?
    ensures r.Success? ==> |r.value| == |v.s| && IsUpper(r.value)
    ensures r.Success? ==> forall i :: 0 <= i < |v.s| ==> r.value[i] == UpperChar(v.s[i])
    ensures r.Failure? ==> r.error == f
  {
    match v
    case Scalar(s) => ToUpperIsUpper(s); Success(ToUpper(s))
    case _ => Failure(f)
  }

  // ----- The row -----

  /** The twelve values pushed for one listing, in the column order of the
      `INSERT INTO imoveis (...)` statement. `descricao` and `ref` are stored
      as the feed gives them (`Absent` standing for `null`). */
  datatype Row = Row(
    descricao: Raw,
    tipo: string,
    finalidade: string,
    quartos: real,
    banheiros: real,
    vagas: real,
    preco: real,
    area: real,
    link: Option<string>,
    bairro: string,
    cidade: string,
    ref: Raw)

  /** What every normalised row satisfies: the four vocabulary and location
      columns are upper case, the property type, neighbourhood and city are
      not empty, the link holds no `+`, and an empty title is stored as
      `null`. */
  predicate WellFormedRow(row: Row) {
    && IsUpper(row.tipo) && IsUpper(row.finalidade) && IsUpper(row.bairro) && IsUpper(row.cidade)
    && row.tipo != "" && row.bairro != "" && row.cidade != ""
    && (row.link.Some? ==> '+' !in row.link.value)
    && row.descricao != Scalar("")
  }

  /** Whether the call that can throw for field `f` succeeds on listing `l`. */
  predicate FieldOk(l: Listing, f: Field) {
    match f
    case Title => !(ConsultsTitle(l.title, l.details.garage) && l.title.Attributed?)
    case DetailViewUrl => !l.detailViewUrl.Attributed?
    case PropertyType => OrNull(l.details.propertyType).Scalar?
    case TransactionType => l.transactionType.Scalar?
    case Neighborhood => OrNull(l.location.neighborhood).Scalar?
    case City => OrNull(l.location.city).Scalar?
  }

  /** One run of the `forEach` callback: the row of a listing, or the field
      at which it throws. `NormalizeFields` states what the row holds,
      `NormalizeSucceeds` and `NormalizeReportsFirstFault` when and where it
      throws. */
  function Normalize(l: Listing): Result<Row, Field>
  {
    var d := l.details;
    var vagas :- ParkingCount(l.title, d.garage);
    var link :- LinkOf(l.detailViewUrl);
    var tipo :- UpperText(MapPropertyType(OrNull(d.propertyType)), PropertyType);
    var finalidade :- UpperText(MapTransactionType(l.transactionType), TransactionType);
    var bairro :- UpperText(OrNull(l.location.neighborhood), Neighborhood);
    var cidade :- UpperText(OrNull(l.location.city), City);
    Success(Row(
      OrNull(l.title), tipo, finalidade,
      Count(d.bedrooms), Count(d.bathrooms), vagas,
      SelectPrice(d.listPrice, d.rentalPrice), SelectArea(d.livingArea, d.lotArea),
      link, bairro, cidade, l.listingId))
  }

  /** What a row holds: the title (or `null`), the mapped and upper-cased
      property and transaction types, the counts, price and area, the
      rewritten link, the upper-cased neighbourhood and city, and the listing
      id as given. */
  lemma NormalizeFields(l: Listing)
    requires Normalize(l).Success?
    ensures Normalize(l).value.descricao == OrNull(l.title)
    ensures MapPropertyType(OrNull(l.details.propertyType)).Scalar?
    ensures Normalize(l).value.tipo == ToUpper(MapPropertyType(OrNull(l.details.propertyType)).s)
    ensures MapTransactionType(l.transactionType).Scalar?
    ensures Normalize(l).value.finalidade == ToUpper(MapTransactionType(l.transactionType).s)
    ensures Normalize(l).value.quartos == Count(l.details.bedrooms)
    ensures Normalize(l).value.banheiros == Count(l.details.bathrooms)
    ensures Success(Normalize(l).value.vagas) == ParkingCount(l.title, l.details.garage)
    ensures Normalize(l).value.preco == SelectPrice(l.details.listPrice, l.details.rentalPrice)
    ensures Normalize(l).value.area == SelectArea(l.details.livingArea, l.details.lotArea)
    ensures Success(Normalize(l).value.link) == LinkOf(l.detailViewUrl)
    ensures Truthy(l.location.neighborhood) && l.location.neighborhood.Scalar?
    ensures Truthy(l.location.city) && l.location.city.Scalar?
    ensures Normalize(l).value.bairro == ToUpper(l.location.neighborhood.s)
    ensures Normalize(l).value.cidade == ToUpper(l.location.city.s)
    ensures Normalize(l).value.ref == l.listingId
  {
  }

  /** The callback completes exactly when every call that can throw is made
      on a string. */
  lemma NormalizeSucceeds(l: Listing)
    ensures Normalize(l).Success? <==> forall f :: FieldOk(l, f)
  {
    if Normalize(l).Failure? {
      NormalizeReportsFirstFault(l);
    } else {
      NormalizeFields(l);
      forall f ensures FieldOk(l, f) {
        match f
        case Title =>
        case DetailViewUrl =>
        case PropertyType =>
        case TransactionType =>
        case Neighborhood =>
        case City =>
      }
    }
  }

  /** When the callback throws, it is at the first failing call in evaluation
      order: the reported field's call fails and every earlier one succeeds. */
  lemma NormalizeReportsFirstFault(l: Listing)
    requires Normalize(l).Failure?
    ensures !FieldOk(l, Normalize(l).error)
    ensures forall f :: Order(f) < Order(Normalize(l).error) ==> FieldOk(l, f)
  {
    NormalizeFailsAtFirstFault(l);
    FirstFaultIsFirst(l);
  }

  /** The first field, in evaluation order, whose call does not succeed
      (`City` when every earlier one does). */
  function FirstFault(l: Listing): Field {
    if !FieldOk(l, Title) then Title
    else if !FieldOk(l, DetailViewUrl) then DetailViewUrl
    else if !FieldOk(l, PropertyType) then PropertyType
    else if !FieldOk(l, TransactionType) then TransactionType
    else if !FieldOk(l, Neighborhood) then Neighborhood
    else City
  }

  /** A failing callback reports `FirstFault(l)`, whose call does fail. */
  lemma NormalizeFailsAtFirstFault(l: Listing)
    requires Normalize(l).Failure?
    ensures Normalize(l).error == FirstFault(l) && !FieldOk(l, FirstFault(l))
  {
    var d := l.details;
    if FieldOk(l, Title) {
      assert ParkingCount(l.title, d.garage).Success?;
      if FieldOk(l, DetailViewUrl) {
        assert LinkOf(l.detailViewUrl).Success?;
        if FieldOk(l, PropertyType) {
          assert UpperText(MapPropertyType(OrNull(d.propertyType)), PropertyType).Success?;
          if FieldOk(l, TransactionType) {
            assert UpperText(MapTransactionType(l.transactionType), TransactionType).Success?;
          }
        }
      }
    }
  }

  /** Every call before `FirstFault(l)` succeeds. */
  lemma FirstFaultIsFirst(l: Listing)
    ensures forall f :: Order(f) < Order(FirstFault(l)) ==> FieldOk(l, f)
  {
    forall f | Order(f) < Order(FirstFault(l))
      ensures FieldOk(l, f)
    {
      match f
      case Title =>
      case DetailViewUrl =>
      case PropertyType =>
      case TransactionType =>
      case Neighborhood =>
      case City =>
    }
  }

  /** Every row the callback produces is well formed. */
  lemma NormalizedRowIsWellFormed(l: Listing)
    requires Normalize(l).Success?
    ensures WellFormedRow(Normalize(l).value)
  {
    NormalizeFields(l);
    var tipo := MapPropertyType(OrNull(l.details.propertyType));
    ToUpperIsUpper(tipo.s);
    ToUpperIsUpper(MapTransactionType(l.transactionType).s);
    ToUpperIsUpper(l.location.neighborhood.s);
    ToUpperIsUpper(l.location.city.s);
    if OrNull(l.details.propertyType).s in PropertyTypeLabels {
      LabelsNonEmpty(OrNull(l.details.propertyType).s);
    }
  }

  /** A listing whose neighbourhood or city is missing or empty is rejected:
      `bairro.toUpperCase()` or `cidade.toUpperCase()` throws on `null`. */
  lemma MissingLocationThrows(l: Listing)
    requires !Truthy(l.location.neighborhood) || !Truthy(l.location.city)
    ensures Normalize(l).Failure?
    ensures !Truthy(l.location.neighborhood) ==> Order(Normalize(l).error) <= Order(Neighborhood)
  {
    assert !FieldOk(l, if !Truthy(l.location.neighborhood) then Neighborhood else City);
  }
  // ----- Examples -----

  /** Apartments are stored as `APARTAMENTO`; a category outside the table is
      stored as itself, upper-cased. */
  lemma PropertyTypeStored(l: Listing)
    requires Normalize(l).Success?
    ensures l.details.propertyType == Scalar("Residential / Apartment") ==> Normalize(l).value.tipo == "APARTAMENTO"
    ensures l.details.propertyType.Scalar? && l.details.propertyType.s !in PropertyTypeLabels ==>
              Normalize(l).value.tipo == ToUpper(l.details.propertyType.s)
  {
    NormalizeFields(l);
    PropertyTypeTable();
    UpperApartamento();
  }

  /** `For Rent` is stored as `ALUGUEL` and `For Sale` as `VENDA`. */
  lemma TransactionTypeStored(l: Listing)
    requires Normalize(l).Success?
    ensures l.transactionType == Scalar("For Rent") ==> Normalize(l).value.finalidade == "ALUGUEL"
    ensures l.transactionType == Scalar("For Sale") ==> Normalize(l).value.finalidade == "VENDA"
  {
    NormalizeFields(l);
    UpperAluguel();
    UpperVenda();
  }

  /** With no structured garage count, the title `2 vagas de garagem` gives 2. */
  lemma ParkingFromTitleExample(garage: Raw)
    requires Measure(garage) == 0.0
    ensures ParkingCount(Scalar("2 vagas de garagem"), garage) == Success(2.0)
  {
    TitleExample();
  }

  /** The link `imovel+venda+123` is stored as `imovel-venda-123`. */
  lemma LinkExample()
    ensures LinkOf(Scalar("imovel+venda+123")) == Success(Some("imovel-venda-123"))
  {
    DashForPlusExample();
  }

  /** A list price `{_: "450000", currency: "BRL"}` is stored as 450000. */
  lemma AttributedPriceExample(rentalPrice: Raw)
    ensures SelectPrice(Attributed(Some("450000"), map["currency" := "BRL"]), rentalPrice) == 450000.0
  {
    DigitsValueExample();
    DigitPriceWins("450000", "", map["currency" := "BRL"], rentalPrice);
    assert "450000" + "" == "450000";
  }
}
