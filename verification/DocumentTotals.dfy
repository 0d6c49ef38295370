/** From the accepted payload to the printed document: validation and server
    totals at the 202, the payload rebuilt by the worker, the totals computed
    while the XML is built, and the preflight check on the printed amounts. */
module DocumentTotals {
  import opened Wrappers
  import opened Rounding
  import opened DiscountEngine

  datatype Retention = Retention(typ: int, amount: int)

  datatype PayloadItem = PayloadItem(name: string, quantity: real, unitPrice: real, exempt: bool,
                                     discountPercentage: Option<real>, discountAmount: Option<real>)

  datatype Receiver = Receiver(rut: string, name: string)

  datatype Reference = Reference(typ: int, folio: int)

  datatype Declared = Declared(netAmount: Option<real>, exemptAmount: Option<real>,
                               ivaAmount: Option<real>, totalAmount: Option<real>)

  datatype Payload = Payload(documentType: int, items: seq<PayloadItem>, receiver: Option<Receiver>,
                             references: seq<Reference>, transferType: Option<int>,
                             pricingMode: Option<PricingMode>, globalDiscountPercentage: Option<real>,
                             taxRetentions: seq<Retention>, totals: Option<Declared>)

  datatype EmitDto = EmitDto(typ: int, receiver: Option<Receiver>, amount: int, items: seq<LineItem>,
                             references: seq<Reference>, transferType: Option<int>,
                             pricingMode: Option<PricingMode>, globalDiscountPercentage: Option<real>,
                             taxRetentions: seq<Retention>)

  datatype Field = NetAmount | ExemptAmount | IvaAmount | TotalAmount

  datatype ValidationError =
    | UnknownType | NoteOutsideNotes | NoteWithoutReference | NoItems | BadQuantity | BadPrice | TwoDiscounts
    | MissingReceiver | ItemsMustBeExempt | ItemsMustNotBeExempt | MissingTransport
    | Engine(e: EngineError) | TotalsMismatch(field: Field)

  predicate Supported(t: int) { t in {33, 34, 39, 41, 46, 52, 56, 61} }

  // ------------------------------------------------------ totals, both places

  function RetentionSum(rs: seq<Retention>): int {
    if rs == [] then 0 else RetentionSum(rs[..|rs| - 1]) + rs[|rs| - 1].amount
  }

  /** Totals promised on acceptance: a retention is subtracted when its sum is positive. */
  function PreviewTotals(typ: int, items: seq<LineItem>, mode: Option<PricingMode>, pct: Option<real>,
                         rs: seq<Retention>): Result<Totals, EngineError> {
    if !Supported(typ) then Err(UnsupportedType)
    else
      match TotalsOf(typ, items, pct, mode)
      case Err(e) => Err(e)
      case Ok(t) =>
        var r := RetentionSum(rs);
        Ok(if r > 0
           then t.(retentionAmount := Some(r), totalAmount := t.netAmount + t.exemptAmount + t.ivaAmount - r)
           else t)
  }

  /** Totals inside the built document: any listed retention is subtracted. */
  function BuiltTotals(dto: EmitDto): Result<Totals, EngineError> {
    if !Supported(dto.typ) then Err(UnsupportedType)
    else
      match TotalsOf(dto.typ, dto.items, dto.globalDiscountPercentage, dto.pricingMode)
      case Err(e) => Err(e)
      case Ok(t) =>
        var r := if |dto.taxRetentions| > 0 then RetentionSum(dto.taxRetentions) else 0;
        var total := if |dto.taxRetentions| > 0 then t.netAmount + t.exemptAmount + t.ivaAmount - r else t.totalAmount;
        Ok(t.(totalAmount := total, retentionAmount := if r > 0 then Some(r) else t.retentionAmount))
  }

  // -------------------------------------------------------------- acceptance

  function EngineItem(i: PayloadItem): LineItem {
    LineItem(i.name, i.quantity, i.unitPrice, i.exempt, i.discountPercentage, i.discountAmount)
  }

  function EngineItems(items: seq<PayloadItem>): seq<LineItem> {
    seq(|items|, k requires 0 <= k < |items| => EngineItem(items[k]))
  }

  function ItemError(i: PayloadItem): Option<ValidationError> {
    if i.quantity <= 0.0 then Some(BadQuantity)
    else if i.unitPrice < 0.0 then Some(BadPrice)
    else if i.discountPercentage.Some? && i.discountAmount.Some? then Some(TwoDiscounts)
    else None
  }

  function FirstItemError(items: seq<PayloadItem>): Option<ValidationError> {
    if items == [] then None
    else if ItemError(items[0]).Some? then ItemError(items[0])
    else FirstItemError(items[1..])
  }

  /** A declared amount more than one peso away from the computed one. */
  predicate Differs(declared: Option<real>, expected: int) {
    declared.Some? && (declared.value - expected as real > 1.0 || expected as real - declared.value > 1.0)
  }

  function Mismatch(d: Declared, t: Totals): Option<ValidationError> {
    if Differs(d.netAmount, t.netAmount) then Some(TotalsMismatch(NetAmount))
    else if Differs(d.exemptAmount, t.exemptAmount) then Some(TotalsMismatch(ExemptAmount))
    else if Differs(d.ivaAmount, t.ivaAmount) then Some(TotalsMismatch(IvaAmount))
    else if Differs(d.totalAmount, t.totalAmount) then Some(TotalsMismatch(TotalAmount))
    else None
  }

  function ShapeError(p: Payload, allowNotes: bool): Option<ValidationError> {
    var t := p.documentType;
    var note := t == 56 || t == 61;
    if !Supported(t) then Some(UnknownType)
    else if note && !allowNotes then Some(NoteOutsideNotes)
    else if note && p.references == [] then Some(NoteWithoutReference)
    else if p.items == [] then Some(NoItems)
    else if FirstItemError(p.items).Some? then FirstItemError(p.items)
    else if t in {33, 34, 46, 52} && (p.receiver.None? || p.receiver.value.rut == "" || p.receiver.value.name == "")
    then Some(MissingReceiver)
    else if (t == 34 || t == 41) && exists i :: 0 <= i < |p.items| && !p.items[i].exempt then Some(ItemsMustBeExempt)
    else if t == 39 && exists i :: 0 <= i < |p.items| && p.items[i].exempt then Some(ItemsMustNotBeExempt)
    else if t == 52 && (p.transferType.None? || p.transferType.value == 0) then Some(MissingTransport)
    else None
  }

  /** The totals promised with the 202, or why the payload is refused. */
  function Accept(p: Payload, allowNotes: bool): Result<Totals, ValidationError> {
    if ShapeError(p, allowNotes).Some? then Err(ShapeError(p, allowNotes).value)
    else
      match PreviewTotals(p.documentType, EngineItems(p.items), p.pricingMode, p.globalDiscountPercentage,
                          p.taxRetentions)
      case Err(e) => Err(Engine(e))
      case Ok(t) =>
        if p.totals.Some? && Mismatch(p.totals.value, t).Some? then Err(Mismatch(p.totals.value, t).value)
        else Ok(t)
  }

  // ------------------------------------------------------------- worker side

  /** The emission input the worker rebuilds from the stored payload. */
  function RebuildEmitDto(p: Payload, serverTotal: int): EmitDto {
    EmitDto(p.documentType, p.receiver, serverTotal, EngineItems(p.items), p.references, p.transferType,
            p.pricingMode, p.globalDiscountPercentage, p.taxRetentions)
  }

  /** What `prepare` hands to the XML engine: the lines are copied field by field. */
  function BuildInput(dto: EmitDto): EmitDto {
    dto.(items := seq(|dto.items|, k requires 0 <= k < |dto.items| =>
      LineItem(dto.items[k].name, dto.items[k].quantity, dto.items[k].price, dto.items[k].exempt,
               dto.items[k].discountPercentage, dto.items[k].discountAmount)))
  }

  function SignedTotals(p: Payload, serverTotal: int): Result<Totals, EngineError> {
    BuiltTotals(BuildInput(RebuildEmitDto(p, serverTotal)))
  }

  /** Every accepted payload builds, with the amounts promised at the 202; the
      totals agree exactly when the retentions do not sum to a negative amount. */
  lemma PromisedIsSigned(p: Payload, allowNotes: bool, serverTotal: int)
    requires Accept(p, allowNotes).Ok?
    ensures SignedTotals(p, serverTotal).Ok?
    ensures var promised, signed := Accept(p, allowNotes).value, SignedTotals(p, serverTotal).value;
            && signed.netAmount == promised.netAmount && signed.exemptAmount == promised.exemptAmount
            && signed.ivaAmount == promised.ivaAmount
            && (signed == promised <==> RetentionSum(p.taxRetentions) >= 0)
            && (signed.totalAmount == promised.totalAmount <==> RetentionSum(p.taxRetentions) >= 0)
  {
    assert BuildInput(RebuildEmitDto(p, serverTotal)).items == EngineItems(p.items);
  }

  /** A one-line exempt invoice of one peso with the given retention. */
  function Withheld(amount: int): Payload {
    Payload(34, [PayloadItem("item", 1.0, 1.0, true, None, None)], Some(Receiver("76000000-0", "Buyer")), [], None,
            None, None, [Retention(15, amount)], None)
  }

  /** Every retention amount is accepted, the negative ones included: nothing checks their sign. */
  lemma WithheldAccepted(amount: int)
    ensures Accept(Withheld(amount), false)
         == Ok(if amount > 0 then Totals(0, 1, 0, 1 - amount, None, Some(amount)) else Totals(0, 1, 0, 1, None, None))
    ensures RetentionSum(Withheld(amount).taxRetentions) == amount
  {
    var p := Withheld(amount);
    var items := EngineItems(p.items);
    assert items[..|items| - 1] == [] && p.taxRetentions[..|p.taxRetentions| - 1] == [];
    assert RetentionSum(p.taxRetentions) == amount;
    assert Shares(34, None, items) == Ok((0, 1));
    assert TotalsOf(34, items, None, None) == Ok(Totals(0, 1, 0, 1, None, None));
    assert FirstItemError(p.items[1..]).None?;
    assert ShapeError(p, false).None?;
  }

  /** So the totals promised and signed do differ: the 202 promises one peso, the document says more. */
  lemma NegativeRetentionBreaksPromise(amount: int, serverTotal: int)
    requires amount < 0
    ensures Accept(Withheld(amount), false).Ok? && SignedTotals(Withheld(amount), serverTotal).Ok?
    ensures Accept(Withheld(amount), false).value.totalAmount == 1
    ensures SignedTotals(Withheld(amount), serverTotal).value.totalAmount == 1 - amount
  {
    WithheldAccepted(amount);
    PromisedIsSigned(Withheld(amount), false, serverTotal);
    assert BuildInput(RebuildEmitDto(Withheld(amount), serverTotal)).items == EngineItems(Withheld(amount).items);
  }

  lemma AcceptedDeclared(p: Payload, allowNotes: bool)
    requires Accept(p, allowNotes).Ok? && p.totals.Some?
    ensures Mismatch(p.totals.value, Accept(p, allowNotes).value).None?
  {}

  ghost predicate NearEverywhere(d: Declared, t: Totals) {
    && !Differs(d.netAmount, t.netAmount) && !Differs(d.exemptAmount, t.exemptAmount)
    && !Differs(d.ivaAmount, t.ivaAmount) && !Differs(d.totalAmount, t.totalAmount)
  }

  lemma NoMismatch(d: Declared, t: Totals)
    ensures Mismatch(d, t).None? <==> NearEverywhere(d, t)
  {}

  /** A declared amount that passed acceptance is within one peso of the signed one. */
  lemma DeclaredNearSigned(p: Payload, allowNotes: bool, serverTotal: int)
    requires Accept(p, allowNotes).Ok? && p.totals.Some? && RetentionSum(p.taxRetentions) >= 0
    ensures SignedTotals(p, serverTotal).Ok? && NearEverywhere(p.totals.value, SignedTotals(p, serverTotal).value)
  {
    PromisedIsSigned(p, allowNotes, serverTotal);
    var promised := Accept(p, allowNotes).value;
    AcceptedDeclared(p, allowNotes);
    NoMismatch(p.totals.value, promised);
  }

  // --------------------------------------------------------- printed document

  /** Amount nodes of the Totales block; a zero net or exempt amount is omitted. */
  datatype Printed = Printed(mntNeto: Option<int>, iva: Option<int>, mntExe: Option<int>, mntTotal: int,
                             montoItems: seq<int>)

  function MontoItems(items: seq<LineItem>): seq<int> {
    if items == [] then []
    else MontoItems(items[..|items| - 1])
         + [match ApplyItemDiscount(items[|items| - 1]) case Ok(line) => line.netAmount case Err(_) => 0]
  }

  function Print(items: seq<LineItem>, t: Totals): Printed {
    Printed(if t.netAmount > 0 then Some(t.netAmount) else None,
            if t.netAmount > 0 then Some(t.ivaAmount) else None,
            if t.exemptAmount > 0 then Some(t.exemptAmount) else None,
            t.totalAmount, MontoItems(items))
  }

  /** A numeric node as the preflight reads it: digits only, so a negative amount is not seen. */
  function NumberTag(x: Option<int>): Option<int> {
    if x.Some? && x.value >= 0 then x else None
  }

  function OrZero(x: Option<int>): int { if x.Some? then x.value else 0 }

  datatype PreflightError = MissingTotal | Unbalanced

  function Preflight(d: Printed): Option<PreflightError> {
    var total := NumberTag(Some(d.mntTotal));
    if total.None? then Some(MissingTotal)
    else if OrZero(NumberTag(d.mntNeto)) + OrZero(NumberTag(d.mntExe)) + OrZero(NumberTag(d.iva)) != total.value then
      Some(Unbalanced)
    else None
  }

  /** Checks every document of an envelope and lists what fails, as the preflight does. */
  method PreflightEnvelope(docs: seq<Printed>) returns (errors: seq<(nat, PreflightError)>)
    ensures errors == [] <==> forall i :: 0 <= i < |docs| ==> Preflight(docs[i]).None?
    ensures forall e :: e in errors ==> 1 <= e.0 <= |docs| && Preflight(docs[e.0 - 1]) == Some(e.1)
  {
    errors := [];
    for i := 0 to |docs|
      invariant errors == [] <==> forall j :: 0 <= j < i ==> Preflight(docs[j]).None?
      invariant forall e :: e in errors ==> 1 <= e.0 <= i && Preflight(docs[e.0 - 1]) == Some(e.1)
    {
      var net, exempt, iva := NumberTag(docs[i].mntNeto), NumberTag(docs[i].mntExe), NumberTag(docs[i].iva);
      var total := NumberTag(Some(docs[i].mntTotal));
      if total.None? {
        errors := errors + [(i + 1, MissingTotal)];
      } else if OrZero(net) + OrZero(exempt) + OrZero(iva) != total.value {
        errors := errors + [(i + 1, Unbalanced)];
      }
    }
  }

  predicate SanePayload(p: Payload) {
    forall i :: 0 <= i < |p.items| ==> p.items[i].discountAmount.Some? ==> p.items[i].discountAmount.value >= 0.0
  }

  lemma {:induction false} NoItemError(items: seq<PayloadItem>, k: nat)
    requires FirstItemError(items).None? && k < |items|
    ensures ItemError(items[k]).None?
  {
    if k > 0 { NoItemError(items[1..], k - 1); }
  }

  lemma AcceptedTotals(p: Payload, allowNotes: bool)
    requires Accept(p, allowNotes).Ok?
    ensures TotalsOf(p.documentType, EngineItems(p.items), p.globalDiscountPercentage, p.pricingMode).Ok?
  {}

  lemma AcceptedLinesSane(p: Payload, allowNotes: bool)
    requires Accept(p, allowNotes).Ok? && SanePayload(p)
    ensures forall i :: 0 <= i < |p.items| ==> Sane(EngineItems(p.items)[i])
  {
    forall i | 0 <= i < |p.items| ensures Sane(EngineItems(p.items)[i]) {
      NoItemError(p.items, i);
    }
  }

  /** The printed amounts of an accepted payload pass the preflight equation, with
      zero amounts omitted, exactly when nothing is retained. */
  lemma PrintedBalances(p: Payload, allowNotes: bool, serverTotal: int)
    requires Accept(p, allowNotes).Ok? && SanePayload(p)
    ensures SignedTotals(p, serverTotal).Ok?
    ensures Preflight(Print(EngineItems(p.items), SignedTotals(p, serverTotal).value)).None?
            <==> RetentionSum(p.taxRetentions) == 0
  {
    PromisedIsSigned(p, allowNotes, serverTotal);
    AcceptedLinesSane(p, allowNotes);
    TotalsNonNegative(p.documentType, EngineItems(p.items), p.globalDiscountPercentage, p.pricingMode);
    assert BuildInput(RebuildEmitDto(p, serverTotal)).items == EngineItems(p.items);
  }

  /** A purchase invoice of 100 pesos with its whole tax withheld. */
  const WITHHOLDING: Payload :=
    Payload(46, [PayloadItem("item", 1.0, 100.0, false, None, None)], Some(Receiver("76000000-0", "Seller")), [],
            None, None, None, [Retention(15, 19)], None)

  /** An ordinary withholding is accepted, and its document fails the preflight. */
  lemma WithholdingFailsPreflight(serverTotal: int)
    ensures Accept(WITHHOLDING, false) == Ok(Totals(100, 0, 19, 100, None, Some(19)))
    ensures SignedTotals(WITHHOLDING, serverTotal).Ok?
    ensures Preflight(Print(EngineItems(WITHHOLDING.items), SignedTotals(WITHHOLDING, serverTotal).value))
            == Some(Unbalanced)
  {
    var items := EngineItems(WITHHOLDING.items);
    assert items[..|items| - 1] == [] && WITHHOLDING.taxRetentions[..|WITHHOLDING.taxRetentions| - 1] == [];
    assert Round(100.0 * 0.19) == 19;
    assert Shares(46, None, items) == Ok((100, 0));
    assert FirstItemError(WITHHOLDING.items[1..]).None?;
    PromisedIsSigned(WITHHOLDING, false, serverTotal);
  }

  function Sum(s: seq<int>): int {
    if s == [] then 0 else Sum(s[..|s| - 1]) + s[|s| - 1]
  }

  lemma {:induction false} MontoItemsAddUp(typ: int, mode: Option<PricingMode>, items: seq<LineItem>)
    requires mode != Some(Gross) && Shares(typ, mode, items).Ok?
    ensures Sum(MontoItems(items)) == Shares(typ, mode, items).value.0 + Shares(typ, mode, items).value.1
  {
    if items != [] {
      MontoItemsAddUp(typ, mode, items[..|items| - 1]);
      var m := MontoItems(items);
      assert m[..|m| - 1] == MontoItems(items[..|items| - 1]);
    }
  }

  /** Net prices: the line amounts printed add up to the printed net and exempt
      amounts plus the global discount. */
  lemma NetLinesAddUp(p: Payload, allowNotes: bool, serverTotal: int)
    requires Accept(p, allowNotes).Ok? && SanePayload(p) && p.pricingMode != Some(Gross)
    ensures SignedTotals(p, serverTotal).Ok?
    ensures var signed := SignedTotals(p, serverTotal);
            var d := Print(EngineItems(p.items), signed.value);
            Sum(d.montoItems) == OrZero(d.mntNeto) + OrZero(d.mntExe) + OrZero(signed.value.globalDiscountAmount)
  {
    hide Accept, Shares, MontoItems, Sum;
    AcceptedTotals(p, allowNotes);
    PromisedIsSigned(p, allowNotes, serverTotal);
    AcceptedLinesSane(p, allowNotes);
    var items := EngineItems(p.items);
    TotalsNonNegative(p.documentType, items, p.globalDiscountPercentage, p.pricingMode);
    MontoItemsAddUp(p.documentType, p.pricingMode, items);
    assert BuildInput(RebuildEmitDto(p, serverTotal)).items == items;
    SharesNonNegative(p.documentType, p.pricingMode, items);
    var net := Shares(p.documentType, p.pricingMode, items).value.0;
    if p.globalDiscountPercentage.Some? && p.globalDiscountPercentage.value > 0.0 && net > 0 {
      DiscountBounds(net, p.globalDiscountPercentage.value);
    }
  }
}
