/**
 * The open-tables summary screen (screens/ResumenScreen.js): which tables are listed as
 * having pending orders, and the payment record sent when an order is paid.
 */
module Summary {
  import opened Wrappers
  import Text
  import Seqs

  /** A table as the tables service lists it. */
  datatype Mesa = Mesa(id: int, numero: int, pedidosActivos: int)

  predicate HasPendingOrders(m: Mesa)
  {
    m.pedidosActivos > 0
  }

  /** `mesasData.filter(mesa => mesa.pedidosActivos > 0)` */
  function ActiveTables(mesas: seq<Mesa>): (r: seq<Mesa>)
    ensures forall m :: m in r ==> m in mesas && m.pedidosActivos > 0
  {
    Seqs.Filter(mesas, HasPendingOrders)
  }

  /** The list holds exactly the tables with pending orders, in the order the service gave them. */
  lemma ActiveTablesExact(mesas: seq<Mesa>)
    ensures Seqs.IsSubseq(ActiveTables(mesas), mesas)
    ensures forall m :: m in ActiveTables(mesas) <==> m in mesas && m.pedidosActivos > 0
    ensures forall m :: multiset(ActiveTables(mesas))[m] == if m.pedidosActivos > 0 then multiset(mesas)[m] else 0
  {
    Seqs.FilterIsSubseq(mesas, HasPendingOrders);
    forall m ensures m in ActiveTables(mesas) <==> m in mesas && m.pedidosActivos > 0 {
      Seqs.FilterMembership(mesas, HasPendingOrders, m);
    }
    forall m ensures multiset(ActiveTables(mesas))[m] == if m.pedidosActivos > 0 then multiset(mesas)[m] else 0 {
      Seqs.FilterMultiset(mesas, HasPendingOrders, m);
    }
  }

  // ---------------------------------------------------------------------------
  // Paying an order (`cerrarCuenta` / `procesarPagoFinal`)
  // ---------------------------------------------------------------------------

  const Cash := "Efectivo"
  const Card := "Tarjeta"

  /** The buttons of the "close the bill" dialog. */
  datatype DialogChoice = Cancel | PayCash | PayCard

  /** The payment method a button forwards to `procesarPagoFinal`; Cancel forwards nothing. */
  function ForwardedMethod(choice: DialogChoice): (r: Option<string>)
    ensures r.None? <==> choice == Cancel
    ensures r.Some? ==> r.value == Cash || r.value == Card
    ensures r == Some(Card) <==> choice == PayCard
  {
    match choice
    case Cancel => None
    case PayCash => Some(Cash)
    case PayCard => Some(Card)
  }

  /** The payment record: amount (cents), method, and a reference only for card payments. */
  datatype PaymentData = PaymentData(monto: int, metodoPago: string, numeroReferencia: Option<string>)

  /** `REF${Date.now()}`, with the clock reading passed in. */
  function CardReference(now: nat): (ref: string)
    ensures |ref| > 3 && ref[..3] == "REF"
  {
    "REF" + Text.NatToDecimal(now)
  }

  /** The timestamp a card reference carries, read back from its digits. */
  function ReferenceTimestamp(ref: string): nat
    requires 3 <= |ref| && forall i :: 3 <= i < |ref| ==> Text.IsDigit(ref[i])
  {
    Text.DecimalValue(ref[3..])
  }

  /** A card reference records the moment the payment was made. */
  lemma CardReferenceRoundTrip(now: nat)
    ensures var ref := CardReference(now);
      && (forall i :: 3 <= i < |ref| ==> Text.IsDigit(ref[i]))
      && ReferenceTimestamp(ref) == now
  {
    var ref := CardReference(now);
    assert ref[3..] == Text.NatToDecimal(now);
    Text.DecimalRoundTrip(now);
  }

  /** `pagoData` built in `procesarPagoFinal` from the order total, the method and the clock. */
  function BuildPaymentData(total: int, metodoPago: string, now: nat): (p: PaymentData)
    ensures p.monto == total && p.metodoPago == metodoPago
    ensures p.numeroReferencia.Some? <==> metodoPago == Card
    ensures p.numeroReferencia.Some? ==> p.numeroReferencia.value == CardReference(now)
  {
    PaymentData(total, metodoPago, if metodoPago == Card then Some(CardReference(now)) else None)
  }

  /** What pressing a dialog button sends, if anything: a cash payment never carries a reference. */
  lemma DialogPayment(choice: DialogChoice, total: int, now: nat)
    ensures ForwardedMethod(choice).Some? ==>
      var p := BuildPaymentData(total, ForwardedMethod(choice).value, now);
      && p.monto == total
      && (p.numeroReferencia.Some? <==> choice == PayCard)
  {
  }
}
