/**
 * The "close the table's bill" request (api/services/mesasService.js, `cerrarCuentaMesa`):
 * the endpoint URL and the choice of request body. Sending it is not modelled.
 */
module CloseBill {
  import opened Wrappers
  import Text

  /** The API base URL the app is configured with. */
  const ApiUrl := "https://bcr.dyndns.org:3443/api"

  const TablesSegment := "/mesas/"
  const CloseSegment := "/cerrar-cuenta"

  /** `${API_URL}/mesas/${mesaId}/cerrar-cuenta` */
  function CloseBillUrl(apiUrl: string, mesaId: nat): (url: string)
    ensures url == apiUrl + TablesSegment + Text.NatToDecimal(mesaId) + CloseSegment
    ensures |url| == |apiUrl| + |TablesSegment| + |Text.NatToDecimal(mesaId)| + |CloseSegment|
    ensures url[..|apiUrl|] == apiUrl
    ensures url[|url| - |CloseSegment|..] == CloseSegment
  {
    apiUrl + TablesSegment + Text.NatToDecimal(mesaId) + CloseSegment
  }

  /** The table id sits between the two fixed segments of the URL. */
  lemma CloseBillUrlTableSegment(apiUrl: string, mesaId: nat)
    ensures var url := CloseBillUrl(apiUrl, mesaId);
      url[|apiUrl| + |TablesSegment|..|url| - |CloseSegment|] == Text.NatToDecimal(mesaId)
  {
  }

  /** Two tables never share a close-bill URL. */
  lemma CloseBillUrlInjective(apiUrl: string, m1: nat, m2: nat)
    requires CloseBillUrl(apiUrl, m1) == CloseBillUrl(apiUrl, m2)
    ensures m1 == m2
  {
    CloseBillUrlTableSegment(apiUrl, m1);
    CloseBillUrlTableSegment(apiUrl, m2);
    Text.NatToDecimalInjective(m1, m2);
  }

  /**
   * The JSON body: either `{ pagos }` with the per-payer payments, or `{ metodoPago }`
   * (the method may be `null`). The payment records are passed through untouched,
   * whatever their shape, hence the type parameter.
   */
  datatype CloseBody<P> = Payments(pagos: seq<P>) | SingleMethod(metodoPago: Option<string>)

  /** The keys of the JSON object the body serialises to. */
  function BodyKeys<P>(b: CloseBody<P>): (keys: set<string>)
    ensures |keys| == 1
    ensures keys == {"pagos"} || keys == {"metodoPago"}
  {
    match b
    case Payments(_) => {"pagos"}
    case SingleMethod(_) => {"metodoPago"}
  }

  /** `pagos.length > 0 ? { pagos } : { metodoPago }` */
  function CloseBillBody<P>(metodoPago: Option<string>, pagos: seq<P>): (b: CloseBody<P>)
    ensures "pagos" in BodyKeys(b) <==> |pagos| > 0
    ensures "metodoPago" in BodyKeys(b) <==> |pagos| == 0
    ensures b.Payments? ==> b.pagos == pagos
    ensures b.SingleMethod? ==> b.metodoPago == metodoPago
  {
    if |pagos| > 0 then Payments(pagos) else SingleMethod(metodoPago)
  }

  /** What `cerrarCuentaMesa(mesaId, metodoPago, pagos)` sends: a POST to this URL with this body. */
  datatype CloseRequest<P> = CloseRequest(url: string, body: CloseBody<P>)

  function CloseBillRequest<P>(mesaId: nat, metodoPago: Option<string>, pagos: seq<P>): (req: CloseRequest<P>)
    ensures req.url == CloseBillUrl(ApiUrl, mesaId)
    ensures |pagos| > 0 ==> req.body == Payments(pagos)
    ensures |pagos| == 0 ==> req.body == SingleMethod(metodoPago)
  {
    CloseRequest(CloseBillUrl(ApiUrl, mesaId), CloseBillBody(metodoPago, pagos))
  }

  /**
   * The call the home screen makes, `cerrarCuentaMesa(mesa.id, metodoPago)`, leaves `pagos`
   * at its default `[]`, so it always sends the payment method and never a `pagos` key.
   */
  lemma DefaultPaymentsSendMethod<P>(mesaId: nat, metodoPago: string)
    ensures var req := CloseBillRequest<P>(mesaId, Some(metodoPago), []);
      && BodyKeys(req.body) == {"metodoPago"}
      && req.body.metodoPago == Some(metodoPago)
  {
  }
}
