/**
 * The delivery details dialog: the status badge's label and colour, the
 * item subtotals, and which action buttons it offers.
 */
module DeliveryDetails {
  import opened Common
  import opened ApiTypes

  /** The wire code of each delivery status. */
  function StatusCode(s: DeliveryStatus): string
  {
    match s
    case AguardandoColeta => "AGUARDANDO_COLETA"
    case EmTransito => "EM_TRANSITO"
    case Entregue => "ENTREGUE"
    case Cancelada => "CANCELADA"
  }

  predicate IsKnownCode(code: string)
  {
    code == "AGUARDANDO_COLETA" || code == "EM_TRANSITO" || code == "ENTREGUE" || code == "CANCELADA"
  }

  /** Distinct statuses have distinct codes, and every code is a known one. */
  lemma StatusCodeInjective(a: DeliveryStatus, b: DeliveryStatus)
    ensures IsKnownCode(StatusCode(a))
    ensures StatusCode(a) == StatusCode(b) ==> a == b
  {
  }

  const UNKNOWN_COLOR := "bg-gray-500"

  /** `getStatusColor`: one badge colour per known code, grey for anything else. */
  function GetStatusColor(code: string): (r: string)
    ensures r == UNKNOWN_COLOR <==> !IsKnownCode(code)
  {
    if code == "AGUARDANDO_COLETA" then "bg-blue-500"
    else if code == "EM_TRANSITO" then "bg-yellow-500"
    else if code == "ENTREGUE" then "bg-green-500"
    else if code == "CANCELADA" then "bg-red-500"
    else UNKNOWN_COLOR
  }

  /** `getStatusText`: a readable label for each known code; anything else is shown as it came. */
  function GetStatusText(code: string): (r: string)
    ensures !IsKnownCode(code) ==> r == code
    ensures IsKnownCode(code) ==> r != code && !IsKnownCode(r)
  {
    if code == "AGUARDANDO_COLETA" then "Aguardando Coleta"
    else if code == "EM_TRANSITO" then "Em Trânsito"
    else if code == "ENTREGUE" then "Entregue"
    else if code == "CANCELADA" then "Cancelada"
    else code
  }

  /** The badge tells the statuses apart: distinct statuses get distinct labels and distinct colours. */
  lemma BadgeDistinguishesStatuses(a: DeliveryStatus, b: DeliveryStatus)
    requires a != b
    ensures GetStatusText(StatusCode(a)) != GetStatusText(StatusCode(b))
    ensures GetStatusColor(StatusCode(a)) != GetStatusColor(StatusCode(b))
  {
  }

  /** The buttons at the foot of the dialog. */
  datatype DetailsActions = DetailsActions(accept: bool, complete: bool, close: bool)

  /**
   * The action row: shown only when `showActions` (true unless the caller
   * says otherwise); accept only for a delivery waiting for pickup and only
   * when the caller passed an accept handler; mark-as-delivered only for a
   * delivery in transit with a complete handler; close always in the row.
   */
  function Actions(status: DeliveryStatus, showActions: bool, hasOnAccept: bool, hasOnComplete: bool): (a: DetailsActions)
    ensures !showActions ==> a == DetailsActions(false, false, false)
    ensures a.accept ==> status == AguardandoColeta
    ensures a.complete ==> status == EmTransito
    ensures !(a.accept && a.complete)
    ensures showActions && hasOnAccept && status == AguardandoColeta ==> a.accept
    ensures showActions && hasOnComplete && status == EmTransito ==> a.complete
    ensures a.accept <==> showActions && hasOnAccept && status == AguardandoColeta
    ensures a.complete <==> showActions && hasOnComplete && status == EmTransito
    ensures a.close == showActions
  {
    DetailsActions(
      showActions && StatusCode(status) == "AGUARDANDO_COLETA" && hasOnAccept,
      showActions && StatusCode(status) == "EM_TRANSITO" && hasOnComplete,
      showActions)
  }

  /** A delivered or cancelled delivery never offers accept or complete. */
  lemma FinishedOffersNothing(status: DeliveryStatus, showActions: bool, hasOnAccept: bool, hasOnComplete: bool)
    requires status == Entregue || status == Cancelada
    ensures !Actions(status, showActions, hasOnAccept, hasOnComplete).accept
    ensures !Actions(status, showActions, hasOnAccept, hasOnComplete).complete
  {
  }

  /** What the dialog shows of one delivery. */
  datatype DetailsView = DetailsView(
    deliveryId: int,
    statusText: string,
    statusColor: string,
    phone: Option<string>,
    subtotals: seq<real>,
    valorTotal: real,
    notes: Option<string>,
    actions: DetailsActions)

  function ItemSubtotal(item: DeliveryItem): real
  {
    (item.quantidade as real) * item.preco
  }

  /** One subtotal per item line, in item order. */
  function Subtotals(items: seq<DeliveryItem>): (r: seq<real>)
    ensures |r| == |items|
    ensures forall i :: 0 <= i < |items| ==> r[i] == ItemSubtotal(items[i])
  {
    if items == [] then [] else [ItemSubtotal(items[0])] + Subtotals(items[1..])
  }

  /** The subtotals add up to the sum over the items of quantity times price. */
  lemma {:induction false} SubtotalsSum(items: seq<DeliveryItem>)
    ensures Sum(Subtotals(items), (x: real) => x) == Sum(items, ItemSubtotal)
  {
    if items != [] {
      SubtotalsSum(items[1..]);
    }
  }

  /** The component: nothing at all without a delivery. */
  function Render(delivery: Option<Delivery>, showActions: bool, hasOnAccept: bool, hasOnComplete: bool): (r: Option<DetailsView>)
    ensures r.None? <==> delivery.None?
    ensures r.Some? ==>
              var d := delivery.value;
              r.value.deliveryId == d.id &&
              r.value.statusText == GetStatusText(StatusCode(d.status)) &&
              r.value.statusColor != UNKNOWN_COLOR &&
              |r.value.subtotals| == |d.itens| &&
              (r.value.actions.accept ==> d.status == AguardandoColeta) &&
              (r.value.actions.complete ==> d.status == EmTransito)
    ensures r.Some? ==>
              var d := delivery.value;
              r.value.statusColor == GetStatusColor(StatusCode(d.status)) &&
              r.value.phone == d.cliente.telefone &&
              r.value.valorTotal == d.valorTotal &&
              r.value.notes == d.observacoes &&
              (forall i :: 0 <= i < |d.itens| ==> r.value.subtotals[i] == ItemSubtotal(d.itens[i])) &&
              (!showActions ==> r.value.actions == DetailsActions(false, false, false)) &&
              (r.value.actions.accept <==> showActions && hasOnAccept && d.status == AguardandoColeta) &&
              (r.value.actions.complete <==> showActions && hasOnComplete && d.status == EmTransito)
  {
    match delivery
    case None => None
    case Some(d) =>
      Some(DetailsView(d.id, GetStatusText(StatusCode(d.status)), GetStatusColor(StatusCode(d.status)),
                       d.cliente.telefone, Subtotals(d.itens), d.valorTotal, d.observacoes,
                       Actions(d.status, showActions, hasOnAccept, hasOnComplete)))
  }
}
