/** What each table row offers: the status label the purchase order and invoice tables print,
    and which action buttons appear for which status. */
module RowActions {

  /** The action buttons a row can show. `Edit` is the pencil button that opens the
      update-amount form. */
  datatype Action = Approve | Cancel | SendToProvider | Edit | Deactivate | CreatePurchaseOrder | Activate

  const Approved: string := "approved"
  const Pending: string := "pending"
  const Cancelled: string := "cancelled"
  const Unpaid: string := "unpaid"
  const Active: string := "active"

  /** The label printed in a purchase order's status column. */
  function OrderStatusLabel(status: string): (r: string)
    ensures r in {"Aprobada", "Pendiente", "Cancelada", "N/A"}
    ensures r == "N/A" <==> status !in {Approved, Pending, Cancelled}
    ensures r == "Aprobada" <==> status == Approved
    ensures r == "Pendiente" <==> status == Pending
    ensures r == "Cancelada" <==> status == Cancelled
  {
    if status == Approved then "Aprobada"
    else if status == Pending then "Pendiente"
    else if status == Cancelled then "Cancelada"
    else "N/A"
  }

  /** The buttons of a purchase order row, left to right: approve for pending and cancelled
      orders, otherwise cancel and send-to-provider. The pencil button is commented out on
      this screen, so Edit never appears. */
  function OrderActions(status: string): (r: seq<Action>)
    ensures Approve in r <==> status == Pending || status == Cancelled
    ensures Cancel in r <==> !(Approve in r)
    ensures SendToProvider in r <==> Cancel in r
    ensures Edit !in r && Activate !in r && Deactivate !in r && CreatePurchaseOrder !in r
  {
    if status == Pending || status == Cancelled then [Approve] else [Cancel, SendToProvider]
  }

  /** Approve is offered exactly on the rows labelled Pendiente or Cancelada; every other row,
      an unknown (N/A) status included, is offered cancel and send-to-provider. */
  lemma OrderActionsFollowLabel(status: string)
    ensures Approve in OrderActions(status) <==> OrderStatusLabel(status) in {"Pendiente", "Cancelada"}
    ensures OrderStatusLabel(status) == "N/A" ==> OrderActions(status) == [Cancel, SendToProvider]
  {
  }

  /** An approved order still offers cancel (the source does not treat approval as final). */
  lemma ApprovedOrderCanBeCancelled()
    ensures OrderActions(Approved) == [Cancel, SendToProvider]
  {
  }

  /** The label printed in an invoice's status column; an unpaid invoice reads Pendiente. */
  function InvoiceStatusLabel(status: string): (r: string)
    ensures r in {"Aprobada", "Pendiente", "Cancelada", "N/A"}
    ensures r == "N/A" <==> status !in {Approved, Unpaid, Cancelled}
    ensures r == "Pendiente" <==> status == Unpaid
    ensures r == "Aprobada" <==> status == Approved
    ensures r == "Cancelada" <==> status == Cancelled
  {
    if status == Approved then "Aprobada"
    else if status == Unpaid then "Pendiente"
    else if status == Cancelled then "Cancelada"
    else "N/A"
  }

  /** The buttons of an invoice row: approve for unpaid and cancelled invoices, otherwise
      cancel; the pencil (Edit) always follows. */
  function InvoiceActions(status: string): (r: seq<Action>)
    ensures |r| == 2 && r[1] == Edit
    ensures Approve in r <==> status == Unpaid || status == Cancelled
    ensures Cancel in r <==> !(Approve in r)
    ensures SendToProvider !in r
  {
    (if status == Unpaid || status == Cancelled then [Approve] else [Cancel]) + [Edit]
  }

  /** Approve is offered exactly on invoices labelled Pendiente or Cancelada. */
  lemma InvoiceActionsFollowLabel(status: string)
    ensures Approve in InvoiceActions(status) <==> InvoiceStatusLabel(status) in {"Pendiente", "Cancelada"}
  {
  }

  /** The buttons of a user row: an active user can be deactivated and given a purchase
      order; any other status only offers activation. */
  function UserActions(status: string): (r: seq<Action>)
    ensures Deactivate in r <==> status == Active
    ensures CreatePurchaseOrder in r <==> status == Active
    ensures Activate in r <==> status != Active
    ensures Approve !in r && Cancel !in r && Edit !in r && SendToProvider !in r
  {
    if status == Active then [Deactivate, CreatePurchaseOrder] else [Activate]
  }

  /** Exactly one of activate and deactivate is offered for every user. */
  lemma UserToggleIsExclusive(status: string)
    ensures (Activate in UserActions(status)) != (Deactivate in UserActions(status))
  {
  }
}
