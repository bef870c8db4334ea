/**
 * The invoice table: the label and colour of each status, the actions a row
 * offers (only drafts can be edited or deleted), and the two-click delete
 * confirmation.
 */
module InvoiceTable {
  import opened Wrappers
  import opened Records

  /** `statusLabels[status]`; a status outside the five has none. */
  function StatusLabel(s: InvoiceStatus): (r: Option<string>)
    ensures r.None? <==> s.OtherStatus?
  {
    match s
    case Draft => Some("Draft")
    case Issued => Some("Issued")
    case Paid => Some("Paid")
    case Overdue => Some("Overdue")
    case Cancelled => Some("Cancelled")
    case OtherStatus(_) => None
  }

  /** `statusColors[status]`; a status outside the five has none. */
  function StatusColor(s: InvoiceStatus): (r: Option<string>)
    ensures r.None? <==> s.OtherStatus?
  {
    match s
    case Draft => Some("bg-gray-100 text-gray-800")
    case Issued => Some("bg-blue-100 text-blue-800")
    case Paid => Some("bg-green-100 text-green-800")
    case Overdue => Some("bg-red-100 text-red-800")
    case Cancelled => Some("bg-gray-100 text-gray-500")
    case OtherStatus(_) => None
  }

  /** Each of the five statuses has a label and a colour, and the labels differ already in their first letter. */
  lemma StatusLabelsDistinct(a: InvoiceStatus, b: InvoiceStatus)
    requires !a.OtherStatus? && !b.OtherStatus? && a != b
    ensures StatusLabel(a).Some? && StatusColor(a).Some?
    ensures StatusLabel(a) != StatusLabel(b)
  {
    assert StatusLabel(a).value[0] != StatusLabel(b).value[0];
  }

  datatype RowAction = View | Edit | Delete

  /** The links and buttons of a row: View always, Edit and Delete for drafts only. */
  function RowActions(invoice: Invoice): (r: set<RowAction>)
    ensures View in r
    ensures Edit in r <==> invoice.status == Draft
    ensures Delete in r <==> invoice.status == Draft
  {
    if invoice.status == Draft then {View, Edit, Delete} else {View}
  }

  /**
   * One click on a row's delete button, given the armed id: the armed id
   * afterwards, and the id handed to `onDelete`, if any.
   */
  function DeleteClick(armed: Option<string>, id: string, hasOnDelete: bool): (r: (Option<string>, Option<string>))
    ensures armed == Some(id) ==> r.0.None? && r.1 == (if hasOnDelete then Some(id) else None)
    ensures armed != Some(id) ==> r.0 == Some(id) && r.1.None?
  {
    if armed == Some(id) then (None, if hasOnDelete then Some(id) else None) else (Some(id), None)
  }

  /** Two clicks on the same row delete it, whatever was armed before; the second click disarms. */
  lemma DoubleClickDeletes(armed: Option<string>, id: string)
    ensures var (a1, d1) := DeleteClick(armed, id, true);
      var (a2, d2) := DeleteClick(a1, id, true);
      (d1.Some? ==> d1 == Some(id) && a1.None?) && (d1.None? ==> d2 == Some(id) && a2.None?)
  {
  }

  /** A click on another row while one is armed moves the confirmation and deletes nothing. */
  lemma OtherRowRearms(armedId: string, id: string, hasOnDelete: bool)
    requires armedId != id
    ensures DeleteClick(Some(armedId), id, hasOnDelete) == (Some(id), None)
  {
  }

  /** The table's `deleteConfirm` state. */
  class DeleteConfirmation {
    var deleteConfirm: Option<string>

    constructor ()
      ensures deleteConfirm.None?
    {
      deleteConfirm := None;
    }

    /** `handleDelete(id)`: fires and disarms on the armed id, otherwise arms `id`. */
    method HandleDelete(id: string, hasOnDelete: bool) returns (deleted: Option<string>)
      modifies this
      ensures (deleteConfirm, deleted) == DeleteClick(old(deleteConfirm), id, hasOnDelete)
    {
      if deleteConfirm == Some(id) {
        deleted := if hasOnDelete then Some(id) else None;
        deleteConfirm := None;
      } else {
        deleted := None;
        deleteConfirm := Some(id);
      }
    }
  }
}
