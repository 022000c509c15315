/**
 * The admin order list (src/components/AdminOrderTable.tsx): the header
 * checkbox states, the status labels, and the flags held while one order's
 * status is being changed.
 */
module AdminOrderTable {
  import opened Wrappers
  import OrdersExport

  // ---------------------------------------------------------------------------
  // Selection
  // ---------------------------------------------------------------------------

  /** `isAllSelected`: there are orders and as many selected ids as orders. */
  predicate IsAllSelected(orderCount: nat, selectedCount: nat) {
    orderCount > 0 && selectedCount == orderCount
  }

  /** `isSomeSelected`: some but fewer ids selected than there are orders. */
  predicate IsSomeSelected(orderCount: nat, selectedCount: nat) {
    selectedCount > 0 && selectedCount < orderCount
  }

  /**
   * The two states never hold together; when the selected ids are at most
   * the orders, exactly one of "none", "some" and "all" holds for a
   * non-empty list.
   */
  lemma SelectionStates(orderCount: nat, selectedCount: nat)
    ensures !(IsAllSelected(orderCount, selectedCount) && IsSomeSelected(orderCount, selectedCount))
    ensures orderCount > 0 && selectedCount <= orderCount ==>
      (selectedCount == 0 || IsSomeSelected(orderCount, selectedCount) || IsAllSelected(orderCount, selectedCount))
    ensures orderCount == 0 ==> !IsAllSelected(orderCount, selectedCount)
  {
  }

  // ---------------------------------------------------------------------------
  // Status labels
  // ---------------------------------------------------------------------------

  /** The choices of the status control: value and caption. */
  const STATUS_CHOICES: seq<(string, string)> := [
    ("pending", "รอตรวจสอบ"),
    ("confirmed", "ยืนยันการชำระเงิน"),
    ("processing", "กำลังจัดส่ง"),
    ("completed", "จัดส่งแล้ว"),
    ("cancelled", "ยกเลิก")
  ]

  /**
   * The table labels a status as the order export does: the five known
   * statuses get their captions and every other status is shown unchanged.
   */
  lemma ChoiceCaptionsAreStatusLabels(status: string)
    ensures |STATUS_CHOICES| == |OrdersExport.KNOWN_STATUSES|
    ensures forall k :: 0 <= k < |STATUS_CHOICES| ==>
      STATUS_CHOICES[k].0 == OrdersExport.KNOWN_STATUSES[k] &&
      STATUS_CHOICES[k].1 == OrdersExport.StatusLabel(STATUS_CHOICES[k].0)
    ensures (forall k :: 0 <= k < |STATUS_CHOICES| ==> STATUS_CHOICES[k].0 != status) ==>
      OrdersExport.StatusLabel(status) == status
  {
  }

  // ---------------------------------------------------------------------------
  // Changing a status
  // ---------------------------------------------------------------------------

  /** How `updateOrderStatus` ends: success, a reported failure, or an exception. */
  datatype UpdateOutcome = Succeeded | Failed(error: string) | Threw

  /** A notification shown to the admin. */
  datatype Toast = Toast(destructive: bool, title: string, description: string)

  const UPDATED_TITLE: string := "สถานะอัพเดทเรียบร้อย"
  const ERROR_TITLE: string := "เกิดข้อผิดพลาด"
  const RETRY_MESSAGE: string := "ไม่สามารถอัพเดทสถานะได้ กรุณาลองใหม่อีกครั้ง"

  /** The notification for an outcome; the success text names the new status by its label. */
  function ToastFor(newStatus: string, outcome: UpdateOutcome): (t: Toast)
    ensures t.destructive <==> !outcome.Succeeded?
    ensures outcome.Succeeded? ==>
      t.title == UPDATED_TITLE && t.description == "อัพเดทสถานะเป็น " + OrdersExport.StatusLabel(newStatus) + " สำเร็จ"
    ensures outcome.Failed? ==> t.title == ERROR_TITLE && t.description == outcome.error
    ensures outcome.Threw? ==> t.title == ERROR_TITLE && t.description == RETRY_MESSAGE
  {
    match outcome
    case Succeeded => Toast(false, UPDATED_TITLE, "อัพเดทสถานะเป็น " + OrdersExport.StatusLabel(newStatus) + " สำเร็จ")
    case Failed(e) => Toast(true, ERROR_TITLE, e)
    case Threw => Toast(true, ERROR_TITLE, RETRY_MESSAGE)
  }

  /** The update flags of the table, the notifications shown and the refreshes asked for. */
  class StatusUpdater {
    var isUpdating: bool
    var updatingOrderId: Option<int>
    var toasts: seq<Toast>
    var refreshes: nat

    constructor()
      ensures !isUpdating && updatingOrderId.None? && toasts == [] && refreshes == 0
    {
      isUpdating := false;
      updatingOrderId := None;
      toasts := [];
      refreshes := 0;
    }

    /** `disabled={isUpdating && updatingOrderId === order.id}`. */
    predicate RowDisabled(orderId: int)
      reads this
    {
      isUpdating && updatingOrderId == Some(orderId)
    }

    /** The start of `handleStatusChange`: only that order's control is disabled. */
    method Begin(orderId: int)
      modifies this
      ensures forall x :: RowDisabled(x) <==> x == orderId
      ensures toasts == old(toasts) && refreshes == old(refreshes)
    {
      updatingOrderId := Some(orderId);
      isUpdating := true;
    }

    /**
     * The end of `handleStatusChange`: one notification; the parent's
     * refresh only after a success; the flags cleared whatever happened.
     */
    method Finish(newStatus: string, outcome: UpdateOutcome)
      modifies this
      ensures toasts == old(toasts) + [ToastFor(newStatus, outcome)]
      ensures refreshes == old(refreshes) + (if outcome.Succeeded? then 1 else 0)
      ensures !isUpdating && updatingOrderId.None?
      ensures forall x :: !RowDisabled(x)
    {
      match outcome {
        case Failed(e) =>
          toasts := toasts + [Toast(true, ERROR_TITLE, e)];
        case Succeeded =>
          toasts := toasts + [Toast(false, UPDATED_TITLE, "อัพเดทสถานะเป็น " + OrdersExport.StatusLabel(newStatus) + " สำเร็จ")];
          refreshes := refreshes + 1;
        case Threw =>
          toasts := toasts + [Toast(true, ERROR_TITLE, RETRY_MESSAGE)];
      }
      isUpdating := false;
      updatingOrderId := None;
    }

    /** `handleStatusChange`, with the server's answer as the outcome. */
    method HandleStatusChange(orderId: int, newStatus: string, outcome: UpdateOutcome)
      modifies this
      ensures toasts == old(toasts) + [ToastFor(newStatus, outcome)]
      ensures refreshes == old(refreshes) + (if outcome.Succeeded? then 1 else 0)
      ensures !isUpdating && updatingOrderId.None?
    {
      Begin(orderId);
      Finish(newStatus, outcome);
    }
  }
}
