/** Callback data carried by the inline buttons. Button captions and
    markup objects are not modelled. */
module Keyboards {
  import Text
  import Decimal

  const AboutData: string := "about"
  const OrderData: string := "order"
  const BackData: string := "back"
  const ConfirmOrderData: string := "confirm_order"
  const CancelOrderData: string := "cancel_order"
  const PaidData: string := "i_paid"

  /** The static callback strings of the main, about, confirm and payment menus. */
  const StaticCallbacks: seq<string> := [AboutData, OrderData, BackData, ConfirmOrderData, CancelOrderData, PaidData]

  const ConfirmPrefix: string := "confirm_"
  const RejectPrefix: string := "reject_"

  /** The two buttons of the admin's order menu. */
  datatype AdminButtons = AdminButtons(confirm: string, reject: string)

  /** `admin_order_menu(order_id)`: `confirm_<id>` and `reject_<id>`. */
  function AdminOrderMenu(orderId: int): (r: AdminButtons)
    ensures Text.StartsWith(r.confirm, ConfirmPrefix) && Text.StartsWith(r.reject, RejectPrefix)
    ensures r.confirm[|ConfirmPrefix|..] == r.reject[|RejectPrefix|..]
    ensures '_' !in r.confirm[|ConfirmPrefix|..]
  {
    var n := Decimal.IntToString(orderId);
    assert (ConfirmPrefix + n)[|ConfirmPrefix|..] == n;
    assert (RejectPrefix + n)[|RejectPrefix|..] == n;
    AdminButtons(ConfirmPrefix + n, RejectPrefix + n)
  }

  /** The six static callback strings are pairwise distinct. */
  lemma StaticCallbacksDistinct()
    ensures forall i, j :: 0 <= i < j < |StaticCallbacks| ==> StaticCallbacks[i] != StaticCallbacks[j]
  {
  }
}
