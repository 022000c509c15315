/**
 * The customer order form (src/components/ShirtOrderForm.tsx): the list of
 * order lines and the customer details, the running total, the checks run
 * before sending, and the lines as they are sent.
 */
module ShirtOrderForm {
  import opened Wrappers
  import opened OrderTypes
  import opened ListOps

  /** The catalog fields the form reads: a design's id and unit price. */
  datatype CatalogDesign = CatalogDesign(id: string, price: int)

  /** A line being edited: `OrderItem`. */
  datatype OrderItem = OrderItem(design: string, size: string, quantity: int, pricePerUnit: int)

  /** The customer details; the uploaded slip is only present or absent. */
  datatype CustomerInfo = CustomerInfo(name: string, address: string, hasSlip: bool, isPickup: bool)

  /** One edit of a line field: `handleItemChange(index, field, value)`. */
  datatype ItemChange = SetDesign(design: string) | SetSize(size: string) | SetQuantity(quantity: int) | SetPrice(price: int)

  /** One edit of a customer field: `handleCustomerInfoChange(field, value)`. */
  datatype CustomerChange = SetName(name: string) | SetAddress(address: string) | SetSlip(hasSlip: bool) | SetPickup(isPickup: bool)

  /** The price used when a design has no usable catalog price. */
  const FALLBACK_PRICE: int := 750

  // ---------------------------------------------------------------------------
  // Prices
  // ---------------------------------------------------------------------------

  /** The position of the first design with that id at or after `from`, or -1. */
  function FirstIndexFrom(catalog: seq<CatalogDesign>, id: string, from: nat): (k: int)
    requires from <= |catalog|
    ensures k == -1 <==> forall j :: from <= j < |catalog| ==> catalog[j].id != id
    ensures k != -1 ==> from <= k < |catalog| && catalog[k].id == id && forall j :: from <= j < k ==> catalog[j].id != id
    decreases |catalog| - from
  {
    if from == |catalog| then -1
    else if catalog[from].id == id then from
    else FirstIndexFrom(catalog, id, from + 1)
  }

  /** `catalog.find(d => d.id === id)?.price`: the price of the first design with that id. */
  function FindPrice(catalog: seq<CatalogDesign>, id: string): (price: Option<int>)
    ensures price.None? <==> forall k :: 0 <= k < |catalog| ==> catalog[k].id != id
    ensures price.Some? ==> (exists k :: 0 <= k < |catalog| && catalog[k].id == id && price.value == catalog[k].price &&
                                         forall j :: 0 <= j < k ==> catalog[j].id != id)
  {
    var k := FirstIndexFrom(catalog, id, 0);
    if k == -1 then None else Some(catalog[k].price)
  }

  /** `find(...)?.price || 750`: the catalog price, unless the design is unknown or its price is 0. */
  function PriceOrFallback(catalog: seq<CatalogDesign>, id: string): (price: int)
    ensures price != 0
    ensures FindPrice(catalog, id).Some? && FindPrice(catalog, id).value != 0 ==> price == FindPrice(catalog, id).value
    ensures FindPrice(catalog, id).None? || FindPrice(catalog, id).value == 0 ==> price == FALLBACK_PRICE
  {
    var found := FindPrice(catalog, id);
    if found.Some? && found.value != 0 then found.value else FALLBACK_PRICE
  }

  /** `initialPrice`: the price a new line starts with, that of design "1". */
  function InitialPrice(catalog: seq<CatalogDesign>): int {
    PriceOrFallback(catalog, "1")
  }

  /** The line the form starts with and `addItem` appends. */
  function DefaultItem(catalog: seq<CatalogDesign>): (item: OrderItem)
    ensures item.design == "1" && item.size == "M" && item.quantity == 1 && item.pricePerUnit != 0
  {
    OrderItem("1", "M", 1, InitialPrice(catalog))
  }

  /** `(design?.price ?? 0) * item.quantity`: an unknown design costs nothing. */
  function LineCost(catalog: seq<CatalogDesign>, item: OrderItem): (cost: int)
    ensures FindPrice(catalog, item.design).None? ==> cost == 0
    ensures FindPrice(catalog, item.design).Some? ==> cost == FindPrice(catalog, item.design).value * item.quantity
  {
    var found := FindPrice(catalog, item.design);
    (if found.Some? then found.value else 0) * item.quantity
  }

  /** `calculateTotalPrice`: the line costs added up. It reads the catalog, not the lines' own prices. */
  function TotalPrice(catalog: seq<CatalogDesign>, items: seq<OrderItem>): int {
    if items == [] then 0 else TotalPrice(catalog, items[..|items| - 1]) + LineCost(catalog, items[|items| - 1])
  }

  lemma {:induction false} TotalPriceAppend(catalog: seq<CatalogDesign>, a: seq<OrderItem>, b: seq<OrderItem>)
    ensures TotalPrice(catalog, a + b) == TotalPrice(catalog, a) + TotalPrice(catalog, b)
  {
    if b == [] {
      assert a + b == a;
    } else {
      TotalPriceAppend(catalog, a, b[..|b| - 1]);
      assert (a + b)[..|a + b| - 1] == a + b[..|b| - 1];
    }
  }

  /** Replacing one line changes the total by the difference of the two lines' costs. */
  lemma TotalPriceReplace(catalog: seq<CatalogDesign>, items: seq<OrderItem>, index: nat, item: OrderItem)
    requires index < |items|
    ensures TotalPrice(catalog, items[index := item]) ==
      TotalPrice(catalog, items) - LineCost(catalog, items[index]) + LineCost(catalog, item)
  {
    var a, b := items[..index], items[index + 1..];
    assert items == a + [items[index]] + b;
    assert items[index := item] == a + [item] + b;
    TotalPriceSplit(catalog, a, items[index], b);
    TotalPriceSplit(catalog, a, item, b);
  }

  /** A list around one line costs the two sides plus that line. */
  lemma TotalPriceSplit(catalog: seq<CatalogDesign>, a: seq<OrderItem>, x: OrderItem, b: seq<OrderItem>)
    ensures TotalPrice(catalog, a + [x] + b) == TotalPrice(catalog, a) + LineCost(catalog, x) + TotalPrice(catalog, b)
  {
    TotalPriceAppend(catalog, a + [x], b);
    TotalPriceAppend(catalog, a, [x]);
    assert [x][..0] == [];
  }

  /** Removing a line takes exactly its cost off the total. */
  lemma TotalPriceRemove(catalog: seq<CatalogDesign>, items: seq<OrderItem>, index: nat)
    requires index < |items|
    ensures TotalPrice(catalog, RemoveAt(items, index)) == TotalPrice(catalog, items) - LineCost(catalog, items[index])
  {
    RemoveAtIsSplice(items, index);
    assert items == items[..index] + [items[index]] + items[index + 1..];
    TotalPriceSplit(catalog, items[..index], items[index], items[index + 1..]);
    TotalPriceAppend(catalog, items[..index], items[index + 1..]);
  }

  /** A line's price as sent: its own price if non-zero, else the catalog price, else 750. */
  function SubmittedPrice(catalog: seq<CatalogDesign>, item: OrderItem): (price: int)
    ensures price != 0
    ensures item.pricePerUnit != 0 ==> price == item.pricePerUnit
    ensures item.pricePerUnit == 0 ==> price == PriceOrFallback(catalog, item.design)
  {
    if item.pricePerUnit != 0 then item.pricePerUnit else PriceOrFallback(catalog, item.design)
  }

  /** `itemsForSubmission`: the lines as order-line records, in order, with the price filled in. */
  function ItemsForSubmission(catalog: seq<CatalogDesign>, items: seq<OrderItem>): (lines: seq<DBOrderItem>)
    ensures |lines| == |items|
    ensures forall k :: 0 <= k < |items| ==>
      lines[k] == DBOrderItem(items[k].design, items[k].size, items[k].quantity, SubmittedPrice(catalog, items[k]), None)
  {
    seq(|items|, k requires 0 <= k < |items| => DBOrderItem(items[k].design, items[k].size, items[k].quantity,
                                                             SubmittedPrice(catalog, items[k]), None))
  }

  // ---------------------------------------------------------------------------
  // Line and customer edits
  // ---------------------------------------------------------------------------

  /** The line after one field edit; choosing a design also resets its price. */
  function ChangeItem(catalog: seq<CatalogDesign>, item: OrderItem, change: ItemChange): (r: OrderItem)
    ensures change.SetDesign? ==> r == item.(design := change.design, pricePerUnit := PriceOrFallback(catalog, change.design))
    ensures change.SetSize? ==> r == item.(size := change.size)
    ensures change.SetQuantity? ==> r == item.(quantity := change.quantity)
    ensures change.SetPrice? ==> r == item.(pricePerUnit := change.price)
  {
    match change
    case SetDesign(d) => item.(design := d, pricePerUnit := PriceOrFallback(catalog, d))
    case SetSize(s) => item.(size := s)
    case SetQuantity(q) => item.(quantity := q)
    case SetPrice(p) => item.(pricePerUnit := p)
  }

  function ChangeCustomer(info: CustomerInfo, change: CustomerChange): CustomerInfo {
    match change
    case SetName(n) => info.(name := n)
    case SetAddress(a) => info.(address := a)
    case SetSlip(s) => info.(hasSlip := s)
    case SetPickup(p) => info.(isPickup := p)
  }

  /** A line whose price the form itself set (a default line or a design choice) is sent at that price. */
  lemma FormPricesAreSent(catalog: seq<CatalogDesign>, item: OrderItem, d: string)
    ensures SubmittedPrice(catalog, DefaultItem(catalog)) == InitialPrice(catalog)
    ensures SubmittedPrice(catalog, ChangeItem(catalog, item, SetDesign(d))) == PriceOrFallback(catalog, d)
  {
  }

  /** A quantity change moves the total by the design's price times the difference. */
  lemma QuantityChangeShiftsTotal(catalog: seq<CatalogDesign>, items: seq<OrderItem>, index: nat, q: int)
    requires index < |items|
    ensures var price := if FindPrice(catalog, items[index].design).Some? then FindPrice(catalog, items[index].design).value else 0;
      TotalPrice(catalog, items[index := ChangeItem(catalog, items[index], SetQuantity(q))]) ==
      TotalPrice(catalog, items) + price * (q - items[index].quantity)
  {
    var item := items[index];
    var changed := ChangeItem(catalog, item, SetQuantity(q));
    TotalPriceReplace(catalog, items, index, changed);
    var price := if FindPrice(catalog, item.design).Some? then FindPrice(catalog, item.design).value else 0;
    assert LineCost(catalog, changed) == price * q;
    assert LineCost(catalog, item) == price * item.quantity;
    ScaleDifference(price, q, item.quantity);
  }

  lemma ScaleDifference(p: int, a: int, b: int)
    ensures p * a - p * b == p * (a - b)
  {
  }

  // ---------------------------------------------------------------------------
  // Validation
  // ---------------------------------------------------------------------------

  const NO_ITEMS: string := "กรุณาเพิ่มรายการสั่งซื้ออย่างน้อย 1 รายการ"
  const NO_NAME: string := "กรุณากรอกชื่อ-นามสกุล"
  const NO_ADDRESS: string := "กรุณากรอกที่อยู่จัดส่ง"
  const NO_SLIP: string := "กรุณาอัพโหลดสลิปการโอนเงิน"
  const SUBMIT_FAILED: string := "เกิดข้อผิดพลาดในการส่งคำสั่งซื้อ"

  predicate IsWhitespace(c: char) {
    c == ' ' || c == '\t' || c == '\n' || c == '\r' || c == '\U{000B}' || c == '\U{000C}' || c == '\U{00A0}'
  }

  /** `!s.trim()`: the text is empty once surrounding white space is removed. */
  predicate IsBlank(s: string) {
    forall k :: 0 <= k < |s| ==> IsWhitespace(s[k])
  }

  /** `validateForm`: the message of the first failed check, or none. */
  function ValidateForm(items: seq<OrderItem>, info: CustomerInfo): (error: Option<string>)
    ensures error.None? <==> |items| > 0 && !IsBlank(info.name) && (info.isPickup || !IsBlank(info.address)) && info.hasSlip
    ensures error == Some(NO_ITEMS) <==> |items| == 0
    ensures error == Some(NO_NAME) <==> |items| > 0 && IsBlank(info.name)
    ensures error == Some(NO_ADDRESS) <==> |items| > 0 && !IsBlank(info.name) && !info.isPickup && IsBlank(info.address)
    ensures error == Some(NO_SLIP) <==>
      (|items| > 0 && !IsBlank(info.name) && (info.isPickup || !IsBlank(info.address)) && !info.hasSlip)
  {
    if |items| == 0 then Some(NO_ITEMS)
    else if IsBlank(info.name) then Some(NO_NAME)
    else if !info.isPickup && IsBlank(info.address) then Some(NO_ADDRESS)
    else if !info.hasSlip then Some(NO_SLIP)
    else None
  }

  /** A pickup order never needs an address; a delivery order with a blank address is refused. */
  lemma PickupSkipsAddress(items: seq<OrderItem>, info: CustomerInfo)
    requires |items| > 0 && !IsBlank(info.name) && info.hasSlip
    ensures ValidateForm(items, info.(isPickup := true)).None?
    ensures IsBlank(info.address) ==> ValidateForm(items, info.(isPickup := false)) == Some(NO_ADDRESS)
  {
  }

  /** The request body: the customer fields, the lines and the total. */
  datatype Submission = Submission(name: string, address: string, isPickup: bool, items: seq<DBOrderItem>, totalPrice: int)

  function BlankCustomer(): CustomerInfo {
    CustomerInfo("", "", false, false)
  }

  /** The form state that the component keeps between renders. */
  class OrderForm {
    const catalog: seq<CatalogDesign>
    var orderItems: seq<OrderItem>
    var customerInfo: CustomerInfo
    var error: Option<string>
    var showSuccess: bool
    var isSubmitting: bool

    /** The form as first shown: one default line and blank customer details. */
    constructor(catalog: seq<CatalogDesign>)
      ensures this.catalog == catalog
      ensures orderItems == [DefaultItem(catalog)] && customerInfo == BlankCustomer()
      ensures error.None? && !showSuccess && !isSubmitting
    {
      this.catalog := catalog;
      orderItems := [DefaultItem(catalog)];
      customerInfo := BlankCustomer();
      error := None;
      showSuccess := false;
      isSubmitting := false;
    }

    /** `handleItemChange`: only the indexed line changes. */
    method HandleItemChange(index: nat, change: ItemChange)
      requires index < |orderItems|
      modifies this
      ensures orderItems == old(orderItems)[index := ChangeItem(catalog, old(orderItems)[index], change)]
      ensures customerInfo == old(customerInfo) && error == old(error)
      ensures showSuccess == old(showSuccess) && isSubmitting == old(isSubmitting)
    {
      var newItems := orderItems;
      var item := newItems[index];
      match change {
        case SetDesign(d) =>
          item := item.(design := d);
          item := item.(pricePerUnit := PriceOrFallback(catalog, d));
        case SetSize(s) => item := item.(size := s);
        case SetQuantity(q) => item := item.(quantity := q);
        case SetPrice(p) => item := item.(pricePerUnit := p);
      }
      newItems := newItems[index := item];
      orderItems := newItems;
    }

    /** `addItem`: appends the default line. */
    method AddItem()
      modifies this
      ensures orderItems == old(orderItems) + [DefaultItem(catalog)]
      ensures customerInfo == old(customerInfo) && error == old(error)
      ensures showSuccess == old(showSuccess) && isSubmitting == old(isSubmitting)
    {
      orderItems := orderItems + [DefaultItem(catalog)];
    }

    /** `removeItem`: removes the indexed line unless it is the only one. */
    method RemoveItem(index: int)
      modifies this
      ensures |old(orderItems)| > 1 ==> orderItems == RemoveAt(old(orderItems), index)
      ensures |old(orderItems)| <= 1 ==> orderItems == old(orderItems)
      ensures customerInfo == old(customerInfo) && error == old(error)
      ensures showSuccess == old(showSuccess) && isSubmitting == old(isSubmitting)
    {
      if |orderItems| > 1 {
        orderItems := RemoveAt(orderItems, index);
      }
    }

    /** `handleCustomerInfoChange`: one customer field changes. */
    method HandleCustomerInfoChange(change: CustomerChange)
      modifies this
      ensures customerInfo == ChangeCustomer(old(customerInfo), change)
      ensures orderItems == old(orderItems) && error == old(error)
      ensures showSuccess == old(showSuccess) && isSubmitting == old(isSubmitting)
    {
      customerInfo := ChangeCustomer(customerInfo, change);
    }

    /**
     * `handleSubmit`: nothing is sent when a check fails and its message is
     * shown; otherwise the request is sent, and the reply decides between a
     * reset form with the success dialog and an error message with the form
     * kept as it was.
     */
    method HandleSubmit(responseOk: bool, responseError: Option<string>) returns (sent: Option<Submission>)
      modifies this
      ensures var invalid := ValidateForm(old(orderItems), old(customerInfo));
        (invalid.Some? ==> (sent.None? && error == invalid && orderItems == old(orderItems) &&
                            customerInfo == old(customerInfo) && showSuccess == old(showSuccess))) &&
        (invalid.None? ==> sent == Some(Submission(old(customerInfo).name, old(customerInfo).address, old(customerInfo).isPickup,
                                                   ItemsForSubmission(catalog, old(orderItems)), TotalPrice(catalog, old(orderItems)))))
      ensures sent.Some? && responseOk ==>
        showSuccess && error.None? && orderItems == [DefaultItem(catalog)] && customerInfo == BlankCustomer()
      ensures sent.Some? && !responseOk ==>
        error == Some(if responseError.Some? && responseError.value != "" then responseError.value else SUBMIT_FAILED) &&
        orderItems == old(orderItems) && customerInfo == old(customerInfo) && showSuccess == old(showSuccess)
      ensures !isSubmitting
    {
      error := None;
      var invalid := ValidateForm(orderItems, customerInfo);
      if invalid.Some? {
        error := invalid;
        isSubmitting := false;
        return None;
      }
      isSubmitting := true;
      var submission := Submission(customerInfo.name, customerInfo.address, customerInfo.isPickup,
                                   ItemsForSubmission(catalog, orderItems), TotalPrice(catalog, orderItems));
      sent := Some(submission);
      if !responseOk {
        error := Some(if responseError.Some? && responseError.value != "" then responseError.value else SUBMIT_FAILED);
      } else {
        showSuccess := true;
        orderItems := [DefaultItem(catalog)];
        customerInfo := BlankCustomer();
      }
      isSubmitting := false;
    }
  }

  /** The form never holds fewer than one line: adding grows it, removing stops at one. */
  lemma AtLeastOneLine(items: seq<OrderItem>, index: int)
    requires |items| >= 1
    ensures |items| > 1 ==> |RemoveAt(items, index)| >= 1
    ensures |items| > 1 && 0 <= index < |items| ==> |RemoveAt(items, index)| == |items| - 1
  {
  }
}
