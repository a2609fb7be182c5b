/** The checkout dialog (CheckoutModal.jsx): a three-step form (1 details,
    2 review, 3 success) with required-field validation, the phone
    normaliser applied to the submitted order, and the order payload the
    back end receives. */
module Checkout {
  import opened Util
  import opened Text
  import opened Language
  import opened Shapes
  import Orders
  import OrderCreation
  import Catalog

  /** The fields of `orderData`. */
  datatype Field =
    | CustomerName | CustomerEmail | CustomerPhone | AddressLine1 | AddressLine2
    | City | State | PostalCode | Country | Notes

  /** The JSON key each field is sent under. */
  function Key(f: Field): string {
    match f
    case CustomerName => "customer_name"
    case CustomerEmail => "customer_email"
    case CustomerPhone => "customer_phone"
    case AddressLine1 => "address_line_1"
    case AddressLine2 => "address_line_2"
    case City => "city"
    case State => "state"
    case PostalCode => "postal_code"
    case Country => "country"
    case Notes => "notes"
  }

  /** The form `orderData`, one text per field. */
  datatype Form = Form(
    customerName: string, customerEmail: string, customerPhone: string,
    addressLine1: string, addressLine2: string, city: string, state: string,
    postalCode: string, country: string, notes: string)

  /** `orderData[field]`. */
  function Get(d: Form, f: Field): string {
    match f
    case CustomerName => d.customerName
    case CustomerEmail => d.customerEmail
    case CustomerPhone => d.customerPhone
    case AddressLine1 => d.addressLine1
    case AddressLine2 => d.addressLine2
    case City => d.city
    case State => d.state
    case PostalCode => d.postalCode
    case Country => d.country
    case Notes => d.notes
  }

  /** `{...orderData, [field]: value}`. */
  function With(d: Form, f: Field, value: string): Form {
    match f
    case CustomerName => d.(customerName := value)
    case CustomerEmail => d.(customerEmail := value)
    case CustomerPhone => d.(customerPhone := value)
    case AddressLine1 => d.(addressLine1 := value)
    case AddressLine2 => d.(addressLine2 := value)
    case City => d.(city := value)
    case State => d.(state := value)
    case PostalCode => d.(postalCode := value)
    case Country => d.(country := value)
    case Notes => d.(notes := value)
  }

  /** Setting a field changes that field and no other. */
  lemma WithSpec(d: Form, f: Field, value: string, g: Field)
    ensures Get(With(d, f, value), g) == if g == f then value else Get(d, g)
  {
  }

  /** The fields `validateForm` checks. */
  const RequiredFields: set<Field> := {CustomerName, CustomerPhone, AddressLine1, City, State, PostalCode, Country}

  /** The fields left unchecked: email, the second address line and the notes. */
  predicate Optional(f: Field) {
    f == CustomerEmail || f == AddressLine2 || f == Notes
  }

  /** The translation key of the message shown for a blank required field. */
  function MessageKey(f: Field): string
    requires f in RequiredFields
  {
    if f == CustomerName then "name_required_error"
    else if f == CustomerPhone then "phone_required_error"
    else if f == AddressLine1 then "address_required_error"
    else if f == City then "city_required_error"
    else if f == State then "state_required_error"
    else if f == PostalCode then "postal_code_required_error"
    else "country_required_error"
  }

  /** The form as it opens and as `handleClose` resets it. */
  function InitialForm(): Form {
    Form("", "", "", "", "", "", "", "", "Tunisia", "")
  }

  /** One check: a blank field gets its translated message. */
  function Check(errs: map<Field, string>, data: Form, table: map<string, string>, f: Field): map<Field, string>
    requires f in RequiredFields
  {
    if IsBlank(Get(data, f)) then errs[f := T(table, MessageKey(f))] else errs
  }

  /** The errors `validateForm` reports for the form `data`: the required
      fields checked one after the other, starting from no errors. */
  function ValidationErrors(data: Form, table: map<string, string>): map<Field, string> {
    Check(Check(Check(Check(Check(Check(Check(map[],
      data, table, CustomerName), data, table, CustomerPhone), data, table, AddressLine1),
      data, table, City), data, table, State), data, table, PostalCode), data, table, Country)
  }


  /** One check adds an entry for `f` exactly when `f` is blank, and keeps the others. */
  lemma CheckAt(errs: map<Field, string>, data: Form, table: map<string, string>, f: Field, g: Field)
    requires f in RequiredFields
    ensures g in Check(errs, data, table, f) <==> g in errs || (g == f && IsBlank(Get(data, f)))
    ensures g in Check(errs, data, table, f) ==>
      Check(errs, data, table, f)[g] == if g == f && IsBlank(Get(data, f)) then T(table, MessageKey(f)) else errs[g]
  {
  }

  /** The entry `ValidationErrors` holds for one field. */
  lemma ValidationAt(data: Form, table: map<string, string>, f: Field)
    ensures f in ValidationErrors(data, table) <==> f in RequiredFields && IsBlank(Get(data, f))
    ensures f in ValidationErrors(data, table) ==> ValidationErrors(data, table)[f] == T(table, MessageKey(f))
  {
    var e0: map<Field, string> := map[];
    var e1 := Check(e0, data, table, CustomerName);
    CheckAt(e0, data, table, CustomerName, f);
    var e2 := Check(e1, data, table, CustomerPhone);
    CheckAt(e1, data, table, CustomerPhone, f);
    var e3 := Check(e2, data, table, AddressLine1);
    CheckAt(e2, data, table, AddressLine1, f);
    var e4 := Check(e3, data, table, City);
    CheckAt(e3, data, table, City, f);
    var e5 := Check(e4, data, table, State);
    CheckAt(e4, data, table, State, f);
    var e6 := Check(e5, data, table, PostalCode);
    CheckAt(e5, data, table, PostalCode, f);
    var e7 := Check(e6, data, table, Country);
    CheckAt(e6, data, table, Country, f);
    assert e7 == ValidationErrors(data, table);
  }

  /** Every field's entry at once. */
  lemma ValidationPointwise(data: Form, table: map<string, string>)
    ensures forall f :: f in ValidationErrors(data, table) <==> f in RequiredFields && IsBlank(Get(data, f))
    ensures forall f :: f in ValidationErrors(data, table) ==> ValidationErrors(data, table)[f] == T(table, MessageKey(f))
  {
    forall f
      ensures f in ValidationErrors(data, table) <==> f in RequiredFields && IsBlank(Get(data, f))
      ensures f in ValidationErrors(data, table) ==> ValidationErrors(data, table)[f] == T(table, MessageKey(f))
    {
      ValidationAt(data, table, f);
    }
  }

  /** An error map keyed by the blank required fields is empty exactly when none is blank. */
  lemma NoErrorsIff(e: map<Field, string>, data: Form)
    requires forall f :: f in e <==> f in RequiredFields && IsBlank(Get(data, f))
    ensures e == map[] <==> forall f :: f in RequiredFields ==> !IsBlank(Get(data, f))
  {
    if forall f :: f in RequiredFields ==> !IsBlank(Get(data, f)) {
      assert e.Keys == {};
    }
  }

  /** Validation succeeds exactly when none of the seven required fields is
      blank after trimming; each blank required field gets its own message,
      and email, second address line and notes never get one. */
  lemma ValidationSpec(data: Form, table: map<string, string>)
    ensures ValidationErrors(data, table) == map[] <==> forall f :: f in RequiredFields ==> !IsBlank(Get(data, f))
    ensures forall f :: f in ValidationErrors(data, table) <==> f in RequiredFields && IsBlank(Get(data, f))
    ensures forall f :: f in ValidationErrors(data, table) ==> ValidationErrors(data, table)[f] == T(table, MessageKey(f))
    ensures forall f :: Optional(f) ==> f !in ValidationErrors(data, table)
  {
    ValidationPointwise(data, table);
    NoErrorsIff(ValidationErrors(data, table), data);
  }

  /** A key missing from the translation table is shown as such: the table
      has no `country_required_error`, so a blank country shows that key. */
  lemma UntranslatedMessageShowsKey(data: Form, table: map<string, string>)
    requires IsBlank(data.country) && "country_required_error" !in table
    ensures Country in ValidationErrors(data, table)
    ensures ValidationErrors(data, table)[Country] == "country_required_error"
  {
    ValidationAt(data, table, Country);
  }

  /** `item.variant.price * item.quantity`. */
  function LineTotal(l: Line): int {
    l.variant.price * l.quantity
  }

  /** `cartItems.reduce((total, item) => total + ..., acc)`: the fold from the left. */
  function ReduceTotal(lines: seq<Line>, acc: int): int
    decreases |lines|
  {
    if lines == [] then acc else ReduceTotal(lines[1..], acc + LineTotal(lines[0]))
  }

  /** `calculateTotal`. */
  function CalculateTotal(lines: seq<Line>): int {
    ReduceTotal(lines, 0)
  }

  /** Σ price × quantity over the lines. */
  function SumLineTotals(lines: seq<Line>): int
    decreases |lines|
  {
    if lines == [] then 0 else LineTotal(lines[0]) + SumLineTotals(lines[1..])
  }

  lemma {:induction false} ReduceTotalIsSum(lines: seq<Line>, acc: int)
    ensures ReduceTotal(lines, acc) == acc + SumLineTotals(lines)
    decreases |lines|
  {
    if lines != [] { ReduceTotalIsSum(lines[1..], acc + LineTotal(lines[0])); }
  }

  /** The checkout total is Σ `variant.price * quantity`, 0 for no lines,
      and adding a line adds its amount. */
  lemma CalculateTotalSpec(lines: seq<Line>, l: Line)
    ensures CalculateTotal(lines) == SumLineTotals(lines)
    ensures CalculateTotal([]) == 0
    ensures CalculateTotal(lines + [l]) == CalculateTotal(lines) + LineTotal(l)
  {
    ReduceTotalIsSum(lines, 0);
    ReduceTotalIsSum(lines + [l], 0);
    SumLineTotalsAppend(lines, [l]);
  }

  lemma {:induction false} SumLineTotalsAppend(a: seq<Line>, b: seq<Line>)
    ensures SumLineTotals(a + b) == SumLineTotals(a) + SumLineTotals(b)
    decreases |a|
  {
    if a != [] {
      assert (a + b)[1..] == a[1..] + b;
      SumLineTotalsAppend(a[1..], b);
    } else {
      assert a + b == b;
    }
  }

  /** `s.replace(/(?!^)[^0-9]/g, '')`: the first character stays whatever it
      is, and every later character that is not an ASCII digit goes. */
  function FirstThenDigits(s: string): string {
    if s == "" then "" else [s[0]] + DigitsOf(s[1..])
  }

  /** What `normalizePhone` returns for the trimmed input `t`, by cases: a
      leading `+` is kept by the replace and prepended once more; otherwise
      eight digits become a `+216` number; otherwise the replace's result. */
  function NormalizedTrimmed(t: string): string {
    if StartsWith(t, "+") then "+" + FirstThenDigits(t)
    else if |DigitsOf(t)| == 8 then "+216" + DigitsOf(t)
    else FirstThenDigits(t)
  }

  /** What `normalizePhone(input)` returns. */
  function NormalizedPhone(input: Option<string>): string {
    NormalizedTrimmed(Trim(input.GetOr("")))
  }

  /** The replace, as the regular-expression engine scans the text. */
  method StripLaterNonDigits(s: string) returns (r: string)
    ensures r == FirstThenDigits(s)
  {
    if s == "" {
      return "";
    }
    r := [s[0]];
    var i := 1;
    while i < |s|
      invariant 1 <= i <= |s|
      invariant r == [s[0]] + DigitsOf(s[1..i])
    {
      DigitsOfAppend(s[1..i], [s[i]]);
      assert s[1..i + 1] == s[1..i] + [s[i]];
      if IsDigit(s[i]) {
        r := r + [s[i]];
      }
      i := i + 1;
    }
    assert s[1..i] == s[1..];
  }

  /** Without a leading `+`, the replace's result has the digits of `t` and
      does not start with `+` either. */
  lemma FirstThenDigitsSpec(t: string)
    requires !StartsWith(t, "+")
    ensures DigitsOf(FirstThenDigits(t)) == DigitsOf(t)
    ensures !StartsWith(FirstThenDigits(t), "+")
  {
    if t != "" {
      DigitsOfAppend([t[0]], DigitsOf(t[1..]));
      DigitsOfAllDigits(DigitsOf(t[1..]));
      assert t == [t[0]] + t[1..];
      DigitsOfAppend([t[0]], t[1..]);
      assert FirstThenDigits(t)[0] == t[0];
    }
  }

  /** The handler's two reassignments after the replace, as one function of `t`. */
  lemma NormalizeStepsSpec(t: string, stripped: string)
    requires stripped == FirstThenDigits(t)
    ensures var n := if StartsWith(t, "+") then "+" + stripped else stripped;
      (if !StartsWith(n, "+") && |DigitsOf(n)| == 8 then "+216" + DigitsOf(n) else n) == NormalizedTrimmed(t)
  {
    if !StartsWith(t, "+") {
      FirstThenDigitsSpec(t);
    }
  }

  /** `normalizePhone`, step by step as the handler reassigns `normalized`. */
  method NormalizePhone(input: Option<string>) returns (normalized: string)
    ensures normalized == NormalizedPhone(input)
  {
    var trimmed := Trim(input.GetOr(""));
    normalized := StripLaterNonDigits(trimmed);
    NormalizeStepsSpec(trimmed, normalized);
    if StartsWith(trimmed, "+") {
      normalized := "+" + normalized;
    }
    var digitsOnly := DigitsOf(normalized);
    if !StartsWith(normalized, "+") && |digitsOnly| == 8 {
      normalized := "+216" + digitsOnly;
    }
  }

  /** No number, or only whitespace, normalises to the empty string. */
  lemma NormalizeBlank(input: Option<string>)
    requires input.None? || IsBlank(input.value)
    ensures NormalizedPhone(input) == ""
  {
  }

  /** A number typed with its `+` comes out with two, which the back end's
      phone validator always refuses. */
  lemma NormalizePlusDoubles(input: Option<string>)
    requires StartsWith(Trim(input.GetOr("")), "+")
    ensures StartsWith(NormalizedPhone(input), "++")
    ensures !Orders.PhoneRegexMatches(NormalizedPhone(input))
    ensures !Orders.PhoneFieldValid(NormalizedPhone(input))
  {
    var r := NormalizedPhone(input);
    assert r[0] == '+' && r[1] == '+';
    Orders.DoublePlusRejected(r);
  }

  /** Without a leading `+`, the first character stays and only digits follow,
      unless the text holds exactly eight digits. */
  lemma NormalizeKeepsFirst(input: Option<string>)
    requires var t := Trim(input.GetOr("")); t != "" && t[0] != '+' && |DigitsOf(t)| != 8
    ensures var t := Trim(input.GetOr(""));
      var r := NormalizedPhone(input);
      r != "" && r[0] == t[0] && forall i :: 1 <= i < |r| ==> IsDigit(r[i])
  {
  }

  /** A local number with eight digits, however spaced or punctuated, gets
      the `+216` prefix and the result passes the back end's validator. */
  lemma NormalizeLocalNumber(input: Option<string>)
    requires var t := Trim(input.GetOr("")); !StartsWith(t, "+") && |DigitsOf(t)| == 8
    ensures NormalizedPhone(input) == "+216" + DigitsOf(Trim(input.GetOr("")))
    ensures Orders.PhoneFieldValid(NormalizedPhone(input))
  {
    var d := DigitsOf(Trim(input.GetOr("")));
    var r := NormalizedPhone(input);
    assert r == "+" + ("216" + d);
    Orders.DigitsAccepted(r, "216" + d);
  }

  /** The order the handler sends: the form with the normalised phone, and
      one `{product_variant_id, quantity}` entry per line. */
  datatype Payload = Payload(fields: Form, orderItems: seq<OrderCreation.ItemRequest>)

  /** `cartItems.map(item => ({product_variant_id: item.variant.id, quantity: item.quantity}))`;
      a variant without an id drops the key, as `JSON.stringify` does with `undefined`. */
  function ItemRequests(lines: seq<Line>): (r: seq<OrderCreation.ItemRequest>)
    ensures |r| == |lines|
    ensures forall i :: 0 <= i < |lines| ==>
      r[i].variantId == lines[i].variant.id && r[i].quantity == Some(lines[i].quantity)
  {
    seq(|lines|, i requires 0 <= i < |lines| => OrderCreation.ItemRequest(lines[i].variant.id, Some(lines[i].quantity)))
  }

  /** The order input the back end validates from a payload: every field is
      present, so no model default applies, and no status is sent. */
  function PayloadInput(p: Payload): OrderCreation.OrderInput {
    var d := p.fields;
    OrderCreation.OrderInput(
      d.customerName, Some(d.customerEmail), d.customerPhone, d.addressLine1, Some(d.addressLine2),
      d.city, d.state, d.postalCode, Some(d.country), None, Some(d.notes))
  }

  /** The saved order keeps the client's country (`Tunisia` unless edited)
      rather than the model's `Pakistan`, and starts pending. */
  lemma SubmittedOrderFields(p: Payload, pk: nat, orderUuid: string, total: int)
    ensures OrderCreation.NewOrder(pk, orderUuid, PayloadInput(p), total).country == p.fields.country
    ensures OrderCreation.NewOrder(pk, orderUuid, PayloadInput(p), total).status == Orders.DefaultStatus
    ensures OrderCreation.NewOrder(pk, orderUuid, PayloadInput(p), total).customerPhone == p.fields.customerPhone
  {
  }

  /** A first line whose variant has no id is refused by the back end with
      the `KeyError` for `product_variant_id`. */
  lemma LineWithoutVariantIdRefused(products: map<nat, Catalog.Product>, pk: nat, l0: OrderCreation.Ledger, lines: seq<Line>)
    requires OrderCreation.Linked(products, l0.variants)
    requires lines != [] && lines[0].variant.id.None?
    ensures OrderCreation.Run(products, pk, l0, ItemRequests(lines))
      == OrderCreation.Failed(OrderCreation.MissingKey("product_variant_id"), l0)
  {
    var reqs := ItemRequests(lines);
    assert reqs[..1][..0] == [];
    assert OrderCreation.Run(products, pk, l0, reqs[..1]) == OrderCreation.Step(products, pk, l0, reqs[0]);
    OrderCreation.RunStaysFailed(products, pk, l0, reqs, 1);
  }

  /** One `if (!orderData[field].trim())` of `validateForm`. */
  method CheckField(errors: map<Field, string>, data: Form, table: map<string, string>, f: Field)
    returns (newErrors: map<Field, string>)
    requires f in RequiredFields
    ensures newErrors == Check(errors, data, table, f)
  {
    newErrors := errors;
    if IsBlank(Get(data, f)) {
      newErrors := newErrors[f := T(table, MessageKey(f))];
    }
  }

  /** The seven checks of `validateForm`, in its order, into a fresh error map. */
  method CollectErrors(data: Form, table: map<string, string>) returns (newErrors: map<Field, string>)
    ensures newErrors == ValidationErrors(data, table)
  {
    newErrors := map[];
    newErrors := CheckField(newErrors, data, table, CustomerName);
    newErrors := CheckField(newErrors, data, table, CustomerPhone);
    newErrors := CheckField(newErrors, data, table, AddressLine1);
    newErrors := CheckField(newErrors, data, table, City);
    newErrors := CheckField(newErrors, data, table, State);
    newErrors := CheckField(newErrors, data, table, PostalCode);
    newErrors := CheckField(newErrors, data, table, Country);
  }


  /** What the order-creation call returns and the success step shows (`createdOrder.order_id`). */
  datatype CreatedOrder = CreatedOrder(orderId: string)

  /** The parent's callbacks, in the order the dialog calls them. */
  datatype Callback = OrderComplete | Close

  class CheckoutModal {
    var step: int
    var loading: bool
    var orderData: Form
    var createdOrder: Option<CreatedOrder>
    var errors: map<Field, string>
    /** The translation table of the current language. */
    const table: map<string, string>

    /** The step is 1, 2 or 3. */
    predicate Valid()
      reads this
    {
      1 <= step <= 3
    }

    constructor (table: map<string, string>)
      ensures Valid()
      ensures step == 1 && !loading && orderData == InitialForm() && createdOrder.None? && errors == map[]
      ensures this.table == table
    {
      this.table := table;
      step := 1;
      loading := false;
      orderData := InitialForm();
      createdOrder := None;
      errors := map[];
    }

    /** `validateForm`: a fresh error map, one entry per blank required field. */
    method ValidateForm() returns (ok: bool)
      requires Valid()
      modifies this
      ensures Valid()
      ensures errors == ValidationErrors(orderData, table) && ok == (errors == map[])
      ensures step == old(step) && loading == old(loading) && orderData == old(orderData)
      ensures createdOrder == old(createdOrder)
    {
      var newErrors := CollectErrors(orderData, table);
      errors := newErrors;
      ok := |newErrors| == 0;
    }

    /** `handleInputChange(field, value)`: the field takes the value, and an
        error shown for that field is blanked. */
    method HandleInputChange(f: Field, value: string)
      requires Valid()
      modifies this
      ensures Valid()
      ensures orderData == With(old(orderData), f, value)
      ensures errors == if f in old(errors) && old(errors)[f] != "" then old(errors)[f := ""] else old(errors)
      ensures step == old(step) && loading == old(loading) && createdOrder == old(createdOrder)
    {
      orderData := With(orderData, f, value);
      if f in errors && errors[f] != "" {
        errors := errors[f := ""];
      }
    }

    /** `handleNext`: from the details step, on to the review when the form
        validates; nothing happens at the other steps. */
    method HandleNext()
      requires Valid()
      modifies this
      ensures Valid()
      ensures old(step) == 1 ==>
        errors == ValidationErrors(old(orderData), table)
        && step == (if errors == map[] then 2 else 1)
      ensures old(step) != 1 ==> step == old(step) && errors == old(errors)
      ensures orderData == old(orderData) && loading == old(loading) && createdOrder == old(createdOrder)
    {
      if step == 1 {
        var ok := ValidateForm();
        if ok {
          step := 2;
        }
      }
    }

    /** The review step's Back button. */
    method Back()
      requires Valid()
      modifies this
      ensures Valid()
      ensures step == 1
      ensures orderData == old(orderData) && errors == old(errors) && createdOrder == old(createdOrder)
      ensures loading == old(loading)
    {
      step := 1;
    }

    /** `handleSubmitOrder` once the request has settled with `response`:
        on success the created order is kept, the success step shows and
        the cart is cleared; on failure the step stays and an alert shows
        the error's message, or the translated fallback when it has none. */
    method HandleSubmitOrder(lines: seq<Line>, response: ApiResult<CreatedOrder>, cart: CartStore)
      returns (payload: Payload, alert: Option<string>)
      requires Valid()
      modifies this, cart
      ensures Valid()
      ensures payload.fields == old(orderData).(customerPhone := NormalizedPhone(Some(old(orderData).customerPhone)))
      ensures payload.orderItems == ItemRequests(lines)
      ensures response.Success? ==>
        createdOrder == Some(response.body) && step == 3 && alert.None?
        && cart.calls == old(cart.calls) + [ClearCart]
      ensures response.Failure? ==>
        createdOrder == old(createdOrder) && step == old(step) && cart.calls == old(cart.calls)
        && alert == Some(if response.message != "" then response.message else T(table, "failed_to_create_order"))
      ensures !loading && orderData == old(orderData) && errors == old(errors)
    {
      loading := true;
      var phone := NormalizePhone(Some(orderData.customerPhone));
      payload := Payload(orderData.(customerPhone := phone), ItemRequests(lines));
      match response {
        case Success(body) =>
          createdOrder := Some(body);
          step := 3;
          cart.Dispatch(ClearCart);
          alert := None;
        case Failure(message) =>
          alert := Some(if message != "" then message else T(table, "failed_to_create_order"));
      }
      loading := false;
    }

    /** `handleClose`: everything back to the initial form, then
        `onOrderComplete` (when given) and `onClose`. */
    method HandleClose(hasOrderComplete: bool) returns (callbacks: seq<Callback>)
      requires Valid()
      modifies this
      ensures Valid()
      ensures step == 1 && orderData == InitialForm() && errors == map[] && createdOrder.None?
      ensures loading == old(loading)
      ensures callbacks == (if hasOrderComplete then [OrderComplete, Close] else [Close])
    {
      step := 1;
      orderData := InitialForm();
      errors := map[];
      createdOrder := None;
      callbacks := if hasOrderComplete then [OrderComplete, Close] else [Close];
    }

    /** A click on the backdrop or the header's close button: both close the
        dialog except on the success step, where they do nothing. */
    method RequestClose(hasOrderComplete: bool) returns (callbacks: seq<Callback>)
      requires Valid()
      modifies this
      ensures Valid()
      ensures old(step) == 3 ==>
        callbacks == [] && step == 3 && orderData == old(orderData) && errors == old(errors)
        && createdOrder == old(createdOrder)
      ensures old(step) != 3 ==>
        step == 1 && orderData == InitialForm() && errors == map[] && createdOrder.None? && callbacks != []
      ensures loading == old(loading)
    {
      if step != 3 {
        callbacks := HandleClose(hasOrderComplete);
      } else {
        callbacks := [];
      }
    }
  }
}
