/** The order models (orders/models.py): orders, their line items, the
    derived address and totals, and the validators on the phone field.
    Amounts are integer cents. */
module Orders {
  import opened Util
  import opened Text

  /** `Order.STATUS_CHOICES`, by stored value. */
  const StatusChoices: seq<string> := ["pending", "confirmed", "processing", "shipped", "delivered", "cancelled"]
  const DefaultStatus: string := "pending"
  const DefaultCountry: string := "Pakistan"
  const PhoneMaxLength: nat := 20

  datatype Order = Order(
    id: nat, orderId: string,
    customerName: string, customerEmail: string, customerPhone: string,
    addressLine1: string, addressLine2: string, city: string, state: string,
    postalCode: string, country: string,
    status: string, totalAmount: int, notes: string)

  /** An `OrderItem` row: `orderId` is the primary key of its order. */
  datatype OrderItem = OrderItem(orderId: nat, variantId: nat, quantity: int, price: int)

  lemma DefaultStatusIsAChoice()
    ensures DefaultStatus in StatusChoices && DefaultStatus == StatusChoices[0]
  {
  }

  /** The address fields in display order. */
  function AddressParts(o: Order): seq<string> {
    [o.addressLine1, o.addressLine2, o.city, o.state, o.postalCode, o.country]
  }

  function NonEmpty(): string -> bool {
    (s: string) => s != ""
  }

  /** `Order.full_address`: the non-empty address parts joined with `", "`. */
  function FullAddress(o: Order): string {
    Join(", ", Filter(AddressParts(o), NonEmpty()))
  }

  /** Joining non-empty parts gives the empty string only when there are no parts. */
  lemma {:induction false} JoinNonEmptyParts(sep: string, parts: seq<string>)
    requires forall i :: 0 <= i < |parts| ==> parts[i] != ""
    ensures Join(sep, parts) == "" <==> parts == []
    ensures parts != [] ==> StartsWith(Join(sep, parts), parts[0])
    decreases |parts|
  {
    if |parts| > 1 {
      JoinNonEmptyParts(sep, parts[1..]);
      var j := Join(sep, parts);
      assert j == parts[0] + (sep + Join(sep, parts[1..]));
      assert j[..|parts[0]|] == parts[0];
    }
  }

  /** The address is empty exactly when every part is empty, and otherwise
      begins with the first non-empty part. */
  lemma FullAddressEmpty(o: Order)
    ensures FullAddress(o) == "" <==> forall i :: 0 <= i < 6 ==> AddressParts(o)[i] == ""
    ensures o.addressLine1 != "" ==> StartsWith(FullAddress(o), o.addressLine1)
  {
    var kept := Filter(AddressParts(o), NonEmpty());
    JoinNonEmptyParts(", ", kept);
  }

  /** The parts kept when only the second address line is empty. */
  lemma KeptWithoutLine2(o: Order)
    requires o.addressLine2 == ""
    requires o.addressLine1 != "" && o.city != "" && o.state != "" && o.postalCode != "" && o.country != ""
    ensures Filter(AddressParts(o), NonEmpty()) == [o.addressLine1, o.city, o.state, o.postalCode, o.country]
  {
    var rest := [o.city, o.state, o.postalCode, o.country];
    var parts := AddressParts(o);
    assert parts == [o.addressLine1] + ([o.addressLine2] + rest) by {
      assert parts[2..] == rest;
      assert [o.addressLine2] + rest == parts[1..];
    }
    FilterDropsSecond(o.addressLine1, o.addressLine2, rest, NonEmpty());
    assert [o.addressLine1] + rest == [o.addressLine1, o.city, o.state, o.postalCode, o.country];
  }

  /** An empty part leaves no doubled separator: a missing second address
      line is skipped. */
  lemma FullAddressSkipsEmptyLine(o: Order)
    requires o.addressLine2 == ""
    requires o.addressLine1 != "" && o.city != "" && o.state != "" && o.postalCode != "" && o.country != ""
    ensures FullAddress(o) == Join(", ", [o.addressLine1, o.city, o.state, o.postalCode, o.country])
  {
    KeptWithoutLine2(o);
  }

  lemma FilterDropsSecond<T>(x: T, y: T, rest: seq<T>, p: T -> bool)
    requires p(x) && !p(y) && forall i :: 0 <= i < |rest| ==> p(rest[i])
    ensures Filter([x] + ([y] + rest), p) == [x] + rest
  {
    FilterAll(rest, p);
    FilterCons(y, rest, p);
    FilterCons(x, [y] + rest, p);
  }

  /** With every part present nothing is dropped. */
  lemma FullAddressAllParts(o: Order)
    requires forall i :: 0 <= i < 6 ==> AddressParts(o)[i] != ""
    ensures FullAddress(o) == Join(", ", AddressParts(o))
  {
    FilterAll(AddressParts(o), NonEmpty());
  }

  /** Σ quantity over a list of items. */
  function SumQuantities(items: seq<OrderItem>): int
    decreases |items|
  {
    if items == [] then 0 else items[0].quantity + SumQuantities(items[1..])
  }

  lemma {:induction false} SumQuantitiesAppend(a: seq<OrderItem>, b: seq<OrderItem>)
    ensures SumQuantities(a + b) == SumQuantities(a) + SumQuantities(b)
    decreases |a|
  {
    if a != [] {
      assert (a + b)[1..] == a[1..] + b;
      SumQuantitiesAppend(a[1..], b);
    } else {
      assert a + b == b;
    }
  }

  function ItemOf(orderPk: nat): OrderItem -> bool {
    (it: OrderItem) => it.orderId == orderPk
  }

  /** `Order.total_items`: Σ quantity over the items whose order is `o`. */
  function TotalItems(o: Order, items: seq<OrderItem>): int {
    SumQuantities(Filter(items, ItemOf(o.id)))
  }

  /** Adding an item row to the order raises `total_items` by its quantity,
      and a row of another order leaves it unchanged. */
  lemma {:induction false} TotalItemsAdd(o: Order, items: seq<OrderItem>, it: OrderItem)
    ensures TotalItems(o, items + [it]) == TotalItems(o, items) + (if it.orderId == o.id then it.quantity else 0)
  {
    FilterAppend(items, [it], ItemOf(o.id));
    SumQuantitiesAppend(Filter(items, ItemOf(o.id)), Filter([it], ItemOf(o.id)));
    assert Filter([it], ItemOf(o.id)) == (if it.orderId == o.id then [it] else []);
  }

  /** `OrderItem.total_price`. */
  function ItemTotal(it: OrderItem): int {
    it.price * it.quantity
  }

  /** Σ `total_price` over a list of items. */
  function SumItemTotals(items: seq<OrderItem>): int
    decreases |items|
  {
    if items == [] then 0 else ItemTotal(items[0]) + SumItemTotals(items[1..])
  }

  lemma {:induction false} SumItemTotalsAppend(a: seq<OrderItem>, b: seq<OrderItem>)
    ensures SumItemTotals(a + b) == SumItemTotals(a) + SumItemTotals(b)
    decreases |a|
  {
    if a != [] {
      assert (a + b)[1..] == a[1..] + b;
      SumItemTotalsAppend(a[1..], b);
    } else {
      assert a + b == b;
    }
  }

  /** Items priced and counted non-negatively have a non-negative total. */
  lemma {:induction false} SumItemTotalsNonNegative(items: seq<OrderItem>)
    requires forall i :: 0 <= i < |items| ==> items[i].price >= 0 && items[i].quantity >= 0
    ensures SumItemTotals(items) >= 0
    decreases |items|
  {
    if items != [] { SumItemTotalsNonNegative(items[1..]); }
  }

  /** The key of `unique_together = ['order', 'product_variant']`. */
  function ItemKey(it: OrderItem): (nat, nat) {
    (it.orderId, it.variantId)
  }

  /** Python's `\s` on text: the characters `str.isspace` accepts. */
  predicate IsPyWhitespace(c: char) {
    || ('\t' <= c <= '\r') || ('\U{001C}' <= c <= '\U{001F}') || c == ' '
    || c == '\U{0085}' || c == '\U{00A0}' || c == '\U{1680}'
    || ('\U{2000}' <= c <= '\U{200A}')
    || c == '\U{2028}' || c == '\U{2029}' || c == '\U{202F}' || c == '\U{205F}' || c == '\U{3000}'
  }

  /** The character class `[\d\s\-\(\)]`, with `\d` read as an ASCII digit. */
  predicate InPhoneClass(c: char) {
    IsDigit(c) || IsPyWhitespace(c) || c == '-' || c == '(' || c == ')'
  }

  predicate AllInPhoneClass(s: string) {
    forall i :: 0 <= i < |s| ==> InPhoneClass(s[i])
  }

  /** Python's `$` without MULTILINE: the end of the text, or just before a
      newline that ends it. */
  predicate AtEnd(rest: string) {
    rest == "" || rest == "\n"
  }

  /** `[\d\s\-\(\)]{7,20}$` at the start of `t`. */
  predicate ClassRunToEnd(t: string) {
    exists n :: 7 <= n <= 20 && n <= |t| && AllInPhoneClass(t[..n]) && AtEnd(t[n..])
  }

  /** `re.search(r'^\+?[\d\s\-\(\)]{7,20}$', s)` succeeds: the optional `+`
      is either taken or skipped. */
  predicate PhoneRegexMatches(s: string) {
    (s != [] && s[0] == '+' && ClassRunToEnd(s[1..])) || ClassRunToEnd(s)
  }

  /** The `customer_phone` field accepts `s`: `max_length=20` and the regex. */
  predicate PhoneFieldValid(s: string) {
    |s| <= PhoneMaxLength && PhoneRegexMatches(s)
  }

  /** The regex, by cases: after at most one leading `+`, 7 to 20 characters
      of the class, or 21 when the last is a newline. */
  lemma ClassRunToEndIff(t: string)
    ensures ClassRunToEnd(t) <==>
      AllInPhoneClass(t) && (7 <= |t| <= 20 || (|t| == 21 && t[20] == '\n'))
  {
    if AllInPhoneClass(t) && (7 <= |t| <= 20 || (|t| == 21 && t[20] == '\n')) {
      var n := if |t| <= 20 then |t| else 20;
      assert t[..n] == t[..n] && AtEnd(t[n..]);
    }
    if ClassRunToEnd(t) {
      var n :| 7 <= n <= 20 && n <= |t| && AllInPhoneClass(t[..n]) && AtEnd(t[n..]);
      if n < |t| {
        assert t[n..] == "\n" && |t| == n + 1;
        forall i | 0 <= i < |t| ensures InPhoneClass(t[i]) {
          if i < n { assert t[..n][i] == t[i]; } else { assert t[i] == t[n..][0]; }
        }
      } else {
        assert t[..n] == t;
      }
    }
  }

  /** A `+` is not in the class, so a second `+` is always rejected. */
  lemma DoublePlusRejected(s: string)
    requires |s| >= 2 && s[0] == '+' && s[1] == '+'
    ensures !PhoneRegexMatches(s)
  {
    ClassRunToEndIff(s);
    ClassRunToEndIff(s[1..]);
    assert !InPhoneClass(s[0]);
    assert !InPhoneClass(s[1..][0]);
  }

  /** An optional `+` followed by 7 to 20 digits is accepted. */
  lemma DigitsAccepted(s: string, digits: string)
    requires forall i :: 0 <= i < |digits| ==> IsDigit(digits[i])
    requires 7 <= |digits| <= 20
    requires s == digits || s == "+" + digits
    ensures PhoneRegexMatches(s)
  {
    ClassRunToEndIff(digits);
    if s != digits {
      assert s[1..] == digits;
    }
  }

  /** Text longer than 20 characters never passes the field: the regex alone
      would still accept a trailing newline. */
  lemma PhoneFieldLength(s: string)
    requires PhoneFieldValid(s)
    ensures 7 <= |s| <= 20
  {
    ClassRunToEndIff(s);
    if s != [] && s[0] == '+' { ClassRunToEndIff(s[1..]); }
  }
}
