/** The pure part of the checkout wizard: the per-field validators, the
    order totals and the quantity requests of the order-summary buttons. */
module CheckoutRules {
  import opened Wrappers
  import opened Text

  // ---- field validation ----

  /** `[^\s@]`: a character that may appear in each part of an address. */
  predicate IsEmailChar(c: char)
  {
    !IsWhitespace(c) && c != '@'
  }

  /** `s[a..b]` is a non-empty run of `[^\s@]` characters. */
  predicate EmailRun(s: string, a: int, b: int)
  {
    0 <= a < b <= |s| && forall k :: a <= k < b ==> IsEmailChar(s[k])
  }

  /** `/^[^\s@]+@[^\s@]+\.[^\s@]+$/.test(s)`: three non-empty runs separated
      by an '@' and a '.'. */
  predicate IsValidEmail(s: string)
  {
    exists i, j | 0 < i < j < |s| :: EmailRun(s, 0, i) && EmailRun(s, i + 1, j) && EmailRun(s, j + 1, |s|)
                                     && s[i] == '@' && s[j] == '.'
  }

  /** The same language described by its parts: no whitespace anywhere,
      exactly one '@', not at the start, and a '.' after it that is neither
      the first nor the last character of the domain. */
  ghost predicate EmailShape(s: string)
  {
    && (forall k :: 0 <= k < |s| ==> !IsWhitespace(s[k]))
    && exists at :: 0 < at < |s| && s[at] == '@'
                    && (forall k :: 0 <= k < |s| && s[k] == '@' ==> k == at)
                    && (exists d :: at + 1 < d < |s| - 1 && s[d] == '.')
  }

  lemma EmailValidIffShape(s: string)
    ensures IsValidEmail(s) <==> EmailShape(s)
  {
    if IsValidEmail(s) {
      var i, j :| EmailRun(s, 0, i) && EmailRun(s, i + 1, j) && EmailRun(s, j + 1, |s|)
                  && s[i] == '@' && s[j] == '.';
      assert EmailRun(s, 0, i) && EmailRun(s, i + 1, j) && EmailRun(s, j + 1, |s|);
      forall k | 0 <= k < |s| ensures !IsWhitespace(s[k]) && (s[k] == '@' ==> k == i) {
        if k < i {
          assert IsEmailChar(s[k]);
        } else if i < k < j {
          assert IsEmailChar(s[k]);
        } else if j < k {
          assert IsEmailChar(s[k]);
        }
      }
      assert i + 1 < j < |s| - 1 && s[j] == '.';
    }
    if EmailShape(s) {
      var at :| 0 < at < |s| && s[at] == '@'
                && (forall k :: 0 <= k < |s| && s[k] == '@' ==> k == at)
                && (exists d :: at + 1 < d < |s| - 1 && s[d] == '.');
      var d :| at + 1 < d < |s| - 1 && s[d] == '.';
      assert forall k :: 0 <= k < |s| && k != at ==> IsEmailChar(s[k]);
      assert EmailRun(s, 0, at) && EmailRun(s, at + 1, d) && EmailRun(s, d + 1, |s|);
    }
  }

  /** `[\d\s\-\(\)]`. */
  predicate IsPhoneChar(c: char)
  {
    IsDigit(c) || IsWhitespace(c) || c == '-' || c == '(' || c == ')'
  }

  predicate AllPhoneChars(s: string)
  {
    forall i :: 0 <= i < |s| ==> IsPhoneChar(s[i])
  }

  /** `/^\+?[\d\s\-\(\)]{10,}$/.test(s)`: an optional '+' and then at least
      ten characters of the class; characters are counted, not digits. */
  predicate IsValidPhone(s: string)
  {
    var body := if s != [] && s[0] == '+' then s[1..] else s;
    |body| >= 10 && AllPhoneChars(body)
  }

  /** The two ways the pattern can match: without the '+' (then a leading
      '+' cannot match the class) or with it. */
  lemma PhoneValidIff(s: string)
    ensures IsValidPhone(s) <==>
              (|s| >= 10 && AllPhoneChars(s))
              || (|s| >= 11 && s[0] == '+' && AllPhoneChars(s[1..]))
  {
    if s != [] && s[0] == '+' {
      assert !IsPhoneChar(s[0]);
    }
  }

  /** A string of ten dashes passes the phone rule although it holds no
      digit, and a '+' followed by ten digits passes too. */
  lemma PhoneCountsCharacters()
    ensures IsValidPhone("----------")
    ensures IsValidPhone("+1234567890")
    ensures !IsValidPhone("123456789")
  {
    var dashes := "----------";
    assert forall i :: 0 <= i < |dashes| ==> dashes[i] == '-';
    var digits := "+1234567890"[1..];
    assert digits == "1234567890";
    assert forall i :: 0 <= i < |digits| ==> IsDigit(digits[i]);
    assert |"123456789"| == 9;
  }

  /** `/^\d{5}(-\d{4})?$/.test(s)`. */
  predicate IsValidZip(s: string)
  {
    || (|s| == 5 && AllDigits(s))
    || (|s| == 10 && AllDigits(s[..5]) && s[5] == '-' && AllDigits(s[6..]))
  }

  /** A valid ZIP code has five leading digits and, in its long form, four
      more after the dash; nothing else is accepted. */
  lemma ZipValidIff(s: string)
    ensures IsValidZip(s) <==>
              && |s| >= 5 && (forall i :: 0 <= i < 5 ==> IsDigit(s[i]))
              && (|s| == 5 || (|s| == 10 && s[5] == '-' && forall i :: 6 <= i < 10 ==> IsDigit(s[i])))
  {
    if |s| == 10 {
      assert forall i :: 0 <= i < 5 ==> s[..5][i] == s[i];
      assert forall i :: 6 <= i < 10 ==> s[6..][i - 6] == s[i];
    }
  }

  /** A five-digit code, a word, and a ZIP+4 code. */
  lemma ZipExamples()
    ensures IsValidZip("10001")
    ensures !IsValidZip("abc")
    ensures IsValidZip("10001-1234")
  {
    assert "10001-1234"[..5] == "10001";
    assert "10001-1234"[6..] == "1234";
  }

  /** The default rule: `value.trim().length > 0`. */
  predicate IsNonBlank(s: string)
  {
    |Trim(s)| > 0
  }

  const EmailMessage: string := "Please enter a valid email address"
  const PhoneMessage: string := "Please enter a valid phone number"
  const ZipMessage: string := "Please enter a valid ZIP code"
  const RequiredMessage: string := "This field is required"

  /** The message shown for a field whose value fails its rule. */
  function ErrorMessage(field: string): (m: string)
    ensures m != ""
    ensures m in {EmailMessage, PhoneMessage, ZipMessage, RequiredMessage}
  {
    match field
    case "email" => EmailMessage
    case "phone" => PhoneMessage
    case "zipCode" => ZipMessage
    case _ => RequiredMessage
  }

  /** The rule the validator applies to a field: the case-sensitive switch
      on the field name, with every other name falling into the default. */
  predicate FieldRule(field: string, value: string)
  {
    match field
    case "email" => IsValidEmail(value)
    case "phone" => IsValidPhone(value)
    case "zipCode" => IsValidZip(value)
    case _ => IsNonBlank(value)
  }

  datatype Validation = Validation(valid: bool, message: string)

  /** The verdict and the error text computed by `validateField`. */
  function Validate(field: string, value: string): (v: Validation)
    ensures v.valid <==> v.message == ""
    ensures !v.valid ==> v.message == ErrorMessage(field)
  {
    var ok := FieldRule(field, value);
    Validation(ok, if ok then "" else ErrorMessage(field))
  }

  /** What each field's rule means, stated without the regular expressions. */
  lemma ValidateMeaning(field: string, value: string)
    ensures field == "email" ==> (Validate(field, value).valid <==> EmailShape(value))
    ensures field == "phone" ==> (Validate(field, value).valid <==>
              (|value| >= 10 && AllPhoneChars(value))
              || (|value| >= 11 && value[0] == '+' && AllPhoneChars(value[1..])))
    ensures field == "zipCode" ==> (Validate(field, value).valid <==>
              && |value| >= 5 && (forall i :: 0 <= i < 5 ==> IsDigit(value[i]))
              && (|value| == 5 || (|value| == 10 && value[5] == '-' && forall i :: 6 <= i < 10 ==> IsDigit(value[i]))))
    ensures field !in {"email", "phone", "zipCode"} ==>
              (Validate(field, value).valid <==> exists i :: 0 <= i < |value| && !IsWhitespace(value[i]))
  {
    EmailValidIffShape(value);
    PhoneValidIff(value);
    ZipValidIff(value);
    TrimmedNonEmptyIff(value);
  }

  /** An address of the expected shape, and one with no '@'. */
  lemma EmailExamples()
    ensures Validate("email", "a@b.co").valid
    ensures !Validate("email", "not-an-email").valid
  {
    var s := "a@b.co";
    assert EmailRun(s, 0, 1) && EmailRun(s, 1 + 1, 3) && EmailRun(s, 3 + 1, |s|);
    assert s[1] == '@' && s[3] == '.';
    assert IsValidEmail(s);
    EmailValidIffShape("not-an-email");
    assert !EmailShape("not-an-email") by {
      var t := "not-an-email";
      assert forall k :: 0 <= k < |t| ==> t[k] != '@';
    }
  }

  // ---- order totals ----

  /** A cart line; prices are exact decimals, quantities JavaScript
      numbers that the buttons keep integral. */
  datatype CartItem = CartItem(id: string, name: string, price: real, quantity: int,
                               image: string, variant: Option<string>)

  datatype DeliveryOption = DeliveryOption(id: string, name: string, price: real, days: string)

  const DeliveryOptions: seq<DeliveryOption> := [
    DeliveryOption("standard", "Standard Shipping", 5.99, "5-7 business days"),
    DeliveryOption("express", "Express Shipping", 12.99, "2-3 business days"),
    DeliveryOption("overnight", "Overnight Shipping", 24.99, "Next business day")
  ]

  const TaxRate: real := 0.08

  function LineTotal(item: CartItem): real
  {
    item.price * item.quantity as real
  }

  /** `cartItems.reduce((sum, item) => sum + item.price * item.quantity, 0)`. */
  function Subtotal(items: seq<CartItem>): real
  {
    if items == [] then 0.0 else LineTotal(items[0]) + Subtotal(items[1..])
  }

  /** `options.find(opt => opt.id === id)?.price || 0`: the price of the first
      option with that id, 0 when there is none. */
  function ShippingCost(options: seq<DeliveryOption>, id: string): (r: real)
    ensures (forall k :: 0 <= k < |options| ==> options[k].id != id) ==> r == 0.0
    ensures forall k :: 0 <= k < |options| && options[k].id == id
                        && (forall j :: 0 <= j < k ==> options[j].id != id)
                        ==> r == options[k].price
  {
    if options == [] then 0.0
    else if options[0].id == id then options[0].price
    else ShippingCost(options[1..], id)
  }

  datatype Totals = Totals(subtotal: real, shipping: real, tax: real, total: real)

  /** The four derived amounts shown in the order summary. */
  function ComputeTotals(items: seq<CartItem>, deliveryOption: string): Totals
  {
    var subtotal := Subtotal(items);
    var shipping := ShippingCost(DeliveryOptions, deliveryOption);
    var tax := subtotal * TaxRate;
    Totals(subtotal, shipping, tax, subtotal + shipping + tax)
  }

  /** The price of each delivery option, and 0 for no (or an unknown)
      selection. */
  lemma DeliveryPrices(id: string)
    ensures id == "standard" ==> ShippingCost(DeliveryOptions, id) == 5.99
    ensures id == "express" ==> ShippingCost(DeliveryOptions, id) == 12.99
    ensures id == "overnight" ==> ShippingCost(DeliveryOptions, id) == 24.99
    ensures id !in {"standard", "express", "overnight"} ==> ShippingCost(DeliveryOptions, id) == 0.0
  {
  }

  lemma {:induction false} SubtotalAppend(a: seq<CartItem>, b: seq<CartItem>)
    ensures Subtotal(a + b) == Subtotal(a) + Subtotal(b)
  {
    if a == [] {
      assert a + b == b;
    } else {
      assert (a + b)[1..] == a[1..] + b;
      SubtotalAppend(a[1..], b);
    }
  }

  lemma {:induction false} SubtotalNonNegative(items: seq<CartItem>)
    requires forall i :: 0 <= i < |items| ==> items[i].price >= 0.0 && items[i].quantity >= 0
    ensures Subtotal(items) >= 0.0
  {
    if items != [] {
      SubtotalNonNegative(items[1..]);
    }
  }

  /** The invariants of the order summary: the total is the sum of its
      parts, tax is 8% of the subtotal, an empty cart costs only shipping,
      and nothing is negative when no price or quantity is. */
  lemma TotalsProperties(items: seq<CartItem>, deliveryOption: string)
    ensures var t := ComputeTotals(items, deliveryOption);
            && t.subtotal == Subtotal(items)
            && t.total == t.subtotal + t.shipping + t.tax
            && t.tax == 0.08 * t.subtotal
            && t.total == 1.08 * Subtotal(items) + ShippingCost(DeliveryOptions, deliveryOption)
            && (items == [] ==> t.subtotal == 0.0 && t.total == t.shipping)
    ensures (forall i :: 0 <= i < |items| ==> items[i].price >= 0.0 && items[i].quantity >= 0)
            ==> var t := ComputeTotals(items, deliveryOption);
                t.subtotal >= 0.0 && t.shipping >= 0.0 && t.tax >= 0.0 && t.total >= 0.0
  {
    if forall i :: 0 <= i < |items| ==> items[i].price >= 0.0 && items[i].quantity >= 0 {
      SubtotalNonNegative(items);
    }
  }

  // ---- quantity buttons of the order summary ----

  /** The quantity the minus button requests: `Math.max(1, quantity - 1)`. */
  function DecrementedQuantity(quantity: int): (r: int)
    ensures r >= 1 && r >= quantity - 1
    ensures r == 1 || r == quantity - 1
  {
    if quantity - 1 > 1 then quantity - 1 else 1
  }

  /** The quantity the plus button requests: one more, never below 1 for
      a quantity the cart can hold, and undone by the minus button. */
  function IncrementedQuantity(quantity: int): (r: int)
    ensures r > quantity
    ensures quantity >= 0 ==> r >= 1
    ensures quantity >= 1 ==> DecrementedQuantity(r) == quantity
  {
    quantity + 1
  }

  /** Minus undoes plus, plus undoes minus above the floor, and minus
      stops at 1. */
  lemma QuantityButtons(q: int)
    ensures q >= 1 ==> DecrementedQuantity(IncrementedQuantity(q)) == q
    ensures q >= 2 ==> IncrementedQuantity(DecrementedQuantity(q)) == q
    ensures q <= 2 ==> DecrementedQuantity(q) == 1
    ensures q >= 0 ==> IncrementedQuantity(q) >= 1
  {
  }
}
