/** The checkout wizard's state: a four-step linear flow (Shipping,
    Delivery, Payment, Review) whose forward moves are gated, the shipping
    form, and the bookkeeping of which fields passed validation. */
module CheckoutFlow {
  import opened Seqs
  import opened CheckoutRules

  datatype ShippingField = FirstName | LastName | Email | Phone | Address | City | State | ZipCode | Country
  {
    /** The property name in `ShippingInfo`, which is also the name passed
        to the validator. */
    function Key(): string
    {
      match this
      case FirstName => "firstName"
      case LastName => "lastName"
      case Email => "email"
      case Phone => "phone"
      case Address => "address"
      case City => "city"
      case State => "state"
      case ZipCode => "zipCode"
      case Country => "country"
    }
  }

  lemma KeyInjective(f: ShippingField, g: ShippingField)
    ensures f.Key() == g.Key() ==> f == g
  {
  }

  datatype ShippingInfo = ShippingInfo(firstName: string, lastName: string, email: string, phone: string,
                                       address: string, city: string, state: string, zipCode: string,
                                       country: string)
  {
    function Get(f: ShippingField): string
    {
      match f
      case FirstName => firstName
      case LastName => lastName
      case Email => email
      case Phone => phone
      case Address => address
      case City => city
      case State => state
      case ZipCode => zipCode
      case Country => country
    }

    /** `{ ...info, [field]: value }`. */
    function With(f: ShippingField, v: string): (r: ShippingInfo)
      ensures r.Get(f) == v
      ensures forall g :: g != f ==> r.Get(g) == Get(g)
    {
      match f
      case FirstName => this.(firstName := v)
      case LastName => this.(lastName := v)
      case Email => this.(email := v)
      case Phone => this.(phone := v)
      case Address => this.(address := v)
      case City => this.(city := v)
      case State => this.(state := v)
      case ZipCode => this.(zipCode := v)
      case Country => this.(country := v)
    }
  }

  const InitialShippingInfo: ShippingInfo := ShippingInfo("", "", "", "", "", "", "", "", "US")

  /** The fields the Shipping step requires; the country is not one of them. */
  const RequiredFields: seq<ShippingField> := [FirstName, LastName, Email, Phone, Address, City, State, ZipCode]

  /** The names of all shipping fields. */
  const FieldKeys: set<string> :=
    {"firstName", "lastName", "email", "phone", "address", "city", "state", "zipCode", "country"}

  lemma RequiredIsAllButCountry(f: ShippingField)
    ensures f in RequiredFields <==> f != Country
    ensures f.Key() in FieldKeys
  {
  }

  /** `canProceedToNextStep` for a given step and selection state. */
  function StepGuard(step: int, validated: seq<string>, deliveryOption: string, paymentMethod: string): bool
  {
    if step == 1 then forall i :: 0 <= i < |RequiredFields| ==> RequiredFields[i].Key() in validated
    else if step == 2 then deliveryOption != ""
    else if step == 3 then paymentMethod != ""
    else true
  }

  /** The snapshot handed to the order-processing callback. */
  datatype OrderData = OrderData(shippingInfo: ShippingInfo, deliveryOption: string, paymentMethod: string,
                                 cartItems: seq<CartItem>, totals: Totals)

  class Checkout {
    var currentStep: int
    var shippingInfo: ShippingInfo
    var deliveryOption: string
    var paymentMethod: string
    var validatedFields: seq<string>
    var errors: map<string, string>

    /** No field is listed twice, and a field is listed exactly when its
        last validation passed (its recorded error text is empty). */
    ghost predicate Bookkeeping()
      reads this
    {
      && NoDuplicates(validatedFields)
      && (forall f :: f in validatedFields ==> f in errors && errors[f] == "")
      && (forall f :: f in errors && errors[f] == "" ==> f in validatedFields)
    }

    /** The object invariant: one of the four steps, the bookkeeping above,
        only shipping fields validated, and each recorded verdict is the
        verdict on that field's current value. */
    ghost predicate Valid()
      reads this
    {
      && 1 <= currentStep <= 4
      && Bookkeeping()
      && errors.Keys <= FieldKeys
      && (forall f: ShippingField :: f.Key() in errors ==>
            errors[f.Key()] == Validate(f.Key(), shippingInfo.Get(f)).message)
    }

    constructor ()
      ensures Valid()
      ensures currentStep == 1 && shippingInfo == InitialShippingInfo
      ensures deliveryOption == "" && paymentMethod == ""
      ensures validatedFields == [] && errors == map[]
    {
      currentStep := 1;
      shippingInfo := InitialShippingInfo;
      deliveryOption := "";
      paymentMethod := "";
      validatedFields := [];
      errors := map[];
    }

    /** `validateField`: records the verdict on `value` for `field`. Only
        `handleInputChange` calls it, with a shipping field's name and the
        value just stored there; that caller is what keeps `Valid()`, while
        this method on its own keeps only the bookkeeping. */
    method ValidateField(field: string, value: string) returns (isValid: bool)
      requires Bookkeeping()
      modifies this`validatedFields, this`errors
      ensures Bookkeeping()
      ensures isValid == FieldRule(field, value)
      ensures validatedFields == if isValid then RemoveAll(old(validatedFields), field) + [field]
                                 else RemoveAll(old(validatedFields), field)
      ensures errors == old(errors)[field := Validate(field, value).message]
      ensures field in validatedFields <==> isValid
      ensures forall f :: f != field ==> (f in validatedFields <==> f in old(validatedFields))
    {
      var v := Validate(field, value);
      isValid := v.valid;
      RemoveAllFacts(validatedFields, field);
      if isValid {
        RemoveThenAppendNoDuplicates(validatedFields, field);
        validatedFields := RemoveAll(validatedFields, field) + [field];
      } else {
        validatedFields := RemoveAll(validatedFields, field);
      }
      errors := errors[field := v.message];
    }

    /** `handleInputChange`: stores the new value and validates it. */
    method HandleInputChange(f: ShippingField, value: string)
      requires Valid()
      modifies this`shippingInfo, this`validatedFields, this`errors
      ensures Valid()
      ensures shippingInfo == old(shippingInfo).With(f, value)
      ensures validatedFields == if FieldRule(f.Key(), value) then RemoveAll(old(validatedFields), f.Key()) + [f.Key()]
                                 else RemoveAll(old(validatedFields), f.Key())
      ensures errors == old(errors)[f.Key() := Validate(f.Key(), value).message]
      ensures f.Key() in validatedFields <==> FieldRule(f.Key(), value)
      ensures forall k :: k != f.Key() ==> (k in validatedFields <==> k in old(validatedFields))
    {
      shippingInfo := shippingInfo.With(f, value);
      var _ := ValidateField(f.Key(), value);
      RequiredIsAllButCountry(f);
      forall g: ShippingField | g.Key() in errors
        ensures errors[g.Key()] == Validate(g.Key(), shippingInfo.Get(g)).message
      {
        KeyInjective(f, g);
      }
    }

    /** `setDeliveryOption`, the delivery radio group. */
    method SelectDeliveryOption(id: string)
      requires Valid()
      modifies this`deliveryOption
      ensures Valid()
      ensures deliveryOption == id
    {
      deliveryOption := id;
    }

    /** `setPaymentMethod`, the payment radio group. */
    method SelectPaymentMethod(id: string)
      requires Valid()
      modifies this`paymentMethod
      ensures Valid()
      ensures paymentMethod == id
    {
      paymentMethod := id;
    }

    function CanProceedToNextStep(): bool
      reads this
    {
      StepGuard(currentStep, validatedFields, deliveryOption, paymentMethod)
    }

    /** On the Shipping step the Continue button is enabled exactly when
        every field but the country has been entered and its current value
        passes its rule. */
    lemma ShippingGate()
      requires Valid() && currentStep == 1
      ensures CanProceedToNextStep() <==>
                forall f: ShippingField :: f != Country ==> f.Key() in errors && FieldRule(f.Key(), shippingInfo.Get(f))
    {
      if CanProceedToNextStep() {
        forall f: ShippingField | f != Country
          ensures f.Key() in errors && FieldRule(f.Key(), shippingInfo.Get(f))
        {
          RequiredIsAllButCountry(f);
          var i :| 0 <= i < |RequiredFields| && RequiredFields[i] == f;
          assert f.Key() in validatedFields;
        }
      }
      if forall f: ShippingField :: f != Country ==> f.Key() in errors && FieldRule(f.Key(), shippingInfo.Get(f)) {
        forall i | 0 <= i < |RequiredFields| ensures RequiredFields[i].Key() in validatedFields {
          var f := RequiredFields[i];
          RequiredIsAllButCountry(f);
          assert errors[f.Key()] == "";
        }
      }
    }

    /** `handleNext`: one step forward when the guard holds and the
        wizard is not on Review. */
    method HandleNext()
      requires Valid()
      modifies this`currentStep
      ensures Valid()
      ensures currentStep == if old(CanProceedToNextStep()) && old(currentStep) < 4 then old(currentStep) + 1
                             else old(currentStep)
    {
      if CanProceedToNextStep() && currentStep < 4 {
        currentStep := currentStep + 1;
      }
    }

    /** `handlePrevious`: one step back, unguarded, not below Shipping. */
    method HandlePrevious()
      requires Valid()
      modifies this`currentStep
      ensures Valid()
      ensures currentStep == if old(currentStep) > 1 then old(currentStep) - 1 else old(currentStep)
    {
      if currentStep > 1 {
        currentStep := currentStep - 1;
      }
    }

    /** The Edit buttons, shown only on the Review step (4), jump back to
        Shipping (1), Delivery (2) or Payment (3); nothing entered is lost. */
    method EditStep(target: int)
      requires Valid() && currentStep == 4 && 1 <= target <= 3
      modifies this`currentStep
      ensures Valid() && currentStep == target
      ensures currentStep < old(currentStep)
      ensures shippingInfo == old(shippingInfo)
      ensures deliveryOption == old(deliveryOption) && paymentMethod == old(paymentMethod)
      ensures validatedFields == old(validatedFields) && errors == old(errors)
    {
      currentStep := target;
    }

    /** `handleCompleteOrder`: the snapshot of everything entered, the cart
        and its four totals. */
    method CompleteOrder(cartItems: seq<CartItem>) returns (order: OrderData)
      ensures order.shippingInfo == shippingInfo
      ensures order.deliveryOption == deliveryOption && order.paymentMethod == paymentMethod
      ensures order.cartItems == cartItems
      ensures order.totals == ComputeTotals(cartItems, deliveryOption)
    {
      order := OrderData(shippingInfo, deliveryOption, paymentMethod, cartItems,
                         ComputeTotals(cartItems, deliveryOption));
    }
  }

  /** On a fresh wizard Continue is refused: no field has been entered. */
  method EmptyFormIsRefused() returns (step: int)
    ensures step == 1
  {
    var c := new Checkout();
    assert !c.CanProceedToNextStep() by {
      assert RequiredFields[0].Key() !in c.validatedFields;
    }
    c.HandleNext();
    step := c.currentStep;
  }
}
