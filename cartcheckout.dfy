/**
 * The cart panel's checkout form: field-by-field validation with a fixed
 * message priority, error clearing on edit, the checkout guard and the
 * delivery-fee arithmetic. The `*Error` functions are the specification of
 * each field rule; the `Check*` methods are the steps `validateForm` runs,
 * each proved equal to its function.
 */
module CartCheckout {

  import opened Wrappers
  import opened Types
  import opened JsString
  import opened Utils
  import CartProvider

  const NameRequired := "Nome é obrigatório"
  const NameTooShort := "Nome deve ter pelo menos 2 caracteres"
  const PhoneRequired := "Telefone é obrigatório"
  const PhoneInvalid := "Telefone inválido"
  const AddressRequired := "Endereço é obrigatório"
  const AddressIncomplete := "Endereço deve ser mais completo"
  const NeighborhoodRequired := "Selecione um bairro"

  /** The form's initial and post-checkout contents. */
  const EmptyCustomerInfo := CustomerInfo("", "", "", Some(""))

  datatype Field = Name | Phone | Address | Neighborhood

  /** `Partial<CustomerInfo>` used as the error record: one optional message per field. */
  datatype FormErrors = FormErrors(
    name: Option<string>,
    phone: Option<string>,
    address: Option<string>,
    neighborhood: Option<string>)
  {
    function Get(field: Field): Option<string>
    {
      match field
      case Name => name
      case Phone => phone
      case Address => address
      case Neighborhood => neighborhood
    }

    function Set(field: Field, message: Option<string>): (r: FormErrors)
      ensures r.Get(field) == message
      ensures forall g :: g != field ==> r.Get(g) == Get(g)
    {
      match field
      case Name => this.(name := message)
      case Phone => this.(phone := message)
      case Address => this.(address := message)
      case Neighborhood => this.(neighborhood := message)
    }

    /** `Object.keys(newErrors).length === 0`. */
    predicate IsEmpty()
    {
      name.None? && phone.None? && address.None? && neighborhood.None?
    }

    /** Every recorded message is a non-empty, hence truthy, string. */
    predicate MessagesNonEmpty()
    {
      NonEmptyMessage(name) && NonEmptyMessage(phone) && NonEmptyMessage(address)
      && NonEmptyMessage(neighborhood)
    }
  }

  predicate NonEmptyMessage(m: Option<string>)
  {
    m.Some? ==> |m.value| > 0
  }

  const NoErrors := FormErrors(None, None, None, None)

  function WithField(info: CustomerInfo, field: Field, value: string): CustomerInfo
  {
    match field
    case Name => info.(name := value)
    case Phone => info.(phone := value)
    case Address => info.(address := value)
    case Neighborhood => info.(neighborhood := Some(value))
  }

  function NameError(name: string): (r: Option<string>)
    ensures NonEmptyMessage(r)
  {
    if Trim(name) == "" then Some(NameRequired)
    else if Utf16Length(Trim(name)) < 2 then Some(NameTooShort)
    else None
  }

  function PhoneError(phone: string): (r: Option<string>)
    ensures NonEmptyMessage(r)
  {
    if Trim(phone) == "" then Some(PhoneRequired)
    else if !IsValidPhone(phone) then Some(PhoneInvalid)
    else None
  }

  function AddressError(address: string): (r: Option<string>)
    ensures NonEmptyMessage(r)
  {
    if Trim(address) == "" then Some(AddressRequired)
    else if Utf16Length(Trim(address)) < 10 then Some(AddressIncomplete)
    else None
  }

  /** `!customerInfo.neighborhood?.trim()`: a missing or blank neighbourhood. */
  function NeighborhoodError(neighborhood: Option<string>): (r: Option<string>)
    ensures NonEmptyMessage(r)
  {
    if neighborhood.None? || Trim(neighborhood.value) == "" then Some(NeighborhoodRequired)
    else None
  }

  /** The error record `validateForm` builds for the given form contents. */
  function ValidationErrors(info: CustomerInfo): FormErrors
  {
    FormErrors(NameError(info.name), PhoneError(info.phone), AddressError(info.address),
               NeighborhoodError(info.neighborhood))
  }

  /** The guard of `handleCheckout`: a valid form and a non-empty cart. */
  predicate CheckoutProceeds(info: CustomerInfo, items: seq<CartItem>)
  {
    ValidationErrors(info).IsEmpty() && |items| > 0
  }

  // ---------------------------------------------------------------------
  // Properties of the validation rules

  /**
   * A blank name gets the required message even though it is also too short;
   * otherwise a name under two code units gets the length message.
   */
  lemma NameErrorCases(name: string)
    ensures NameError(name) == Some(NameRequired) <==> Trim(name) == ""
    ensures NameError(name) == Some(NameTooShort) <==> Trim(name) != "" && Utf16Length(Trim(name)) < 2
    ensures NameError(name) == None <==>
              |Trim(name)| >= 2 || (|Trim(name)| == 1 && Trim(name)[0] as int > 0xFFFF)
  {
    Utf16LengthAtLeastTwo(Trim(name));
  }

  /** An accepted name that fits its input field has 2 to 50 code units once trimmed. */
  lemma AcceptedNameFitsLimits(name: string)
    requires Utf16Length(name) <= MaxNameLength
    requires NameError(name) == None
    ensures 2 <= Utf16Length(Trim(name)) <= MaxNameLength
  {
    Utf16LengthOfTrim(name);
  }

  /** A phone is accepted exactly when `isValidPhone` holds; blank gets the required message. */
  lemma PhoneErrorCases(phone: string)
    ensures PhoneError(phone) == None <==> IsValidPhone(phone)
    ensures PhoneError(phone) == Some(PhoneRequired) <==> Trim(phone) == ""
    ensures PhoneError(phone) == Some(PhoneInvalid) <==> Trim(phone) != "" && !IsValidPhone(phone)
  {
    if Trim(phone) == "" {
      TrimFacts(phone);
      CleanPhoneNumberOfBlank(phone);
    }
  }

  /** A blank address gets the required message; otherwise under ten code units is incomplete. */
  lemma AddressErrorCases(address: string)
    ensures AddressError(address) == Some(AddressRequired) <==> Trim(address) == ""
    ensures AddressError(address) == Some(AddressIncomplete) <==>
              Trim(address) != "" && Utf16Length(Trim(address)) < 10
    ensures AddressError(address) == None <==> Utf16Length(Trim(address)) >= 10
  {
  }

  /** An accepted address that fits its input field has 10 to 200 code units once trimmed. */
  lemma AcceptedAddressFitsLimits(address: string)
    requires Utf16Length(address) <= MaxAddressLength
    requires AddressError(address) == None
    ensures 10 <= Utf16Length(Trim(address)) <= MaxAddressLength
  {
    Utf16LengthOfTrim(address);
  }

  /** The form is valid iff every field passes its rule. */
  lemma FormValidIff(info: CustomerInfo)
    ensures ValidationErrors(info).IsEmpty() <==>
      && Utf16Length(Trim(info.name)) >= 2
      && IsValidPhone(info.phone)
      && Utf16Length(Trim(info.address)) >= 10
      && info.neighborhood.Some? && Trim(info.neighborhood.value) != ""
  {
    PhoneErrorCases(info.phone);
  }

  /** The recorded messages are all non-empty, so editing a field can always clear its error. */
  lemma ValidationMessagesNonEmpty(info: CustomerInfo)
    ensures ValidationErrors(info).MessagesNonEmpty()
  {
  }

  // ---------------------------------------------------------------------
  // Delivery fee

  /**
   * `deliveryFee`: nothing for an empty subtotal, otherwise the neighbourhood's
   * fee, looked up by `feeOf`.
   */
  function DeliveryFee(subtotal: int, neighborhood: Option<string>, feeOf: Option<string> -> int): int
  {
    if subtotal > 0 then feeOf(neighborhood) else 0
  }

  function TotalWithDelivery(subtotal: int, neighborhood: Option<string>, feeOf: Option<string> -> int): int
  {
    subtotal + DeliveryFee(subtotal, neighborhood, feeOf)
  }

  /** With positive prices, the fee is charged exactly when the cart has a line. */
  lemma DeliveryFeeFollowsCart(state: CartProvider.CartState, neighborhood: Option<string>,
                               feeOf: Option<string> -> int)
    requires CartProvider.CartInv(state)
    requires forall k :: 0 <= k < |state.items| ==> state.items[k].product.price > 0
    ensures state.items == [] ==>
              DeliveryFee(state.total, neighborhood, feeOf) == 0 &&
              TotalWithDelivery(state.total, neighborhood, feeOf) == 0
    ensures state.items != [] ==>
              DeliveryFee(state.total, neighborhood, feeOf) == feeOf(neighborhood) &&
              TotalWithDelivery(state.total, neighborhood, feeOf) ==
                CartProvider.CalculateTotal(state.items) + feeOf(neighborhood)
  {
    CartProvider.TotalPositiveIffNonEmpty(state.items);
  }

  // ---------------------------------------------------------------------
  // The steps of `validateForm`, one field at a time. The `*Error`
  // functions above are the specification of each rule; these methods are
  // the statement-by-statement form `validateForm` runs, proved equal to them.

  method CheckName(name: string) returns (message: Option<string>)
    ensures message == NameError(name)
    ensures NonEmptyMessage(message)
  {
    message := None;
    var trimmed := Trim(name);
    if trimmed == "" {
      message := Some(NameRequired);
    } else if Utf16Length(trimmed) < 2 {
      message := Some(NameTooShort);
    }
  }

  method CheckPhone(phone: string) returns (message: Option<string>)
    ensures message == PhoneError(phone)
    ensures NonEmptyMessage(message)
  {
    message := None;
    if Trim(phone) == "" {
      message := Some(PhoneRequired);
    } else if !IsValidPhone(phone) {
      message := Some(PhoneInvalid);
    }
  }

  method CheckAddress(address: string) returns (message: Option<string>)
    ensures message == AddressError(address)
    ensures NonEmptyMessage(message)
  {
    message := None;
    var trimmed := Trim(address);
    if trimmed == "" {
      message := Some(AddressRequired);
    } else if Utf16Length(trimmed) < 10 {
      message := Some(AddressIncomplete);
    }
  }

  method CheckNeighborhood(neighborhood: Option<string>) returns (message: Option<string>)
    ensures message == NeighborhoodError(neighborhood)
    ensures NonEmptyMessage(message)
  {
    message := None;
    if neighborhood.None? || Trim(neighborhood.value) == "" {
      message := Some(NeighborhoodRequired);
    }
  }

  // ---------------------------------------------------------------------
  // The form's state

  class CartForm {
    var customerInfo: CustomerInfo
    var errors: FormErrors

    ghost predicate Valid()
      reads this
    {
      errors.MessagesNonEmpty()
    }

    constructor ()
      ensures Valid()
      ensures customerInfo == EmptyCustomerInfo && errors == NoErrors
    {
      customerInfo := EmptyCustomerInfo;
      errors := NoErrors;
    }

    /** `validateForm`: records one message per failing field and reports whether none failed. */
    method ValidateForm() returns (ok: bool)
      modifies this`errors
      ensures Valid()
      ensures errors == ValidationErrors(customerInfo)
      ensures ok == errors.IsEmpty()
    {
      var newErrors := NoErrors;
      var message := CheckName(customerInfo.name);
      newErrors := newErrors.(name := message);
      message := CheckPhone(customerInfo.phone);
      newErrors := newErrors.(phone := message);
      message := CheckAddress(customerInfo.address);
      newErrors := newErrors.(address := message);
      message := CheckNeighborhood(customerInfo.neighborhood);
      newErrors := newErrors.(neighborhood := message);
      errors := newErrors;
      ok := newErrors.IsEmpty();
    }

    /** `handleInputChange`: stores the value and clears that field's error only. */
    method HandleInputChange(field: Field, value: string)
      requires Valid()
      modifies this
      ensures Valid()
      ensures customerInfo == WithField(old(customerInfo), field, value)
      ensures errors.Get(field) == None
      ensures forall g :: g != field ==> errors.Get(g) == old(errors).Get(g)
    {
      customerInfo := WithField(customerInfo, field, value);
      var current := errors.Get(field);
      if current.Some? && current.value != "" {
        errors := errors.Set(field, None);
      }
    }

    /**
     * `handleCheckout`: validates, then stops on an invalid form or an empty
     * cart. Otherwise it hands the details over (the returned value is what is
     * sent and passed to `onCheckout`) and resets the form.
     */
    method HandleCheckout(items: seq<CartItem>) returns (order: Option<CustomerInfo>)
      modifies this
      ensures Valid()
      ensures errors == ValidationErrors(old(customerInfo))
      ensures order == if CheckoutProceeds(old(customerInfo), items) then Some(old(customerInfo)) else None
      ensures customerInfo == if order.Some? then EmptyCustomerInfo else old(customerInfo)
    {
      var ok := ValidateForm();
      if !ok {
        return None;
      }
      if |items| == 0 {
        return None;
      }
      order := Some(customerInfo);
      customerInfo := EmptyCustomerInfo;
    }
  }

}
