/** The add/edit address form: fields filled from the address being edited,
    the all-fields check, and the create or update request. */
module AddEditAddress {
  import opened Common
  import opened Catalog

  /** The form's fields; `addressLine` is the street line. */
  datatype AddressForm = AddressForm(
    fullName: string, addressLine: string, city: string, state: string, zipCode: string, phone: string,
    isDefault: bool)

  /** The body sent to the server. */
  datatype AddressPayload = AddressPayload(
    fullName: string, address: string, city: string, state: string, zipCode: string, phone: string,
    isDefault: bool)

  /** `PUT /addresses/:id` when editing, `POST /addresses` otherwise. */
  datatype SaveRequest = PutAddress(id: string, payload: AddressPayload) | PostAddress(payload: AddressPayload)

  /** The initial form: each field from the address being edited (an empty
      value stays empty), or empty and not default for a new address. */
  function InitialForm(address: Option<Address>): (f: AddressForm)
    ensures address.None? ==> f == AddressForm("", "", "", "", "", "", false)
    ensures address.Some? ==>
              var a := address.value;
              f.fullName == a.fullName && f.addressLine == a.address && f.city == a.city &&
              f.state == a.state && f.zipCode == a.zipCode && f.phone == a.phone && f.isDefault == a.isDefault
  {
    match address
    case None => AddressForm("", "", "", "", "", "", false)
    case Some(a) => AddressForm(a.fullName, a.address, a.city, a.state, a.zipCode, a.phone, a.isDefault)
  }

  /** None of the six text fields is empty. */
  predicate Filled(f: AddressForm) {
    f.fullName != "" && f.addressLine != "" && f.city != "" && f.state != "" && f.zipCode != "" && f.phone != ""
  }

  /** The request body: `addressLine` is sent as `address`. */
  function PayloadOf(f: AddressForm): (p: AddressPayload)
    ensures p.address == f.addressLine
    ensures p.fullName == f.fullName && p.city == f.city && p.state == f.state
    ensures p.zipCode == f.zipCode && p.phone == f.phone && p.isDefault == f.isDefault
  {
    AddressPayload(f.fullName, f.addressLine, f.city, f.state, f.zipCode, f.phone, f.isDefault)
  }

  /** The request `handleSave()` sends: none when a field is empty, an update
      of the edited address, or a new address. */
  function SaveRequestFor(address: Option<Address>, f: AddressForm): (r: Option<SaveRequest>)
    ensures r.None? <==> !Filled(f)
    ensures r.Some? && address.Some? ==> r.value == PutAddress(address.value.id, PayloadOf(f))
    ensures r.Some? && address.None? ==> r.value == PostAddress(PayloadOf(f))
  {
    if !Filled(f) then None
    else if address.Some? then Some(PutAddress(address.value.id, PayloadOf(f)))
    else Some(PostAddress(PayloadOf(f)))
  }

  /** Saving an edited address untouched sends it back unchanged: the
      update carries its id and every field as loaded. */
  lemma UntouchedEditRoundTrip(a: Address)
    requires a.fullName != "" && a.address != "" && a.city != "" && a.state != "" && a.zipCode != "" && a.phone != ""
    ensures SaveRequestFor(Some(a), InitialForm(Some(a))) ==
              Some(PutAddress(a.id, AddressPayload(a.fullName, a.address, a.city, a.state, a.zipCode, a.phone, a.isDefault)))
  {
  }

  /** A new address cannot be saved before every field is typed in. */
  lemma NewFormNotSavable()
    ensures SaveRequestFor(None, InitialForm(None)).None?
  {
  }

  /** The form's state; `address` is the route's address, present when
      editing. */
  class AddEditAddressState {
    const address: Option<Address>
    var fullName: string
    var addressLine: string
    var city: string
    var state: string
    var zipCode: string
    var phone: string
    var isDefault: bool

    /** `isEdit = !!address`. */
    predicate IsEdit() {
      address.Some?
    }

    function Form(): AddressForm
      reads this
    {
      AddressForm(fullName, addressLine, city, state, zipCode, phone, isDefault)
    }

    constructor(routeAddress: Option<Address>)
      ensures address == routeAddress && Form() == InitialForm(routeAddress)
    {
      address := routeAddress;
      var f := InitialForm(routeAddress);
      fullName, addressLine, city, state := f.fullName, f.addressLine, f.city, f.state;
      zipCode, phone, isDefault := f.zipCode, f.phone, f.isDefault;
    }

    /** `handleSave()`: the check, then the request; the screen goes back only
        when the request succeeded. */
    method HandleSave(result: ApiResult) returns (request: Option<SaveRequest>, message: string, wentBack: bool)
      ensures request == SaveRequestFor(address, Form())
      ensures request.Some? ==> (request.value.PutAddress? <==> IsEdit())
      ensures wentBack <==> request.Some? && result.Succeeded?
      ensures request.None? ==> message == "Please fill all fields"
      ensures request.Some? && result.Succeeded? ==>
                message == if IsEdit() then "Address updated" else "Address added"
      ensures request.Some? && result.Failed? ==> message == MessageOr(result.serverMessage, "Failed to save")
    {
      request := SaveRequestFor(address, Form());
      if request.None? {
        return None, "Please fill all fields", false;
      }
      match result {
        case Succeeded =>
          message := if IsEdit() then "Address updated" else "Address added";
          wentBack := true;
        case Failed(m) =>
          message := MessageOr(m, "Failed to save");
          wentBack := false;
      }
    }
  }
}
