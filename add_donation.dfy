/**
 * The donation form of client/src/pages/donor/add-donation.tsx: its
 * validation schema, its defaults, and what the server makes of a form that
 * passes. A field the user has not filled in is `None`.
 */
module AddDonation {
  import opened Wrappers
  import opened Schema
  import opened Text
  import opened Routes

  datatype DonationForm = DonationForm(
    kind: Option<string>, title: Option<string>, description: Option<string>,
    quantity: Option<string>, amount: Option<string>, pickupAddress: Option<string>,
    pickupTime: Option<string>, urgency: Option<string>)

  /** The fields of the form, named as the schema names them. */
  datatype Field = Type | Title | Description | Quantity | Amount | PickupAddress | PickupTime | Urgency

  /** The form as it opens: only the urgency is filled in, with "medium". */
  const DefaultForm: DonationForm := DonationForm(None, None, None, None, None, None, None, Some("medium"))

  /** `z.enum(domain)`: present and one of the listed values. */
  predicate OneOf(v: Option<string>, domain: seq<string>) {
    v.Some? && v.value in domain
  }

  /**
   * `donationSchema`: the fields that fail.
   * The type is one of food, clothes or money; the title needs 3
   * characters, the description and the pickup address 10, the quantity and
   * the pickup time 1; the amount is optional; the urgency is one of low,
   * medium, high or critical.
   */
  function Issues(f: DonationForm): (r: set<Field>)
    ensures Type in r <==> !OneOf(f.kind, DonationTypes)
    ensures Title in r <==> !AtLeast(f.title, 3)
    ensures Description in r <==> !AtLeast(f.description, 10)
    ensures Quantity in r <==> !AtLeast(f.quantity, 1)
    ensures PickupAddress in r <==> !AtLeast(f.pickupAddress, 10)
    ensures PickupTime in r <==> !AtLeast(f.pickupTime, 1)
    ensures Urgency in r <==> !OneOf(f.urgency, Urgencies)
    ensures Amount !in r
  {
    set x | x in AllFields && !Passes(f, x)
  }

  const AllFields: set<Field> := {Type, Title, Description, Quantity, Amount, PickupAddress, PickupTime, Urgency}

  /** The rule of `donationSchema` for one field; the amount is optional and unchecked. */
  predicate Passes(f: DonationForm, x: Field) {
    match x
    case Type => OneOf(f.kind, DonationTypes)
    case Title => AtLeast(f.title, 3)
    case Description => AtLeast(f.description, 10)
    case Quantity => AtLeast(f.quantity, 1)
    case Amount => true
    case PickupAddress => AtLeast(f.pickupAddress, 10)
    case PickupTime => AtLeast(f.pickupTime, 1)
    case Urgency => OneOf(f.urgency, Urgencies)
  }

  /** The untouched form fails on every required field except the pre-filled urgency. */
  lemma DefaultFormIssues()
    ensures Issues(DefaultForm) == {Type, Title, Description, Quantity, PickupAddress, PickupTime}
  {
    assert "medium" in Urgencies;
  }

  /** The body the page posts to `/api/donations`: the form values as they are. */
  function RequestBody(f: DonationForm): (r: DonationBody)
    ensures r.status.None? && r.ngoId.None? && r.estimatedImpact.None? && r.actualImpact.None?
    ensures r.title == f.title && r.kind == f.kind && r.urgency == f.urgency && r.amount == f.amount
    ensures r.description == f.description && r.quantity == f.quantity
    ensures r.pickupAddress == f.pickupAddress && r.pickupTime == f.pickupTime
  {
    DonationBody(None, f.title, f.description, f.kind, f.quantity, f.amount, None, f.urgency,
                 f.pickupAddress, f.pickupTime, None, None)
  }

  /**
   * A form that passes validation, posted by a donor, is accepted by the
   * server and stored as a pending donation with no NGO, of a known type and
   * urgency.
   */
  lemma ValidFormIsStoredPending(f: DonationForm, donorId: Id, id: Id, now: Time)
    requires Issues(f) == {}
    ensures ParseDonation(RequestBody(f), donorId).Some?
    ensures var d := NewDonation(id, ParseDonation(RequestBody(f), donorId).value, now);
      && d.status == DefaultStatus && d.ngoId.None? && d.donorId == donorId
      && d.kind in DonationTypes && d.urgency in Urgencies && d.urgency == f.urgency.value
  {
    assert Type !in Issues(f) && Title !in Issues(f) && Quantity !in Issues(f);
    assert PickupAddress !in Issues(f) && Urgency !in Issues(f);
  }
}
