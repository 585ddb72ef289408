/**
 * The tables of shared/schema.ts: one record type per table, the value
 * domains written in its comments, the column defaults, and the insert
 * schemas, which are the records without `id`, `createdAt` (and, for
 * donations, `updatedAt`).
 *
 * Identifiers and timestamps are JavaScript numbers: `Id` and `Time` are
 * unbounded integers (a timestamp counts milliseconds).
 */
module Schema {
  import opened Wrappers

  type Id = int
  type Time = int

  // Value domains (text columns; the domains are documented, not enforced).
  const Roles: seq<string> := ["donor", "ngo", "admin"]
  const DonationTypes: seq<string> := ["food", "clothes", "money"]
  const DonationStatuses: seq<string> := ["pending", "accepted", "in_transit", "delivered", "cancelled"]
  const Urgencies: seq<string> := ["low", "medium", "high", "critical"]
  const MessageTypes: seq<string> := ["text", "image", "file"]

  // Column defaults.
  const DefaultStatus: string := "pending"
  const DefaultUrgency: string := "medium"
  const DefaultImpactScore: string := "0"
  const DefaultMessageType: string := "text"

  datatype User = User(id: Id, name: string, email: string, password: string, role: string, createdAt: Time)

  /**
   * `verified` is a nullable boolean column read only for its truthiness;
   * a missing or null value is kept as `false`.
   */
  datatype Ngo = Ngo(
    id: Id, userId: Id, organizationName: string,
    description: Option<string>, mission: Option<string>, location: string,
    verified: bool, impactScore: Option<string>, focusAreas: Option<seq<string>>,
    registrationNumber: Option<string>, website: Option<string>, phone: Option<string>,
    createdAt: Time)

  datatype Donation = Donation(
    id: Id, donorId: Id, ngoId: Option<Id>, title: string, description: Option<string>,
    kind: string, quantity: string, amount: Option<string>, status: string, urgency: string,
    pickupAddress: string, pickupTime: Option<string>,
    estimatedImpact: Option<int>, actualImpact: Option<int>,
    createdAt: Time, updatedAt: Time)

  /** `read` is a nullable boolean column read only for its truthiness. */
  datatype Message = Message(
    id: Id, senderId: Id, receiverId: Id, donationId: Option<Id>, content: string,
    messageType: string, read: bool, createdAt: Time)

  datatype DonationUpdate = DonationUpdate(
    id: Id, donationId: Id, status: string, message: Option<string>, updatedBy: Id, createdAt: Time)

  // Insert schemas: a record without the server-assigned columns. An absent
  // defaulted column is `None` and takes its default when the row is built.

  datatype InsertUser = InsertUser(name: string, email: string, password: string, role: string)

  datatype InsertNgo = InsertNgo(
    userId: Id, organizationName: string, description: Option<string>, mission: Option<string>,
    location: string, verified: Option<bool>, impactScore: Option<string>,
    focusAreas: Option<seq<string>>, registrationNumber: Option<string>,
    website: Option<string>, phone: Option<string>)

  datatype InsertDonation = InsertDonation(
    donorId: Id, ngoId: Option<Id>, title: string, description: Option<string>,
    kind: string, quantity: string, amount: Option<string>, status: Option<string>,
    urgency: Option<string>, pickupAddress: string, pickupTime: Option<string>,
    estimatedImpact: Option<int>, actualImpact: Option<int>)

  datatype InsertMessage = InsertMessage(
    senderId: Id, receiverId: Id, donationId: Option<Id>, content: string,
    messageType: Option<string>, read: Option<bool>)

  datatype InsertDonationUpdate = InsertDonationUpdate(
    donationId: Id, status: string, message: Option<string>, updatedBy: Id)

  // Partial records for the update operations: `None` leaves a column as it
  // is; a nullable column is set to null with `Some(None)`.

  datatype UserPatch = UserPatch(
    name: Option<string>, email: Option<string>, password: Option<string>, role: Option<string>)

  datatype NgoPatch = NgoPatch(
    userId: Option<Id>, organizationName: Option<string>, description: Option<Option<string>>,
    mission: Option<Option<string>>, location: Option<string>, verified: Option<bool>,
    impactScore: Option<Option<string>>, focusAreas: Option<Option<seq<string>>>,
    registrationNumber: Option<Option<string>>, website: Option<Option<string>>,
    phone: Option<Option<string>>)

  datatype DonationPatch = DonationPatch(
    donorId: Option<Id>, ngoId: Option<Option<Id>>, title: Option<string>,
    description: Option<Option<string>>, kind: Option<string>, quantity: Option<string>,
    amount: Option<Option<string>>, status: Option<string>, urgency: Option<string>,
    pickupAddress: Option<string>, pickupTime: Option<Option<string>>,
    estimatedImpact: Option<Option<int>>, actualImpact: Option<Option<int>>)

  const EmptyDonationPatch: DonationPatch :=
    DonationPatch(None, None, None, None, None, None, None, None, None, None, None, None, None)

  /** The `{ verified }` patch sent by the verification route. */
  function VerifiedPatch(verified: bool): NgoPatch {
    NgoPatch(None, None, None, None, None, Some(verified), None, None, None, None, None)
  }

  /** A merged column: the patch's value when it supplies one, the row's value otherwise. */
  predicate Patched<T(==)>(merged: T, patch: Option<T>, before: T) {
    if patch.Some? then merged == patch.value else merged == before
  }

  // Rows as the store builds them: `{ ...insert, id, createdAt }`.

  function NewUser(id: Id, u: InsertUser, now: Time): (r: User)
    ensures r.id == id && r.createdAt == now
    ensures InsertUser(r.name, r.email, r.password, r.role) == u
  {
    User(id, u.name, u.email, u.password, u.role, now)
  }

  function NewNgo(id: Id, n: InsertNgo, now: Time): (r: Ngo)
    ensures r.id == id && r.createdAt == now && r.userId == n.userId
    ensures r.verified <==> n.verified == Some(true)
    ensures n.impactScore.None? ==> r.impactScore == Some(DefaultImpactScore)
    ensures n.impactScore.Some? ==> r.impactScore == n.impactScore
    ensures r.organizationName == n.organizationName && r.location == n.location
    ensures r.description == n.description && r.mission == n.mission
    ensures r.focusAreas == n.focusAreas && r.registrationNumber == n.registrationNumber
    ensures r.website == n.website && r.phone == n.phone
  {
    Ngo(id, n.userId, n.organizationName, n.description, n.mission, n.location,
        n.verified.GetOr(false), Some(n.impactScore.GetOr(DefaultImpactScore)), n.focusAreas,
        n.registrationNumber, n.website, n.phone, now)
  }

  function NewDonation(id: Id, d: InsertDonation, now: Time): (r: Donation)
    ensures r.id == id && r.donorId == d.donorId && r.ngoId == d.ngoId
    ensures r.createdAt == now && r.updatedAt == now
    ensures d.status.None? ==> r.status == DefaultStatus
    ensures d.status.Some? ==> r.status == d.status.value
    ensures d.urgency.None? ==> r.urgency == DefaultUrgency
    ensures d.urgency.Some? ==> r.urgency == d.urgency.value
    ensures r.title == d.title && r.description == d.description && r.kind == d.kind
    ensures r.quantity == d.quantity && r.amount == d.amount
    ensures r.pickupAddress == d.pickupAddress && r.pickupTime == d.pickupTime
    ensures r.estimatedImpact == d.estimatedImpact && r.actualImpact == d.actualImpact
  {
    Donation(id, d.donorId, d.ngoId, d.title, d.description, d.kind, d.quantity, d.amount,
             d.status.GetOr(DefaultStatus), d.urgency.GetOr(DefaultUrgency), d.pickupAddress,
             d.pickupTime, d.estimatedImpact, d.actualImpact, now, now)
  }

  function NewMessage(id: Id, m: InsertMessage, now: Time): (r: Message)
    ensures r.id == id && r.createdAt == now
    ensures r.senderId == m.senderId && r.receiverId == m.receiverId && r.content == m.content
    ensures r.donationId == m.donationId
    ensures m.messageType.None? ==> r.messageType == DefaultMessageType
    ensures m.messageType.Some? ==> r.messageType == m.messageType.value
    ensures r.read <==> m.read == Some(true)
  {
    Message(id, m.senderId, m.receiverId, m.donationId, m.content,
            m.messageType.GetOr(DefaultMessageType), m.read.GetOr(false), now)
  }

  function NewDonationUpdate(id: Id, u: InsertDonationUpdate, now: Time): (r: DonationUpdate)
    ensures r.id == id && r.createdAt == now
    ensures InsertDonationUpdate(r.donationId, r.status, r.message, r.updatedBy) == u
  {
    DonationUpdate(id, u.donationId, u.status, u.message, u.updatedBy, now)
  }

  // Shallow merges: `{ ...row, ...patch }`.

  function MergeUser(u: User, p: UserPatch): (r: User)
    ensures r.id == u.id && r.createdAt == u.createdAt
    ensures Patched(r.name, p.name, u.name) && Patched(r.email, p.email, u.email)
    ensures Patched(r.password, p.password, u.password) && Patched(r.role, p.role, u.role)
    ensures p == UserPatch(None, None, None, None) ==> r == u
  {
    User(u.id, p.name.GetOr(u.name), p.email.GetOr(u.email), p.password.GetOr(u.password),
         p.role.GetOr(u.role), u.createdAt)
  }

  function MergeNgo(n: Ngo, p: NgoPatch): (r: Ngo)
    ensures r.id == n.id && r.createdAt == n.createdAt
    ensures Patched(r.userId, p.userId, n.userId) && Patched(r.organizationName, p.organizationName, n.organizationName)
    ensures Patched(r.description, p.description, n.description) && Patched(r.mission, p.mission, n.mission)
    ensures Patched(r.location, p.location, n.location) && Patched(r.verified, p.verified, n.verified)
    ensures Patched(r.impactScore, p.impactScore, n.impactScore) && Patched(r.focusAreas, p.focusAreas, n.focusAreas)
    ensures Patched(r.registrationNumber, p.registrationNumber, n.registrationNumber)
    ensures Patched(r.website, p.website, n.website) && Patched(r.phone, p.phone, n.phone)
  {
    Ngo(n.id, p.userId.GetOr(n.userId), p.organizationName.GetOr(n.organizationName),
        p.description.GetOr(n.description), p.mission.GetOr(n.mission),
        p.location.GetOr(n.location), p.verified.GetOr(n.verified),
        p.impactScore.GetOr(n.impactScore), p.focusAreas.GetOr(n.focusAreas),
        p.registrationNumber.GetOr(n.registrationNumber), p.website.GetOr(n.website),
        p.phone.GetOr(n.phone), n.createdAt)
  }

  /** `{ ...donation, ...patch, updatedAt: now }`. */
  function MergeDonation(d: Donation, p: DonationPatch, now: Time): (r: Donation)
    ensures r.id == d.id && r.createdAt == d.createdAt && r.updatedAt == now
    ensures Patched(r.donorId, p.donorId, d.donorId) && Patched(r.ngoId, p.ngoId, d.ngoId)
    ensures Patched(r.title, p.title, d.title) && Patched(r.description, p.description, d.description)
    ensures Patched(r.kind, p.kind, d.kind) && Patched(r.quantity, p.quantity, d.quantity)
    ensures Patched(r.amount, p.amount, d.amount) && Patched(r.status, p.status, d.status)
    ensures Patched(r.urgency, p.urgency, d.urgency) && Patched(r.pickupAddress, p.pickupAddress, d.pickupAddress)
    ensures Patched(r.pickupTime, p.pickupTime, d.pickupTime)
    ensures Patched(r.estimatedImpact, p.estimatedImpact, d.estimatedImpact)
    ensures Patched(r.actualImpact, p.actualImpact, d.actualImpact)
  {
    Donation(d.id, p.donorId.GetOr(d.donorId), p.ngoId.GetOr(d.ngoId), p.title.GetOr(d.title),
             p.description.GetOr(d.description), p.kind.GetOr(d.kind),
             p.quantity.GetOr(d.quantity), p.amount.GetOr(d.amount), p.status.GetOr(d.status),
             p.urgency.GetOr(d.urgency), p.pickupAddress.GetOr(d.pickupAddress),
             p.pickupTime.GetOr(d.pickupTime), p.estimatedImpact.GetOr(d.estimatedImpact),
             p.actualImpact.GetOr(d.actualImpact), d.createdAt, now)
  }

  /** Merging the empty patch only refreshes `updatedAt`. */
  lemma MergeEmptyPatch(d: Donation, now: Time)
    ensures MergeDonation(d, EmptyDonationPatch, now) == d.(updatedAt := now)
  {
  }

  /** Applying the same patch twice is the same as applying it once, at the later time. */
  lemma MergeIdempotent(d: Donation, p: DonationPatch, t1: Time, t2: Time)
    ensures MergeDonation(MergeDonation(d, p, t1), p, t2) == MergeDonation(d, p, t2)
  {
  }

  /** Every donation the store can build from an insert record starts in a documented status when none is given. */
  lemma NewDonationDefaultsInDomain(id: Id, d: InsertDonation, now: Time)
    requires d.status.None? && d.urgency.None?
    ensures NewDonation(id, d, now).status in DonationStatuses
    ensures NewDonation(id, d, now).urgency in Urgencies
    ensures NewDonation(id, d, now).ngoId == d.ngoId
  {
  }
}
