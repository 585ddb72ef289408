/**
 * The HTTP handlers of server/routes.ts over the in-memory store. Each
 * handler receives the caller decoded by `Auth.Authenticate` (routes behind
 * the token gate) and the request body as a record of optional fields: a
 * field the client left out or sent as null is `None`. Parsing with the
 * insert schemas is the check that every required column is present.
 */
module Routes {
  import opened Wrappers
  import opened Schema
  import opened Seqs
  import opened Threads
  import opened Storage
  import opened Auth
  import opened Relay

  datatype Response<T> = Ok(body: T) | Error(status: int, message: string)

  /** The user fields sent back to clients: never the password hash. */
  datatype PublicUser = PublicUser(id: Id, name: string, email: string, role: string)

  datatype Session = Session(user: PublicUser, token: string)

  function Public(u: User): PublicUser {
    PublicUser(u.id, u.name, u.email, u.role)
  }

  function ClaimsOf(u: User): Claims {
    Claims(u.id, u.email, u.role)
  }

  /** No two users share an email: what the unique column and the signup check aim for. */
  ghost predicate UniqueEmails(users: map<Id, User>) {
    forall a, b :: a in users && b in users && users[a].email == users[b].email ==> a == b
  }

  // Request bodies

  datatype SignupBody = SignupBody(name: Option<string>, email: Option<string>, password: Option<string>, role: Option<string>)

  datatype LoginBody = LoginBody(email: Option<string>, password: Option<string>)

  datatype NgoBody = NgoBody(
    organizationName: Option<string>, description: Option<string>, mission: Option<string>,
    location: Option<string>, verified: Option<bool>, impactScore: Option<string>,
    focusAreas: Option<seq<string>>, registrationNumber: Option<string>,
    website: Option<string>, phone: Option<string>)

  datatype DonationBody = DonationBody(
    ngoId: Option<Id>, title: Option<string>, description: Option<string>, kind: Option<string>,
    quantity: Option<string>, amount: Option<string>, status: Option<string>, urgency: Option<string>,
    pickupAddress: Option<string>, pickupTime: Option<string>, estimatedImpact: Option<int>,
    actualImpact: Option<int>)

  datatype MessageBody = MessageBody(
    receiverId: Option<Id>, donationId: Option<Id>, content: Option<string>,
    messageType: Option<string>, read: Option<bool>)

  /** `insertUserSchema.parse`: every column of a user is required. */
  function ParseUser(b: SignupBody): (r: Option<InsertUser>)
    ensures r.Some? <==> b.name.Some? && b.email.Some? && b.password.Some? && b.role.Some?
    ensures r.Some? ==> r.value == InsertUser(b.name.value, b.email.value, b.password.value, b.role.value)
  {
    if b.name.Some? && b.email.Some? && b.password.Some? && b.role.Some?
    then Some(InsertUser(b.name.value, b.email.value, b.password.value, b.role.value))
    else None
  }

  /** `insertNgoSchema.parse({ ...body, userId })`: the organization name and location are required. */
  function ParseNgo(b: NgoBody, userId: Id): (r: Option<InsertNgo>)
    ensures r.Some? <==> b.organizationName.Some? && b.location.Some?
    ensures r.Some? ==> r.value.userId == userId && r.value.verified == b.verified
  {
    if b.organizationName.Some? && b.location.Some?
    then Some(InsertNgo(userId, b.organizationName.value, b.description, b.mission, b.location.value,
                        b.verified, b.impactScore, b.focusAreas, b.registrationNumber, b.website, b.phone))
    else None
  }

  /** `insertDonationSchema.parse({ ...body, donorId })`: title, type, quantity and pickup address are required. */
  function ParseDonation(b: DonationBody, donorId: Id): (r: Option<InsertDonation>)
    ensures r.Some? <==> b.title.Some? && b.kind.Some? && b.quantity.Some? && b.pickupAddress.Some?
    ensures r.Some? ==> r.value.donorId == donorId && r.value.status == b.status && r.value.urgency == b.urgency
  {
    if b.title.Some? && b.kind.Some? && b.quantity.Some? && b.pickupAddress.Some?
    then Some(InsertDonation(donorId, b.ngoId, b.title.value, b.description, b.kind.value, b.quantity.value,
                             b.amount, b.status, b.urgency, b.pickupAddress.value, b.pickupTime,
                             b.estimatedImpact, b.actualImpact))
    else None
  }

  /** `insertMessageSchema.parse({ ...body, senderId })`: receiver and content are required. */
  function ParseMessage(b: MessageBody, senderId: Id): (r: Option<InsertMessage>)
    ensures r.Some? <==> b.receiverId.Some? && b.content.Some?
    ensures r.Some? ==> r.value.senderId == senderId && r.value.receiverId == b.receiverId.value
  {
    if b.receiverId.Some? && b.content.Some?
    then Some(InsertMessage(senderId, b.receiverId.value, b.donationId, b.content.value, b.messageType, b.read))
    else None
  }

  // Authentication routes

  /**
   * `POST /api/auth/signup`. The role is taken from the body as sent, so a
   * caller may sign up as `admin`. `hash` stands for bcrypt, `sign` for
   * token issuance.
   */
  method Signup(s: MemStorage, body: SignupBody, hash: string -> string, sign: Claims -> string, now: Time)
    returns (r: Response<Session>)
    requires s.Valid()
    modifies s`users, s`userIdCounter
    ensures s.Valid()
    ensures ParseUser(body).None? ==>
      r == Error(400, "Invalid user data") && s.users == old(s.users) && s.userIdCounter == old(s.userIdCounter)
    ensures ParseUser(body).Some? && (exists k :: k in old(s.users) && old(s.users)[k].email == body.email.value) ==>
      r == Error(400, "User already exists") && s.users == old(s.users) && s.userIdCounter == old(s.userIdCounter)
    ensures r.Ok? <==> ParseUser(body).Some? && forall k :: k in old(s.users) ==> old(s.users)[k].email != body.email.value
    ensures r.Ok? ==>
      var user := NewUser(old(s.userIdCounter), ParseUser(body).value.(password := hash(body.password.value)), now);
      && s.users == old(s.users)[user.id := user]
      && r.body == Session(Public(user), sign(ClaimsOf(user)))
    ensures UniqueEmails(old(s.users)) ==> UniqueEmails(s.users)
  {
    var userData := ParseUser(body);
    if userData.None? {
      return Error(400, "Invalid user data");
    }
    var existing := s.GetUserByEmail(userData.value.email);
    if existing.Some? {
      return Error(400, "User already exists");
    }
    var user := s.CreateUser(userData.value.(password := hash(userData.value.password)), now);
    r := Ok(Session(Public(user), sign(ClaimsOf(user))));
  }

  /**
   * `POST /api/auth/login`. An unknown email and a wrong password give the
   * same 401; a missing password makes the password comparison throw, which
   * the handler reports as a server error. `matches` stands for bcrypt's
   * comparison of a plain password with a stored hash.
   */
  function Login(s: MemStorage, body: LoginBody, matches: (string, string) -> bool, sign: Claims -> string): (r: Response<Session>)
    reads s
    requires s.Valid()
    ensures r.Ok? <==>
      && body.email.Some? && s.GetUserByEmail(body.email.value).Some? && body.password.Some?
      && matches(body.password.value, s.GetUserByEmail(body.email.value).value.password)
    ensures r.Ok? ==> r.body.user.email == body.email.value && r.body.user.id in s.users
    ensures r.Ok? ==> r.body == Session(Public(s.GetUserByEmail(body.email.value).value),
                                        sign(ClaimsOf(s.GetUserByEmail(body.email.value).value)))
    ensures r.Ok? ==> r.body == Session(Public(s.users[r.body.user.id]), sign(ClaimsOf(s.users[r.body.user.id])))
    ensures r.Error? ==> r == Error(401, "Invalid credentials") || r == Error(500, "Server error")
    ensures r == Error(500, "Server error") <==> body.email.Some? && s.GetUserByEmail(body.email.value).Some? && body.password.None?
  {
    var user := if body.email.Some? then s.GetUserByEmail(body.email.value) else None;
    if user.None? then Error(401, "Invalid credentials")
    else if body.password.None? then Error(500, "Server error")
    else if !matches(body.password.value, user.value.password) then Error(401, "Invalid credentials")
    else Ok(Session(Public(user.value), sign(ClaimsOf(user.value))))
  }

  /** A login for an unknown email cannot be told apart from one with a wrong password. */
  lemma LoginFailuresAlike(s: MemStorage, unknown: LoginBody, wrong: LoginBody,
                           matches: (string, string) -> bool, sign: Claims -> string)
    requires s.Valid()
    requires unknown.email.Some? && forall k :: k in s.users ==> s.users[k].email != unknown.email.value
    requires wrong.email.Some? && s.GetUserByEmail(wrong.email.value).Some? && wrong.password.Some?
    requires !matches(wrong.password.value, s.GetUserByEmail(wrong.email.value).value.password)
    ensures Login(s, unknown, matches, sign) == Login(s, wrong, matches, sign) == Error(401, "Invalid credentials")
  {
  }

  /** `GET /api/auth/me`: the caller's own public record. */
  function Me(s: MemStorage, caller: Claims): (r: Response<PublicUser>)
    reads s
    requires s.Valid()
    ensures r.Ok? <==> caller.id in s.users
    ensures r.Ok? ==> r.body == Public(s.users[caller.id]) && r.body.id == caller.id
    ensures r.Error? ==> r == Error(404, "User not found")
  {
    match s.GetUser(caller.id)
    case None => Error(404, "User not found")
    case Some(user) => Ok(Public(user))
  }

  // NGO routes

  /** `GET /api/ngos/pending`: admins only. */
  function PendingNgos(s: MemStorage, caller: Claims): (r: Response<seq<Ngo>>)
    reads s
    requires s.Valid()
    ensures r.Ok? <==> caller.role == "admin"
    ensures r.Error? ==> r == Error(403, "Admin access required")
    ensures r.Ok? ==> r.body == s.GetPendingNgos()
    ensures r.Ok? ==> forall n :: n in r.body ==> !n.verified && n.id in s.ngos
  {
    if caller.role != "admin" then Error(403, "Admin access required")
    else Ok(s.GetPendingNgos())
  }

  /** `GET /api/ngos/profile`: the NGO owned by the caller, for any role. */
  function NgoProfile(s: MemStorage, caller: Claims): (r: Response<Ngo>)
    reads s
    requires s.Valid()
    ensures r.Ok? <==> exists k :: k in s.ngos && s.ngos[k].userId == caller.id
    ensures r.Ok? ==> r.body.userId == caller.id && r.body.id in s.ngos && s.ngos[r.body.id] == r.body
    ensures r.Error? ==> r == Error(404, "NGO profile not found")
  {
    match s.GetNgoByUserId(caller.id)
    case None => Error(404, "NGO profile not found")
    case Some(ngo) => Ok(ngo)
  }

  /**
   * `POST /api/ngos`: NGO users only; the owner is always the caller. The
   * body may set `verified` itself.
   */
  method CreateNgo(s: MemStorage, caller: Claims, body: NgoBody, now: Time) returns (r: Response<Ngo>)
    requires s.Valid()
    modifies s`ngos, s`ngoIdCounter
    ensures s.Valid()
    ensures caller.role != "ngo" ==> r == Error(403, "NGO role required")
    ensures caller.role == "ngo" && ParseNgo(body, caller.id).None? ==> r == Error(400, "Invalid NGO data")
    ensures r.Error? ==> s.ngos == old(s.ngos) && s.ngoIdCounter == old(s.ngoIdCounter)
    ensures r.Ok? <==> caller.role == "ngo" && ParseNgo(body, caller.id).Some?
    ensures r.Ok? ==>
      && r.body == NewNgo(old(s.ngoIdCounter), ParseNgo(body, caller.id).value, now)
      && r.body.userId == caller.id
      && s.ngos == old(s.ngos)[r.body.id := r.body]
  {
    if caller.role != "ngo" {
      return Error(403, "NGO role required");
    }
    var ngoData := ParseNgo(body, caller.id);
    if ngoData.None? {
      return Error(400, "Invalid NGO data");
    }
    var ngo := s.CreateNgo(ngoData.value, now);
    r := Ok(ngo);
  }

  /**
   * `PATCH /api/ngos/:id/verify`: admins only; sets `verified` from the
   * body and changes nothing else. An absent `verified` is written as
   * undefined, which every reader takes as false. `id` is the parsed path
   * parameter, `None` when it is not a number.
   */
  method VerifyNgo(s: MemStorage, caller: Claims, id: Option<Id>, verified: Option<bool>) returns (r: Response<Ngo>)
    requires s.Valid()
    modifies s`ngos
    ensures s.Valid()
    ensures caller.role != "admin" ==> r == Error(403, "Admin access required") && s.ngos == old(s.ngos)
    ensures caller.role == "admin" && (id.None? || id.value !in old(s.ngos)) ==>
      r == Error(404, "NGO not found") && s.ngos == old(s.ngos)
    ensures r.Ok? <==> caller.role == "admin" && id.Some? && id.value in old(s.ngos)
    ensures r.Ok? ==>
      && r.body == old(s.ngos)[id.value].(verified := verified.GetOr(false))
      && s.ngos == old(s.ngos)[id.value := r.body]
  {
    if caller.role != "admin" {
      return Error(403, "Admin access required");
    }
    if id.None? {
      return Error(404, "NGO not found");
    }
    var ngo := s.UpdateNgo(id.value, VerifiedPatch(verified.GetOr(false)));
    if ngo.None? {
      return Error(404, "NGO not found");
    }
    r := Ok(ngo.value);
  }

  // Donation routes

  /**
   * `GET /api/donations`: a donor sees their own donations, an NGO user the
   * donations assigned to their NGO (none without an NGO profile), and any
   * other role the pending ones.
   */
  function ListDonations(s: MemStorage, caller: Claims): (r: seq<Donation>)
    reads s
    requires s.Valid()
    ensures forall d :: d in r ==> d.id in s.donations && s.donations[d.id] == d
    ensures caller.role == "donor" ==> forall k :: k in s.donations ==> (s.donations[k] in r <==> s.donations[k].donorId == caller.id)
    ensures caller.role == "ngo" && s.GetNgoByUserId(caller.id).None? ==> r == []
    ensures caller.role == "ngo" && s.GetNgoByUserId(caller.id).Some? ==>
      forall k :: k in s.donations ==> (s.donations[k] in r <==> s.donations[k].ngoId == Some(s.GetNgoByUserId(caller.id).value.id))
    ensures caller.role != "donor" && caller.role != "ngo" ==>
      forall k :: k in s.donations ==> (s.donations[k] in r <==> s.donations[k].status == "pending")
  {
    if caller.role == "donor" then s.GetDonationsByDonor(caller.id)
    else if caller.role == "ngo" then
      match s.GetNgoByUserId(caller.id)
      case Some(ngo) => s.GetDonationsByNgo(ngo.id)
      case None => []
    else s.GetPendingDonations()
  }

  /** `POST /api/donations`: donors only; the donor is always the caller. */
  method CreateDonation(s: MemStorage, caller: Claims, body: DonationBody, now: Time) returns (r: Response<Donation>)
    requires s.Valid()
    modifies s`donations, s`donationIdCounter
    ensures s.Valid()
    ensures caller.role != "donor" ==> r == Error(403, "Donor role required")
    ensures caller.role == "donor" && ParseDonation(body, caller.id).None? ==> r == Error(400, "Invalid donation data")
    ensures r.Error? ==> s.donations == old(s.donations) && s.donationIdCounter == old(s.donationIdCounter)
    ensures r.Ok? <==> caller.role == "donor" && ParseDonation(body, caller.id).Some?
    ensures r.Ok? ==>
      && r.body == NewDonation(old(s.donationIdCounter), ParseDonation(body, caller.id).value, now)
      && r.body.donorId == caller.id
      && (body.status.None? ==> r.body.status == "pending")
      && s.DonationRows() == old(s.DonationRows()) + [r.body]
  {
    if caller.role != "donor" {
      return Error(403, "Donor role required");
    }
    var donationData := ParseDonation(body, caller.id);
    if donationData.None? {
      return Error(400, "Invalid donation data");
    }
    var donation := s.CreateDonation(donationData.value, now);
    r := Ok(donation);
  }

  /**
   * `PATCH /api/donations/:id`: any authenticated caller may patch any
   * column of any donation, the status included.
   */
  method PatchDonation(s: MemStorage, id: Option<Id>, patch: DonationPatch, now: Time) returns (r: Response<Donation>)
    requires s.Valid()
    modifies s`donations
    ensures s.Valid()
    ensures id.None? || id.value !in old(s.donations) ==> r == Error(404, "Donation not found") && s.donations == old(s.donations)
    ensures r.Ok? <==> id.Some? && id.value in old(s.donations)
    ensures r.Ok? ==>
      && r.body == MergeDonation(old(s.donations)[id.value], patch, now)
      && s.donations == old(s.donations)[id.value := r.body]
      && r.body.id == id.value && r.body.createdAt == old(s.donations)[id.value].createdAt
  {
    if id.None? {
      return Error(404, "Donation not found");
    }
    var donation := s.UpdateDonation(id.value, patch, now);
    if donation.None? {
      return Error(404, "Donation not found");
    }
    r := Ok(donation.value);
  }

  // Message routes

  /** `GET /api/messages/:userId`: the thread with another user; a path parameter that is not a number matches nothing. */
  function Thread(s: MemStorage, caller: Claims, other: Option<Id>): (r: seq<Message>)
    reads s
    requires s.Valid()
    ensures other.None? ==> r == []
    ensures other.Some? ==> forall m :: m in r ==> Between(m, caller.id, other.value) && m.id in s.messages
    ensures other.Some? ==> forall k :: k in s.messages && Between(s.messages[k], caller.id, other.value) ==> s.messages[k] in r
    ensures forall i, j :: 0 <= i < j < |r| ==> r[i].createdAt <= r[j].createdAt
  {
    match other
    case None => []
    case Some(u) =>
      s.ThreadIsBetween(caller.id, u);
      s.GetMessagesBetweenUsers(caller.id, u)
  }

  /**
   * `POST /api/messages`: stores the message from the caller, then pushes
   * it to the receiver's socket when one is registered and open.
   */
  method SendMessage(s: MemStorage, registry: ClientRegistry, caller: Claims, body: MessageBody, now: Time, isOpen: ConnId -> bool)
    returns (r: Response<Message>, push: Option<Push>)
    requires s.Valid()
    modifies s`messages, s`messageIdCounter
    ensures s.Valid()
    ensures ParseMessage(body, caller.id).None? ==>
      r == Error(400, "Invalid message data") && push.None? && s.messages == old(s.messages) && s.messageIdCounter == old(s.messageIdCounter)
    ensures r.Ok? <==> ParseMessage(body, caller.id).Some?
    ensures r.Ok? ==>
      && r.body == NewMessage(old(s.messageIdCounter), ParseMessage(body, caller.id).value, now)
      && r.body.senderId == caller.id
      && s.MessageRows() == old(s.MessageRows()) + [r.body]
      && push == Broadcast(registry.clients, r.body, isOpen)
  {
    var messageData := ParseMessage(body, caller.id);
    if messageData.None? {
      return Error(400, "Invalid message data"), None;
    }
    var message := s.CreateMessage(messageData.value, now);
    push := Broadcast(registry.clients, message, isOpen);
    r := Ok(message);
  }

  // Analytics

  /** The stats payload; the floating-point `totalValue` is not part of this model. */
  datatype Stats = Stats(totalDonations: nat, verifiedNgos: nat, livesImpacted: int)

  /** `donation.estimatedImpact || 0`: null and 0 both count as 0. */
  function ImpactOf(d: Donation): int {
    match d.estimatedImpact
    case Some(n) => n
    case None => 0
  }

  /** The `reduce` over `livesImpacted`, left to right. */
  function SumImpact(ds: seq<Donation>): (r: int)
    ensures (forall i :: 0 <= i < |ds| ==> ImpactOf(ds[i]) >= 0) ==> r >= 0
  {
    if ds == [] then 0 else SumImpact(ds[..|ds| - 1]) + ImpactOf(ds[|ds| - 1])
  }

  lemma {:induction false} SumImpactAppend(a: seq<Donation>, b: seq<Donation>)
    ensures SumImpact(a + b) == SumImpact(a) + SumImpact(b)
    decreases |b|
  {
    if b == [] {
      assert a + b == a;
    } else {
      assert (a + b)[..|a + b| - 1] == a + b[..|b| - 1];
      SumImpactAppend(a, b[..|b| - 1]);
    }
  }

  /** The stats over NGO and donation rows as the store lists them. */
  function ComputeStats(ngos: seq<Ngo>, donations: seq<Donation>): Stats {
    var pending := Filter(donations, IsPending);
    Stats(|pending|, |Filter(ngos, IsVerified)|, SumImpact(pending))
  }

  /** `GET /api/analytics/stats`, public: counts over the pending donations and the verified NGOs. */
  function Analytics(s: MemStorage): (r: Stats)
    reads s
    requires s.Valid()
    ensures r == ComputeStats(s.GetAllNgos(), s.DonationRows())
    ensures r.livesImpacted == SumImpact(s.GetPendingDonations())
    ensures r.totalDonations == |s.GetPendingDonations()| && r.verifiedNgos == |s.GetVerifiedNgos()|
    ensures r.totalDonations <= |s.DonationRows()| && r.verifiedNgos <= |s.GetAllNgos()|
    ensures r.totalDonations == 0 ==> r.livesImpacted == 0
    ensures (forall k :: k in s.donations ==> ImpactOf(s.donations[k]) >= 0) ==> r.livesImpacted >= 0
  {
    var pending := Filter(s.DonationRows(), IsPending);
    assert forall i :: 0 <= i < |pending| ==> pending[i] in s.DonationRows();
    RowsAreEntries(s.donations, s.donationIdCounter, DonationId);
    ComputeStats(s.GetAllNgos(), s.DonationRows())
  }

  /**
   * Adding a donation moves the stats only when it is pending: one more
   * donation, and its estimated impact added to the lives impacted.
   */
  lemma StatsAfterDonation(ngos: seq<Ngo>, donations: seq<Donation>, d: Donation)
    ensures var before := ComputeStats(ngos, donations);
      ComputeStats(ngos, donations + [d]) ==
        if IsPending(d) then Stats(before.totalDonations + 1, before.verifiedNgos, before.livesImpacted + ImpactOf(d))
        else before
  {
    FilterAppend(donations, d, IsPending);
    var pending := Filter(donations, IsPending);
    if IsPending(d) {
      assert Filter(donations + [d], IsPending) == pending + [d];
      SumImpactAppend(pending, [d]);
      assert SumImpact([d]) == ImpactOf(d) by { assert [d][..0] == []; }
    } else {
      assert Filter(donations + [d], IsPending) == pending + [] == pending;
    }
  }
}
