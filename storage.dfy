/**
 * The in-memory store of server/storage.ts (`MemStorage`): one map per
 * table, each with its own id counter that creation post-increments.
 *
 * No row is ever deleted and ids are handed out by the counters, so the
 * keys of each map are exactly 1 .. counter - 1. A JavaScript `Map`
 * iterates in insertion order, which for these maps is ascending key
 * order; `Array.from(map.values())` is therefore `Column(map, 1, counter)`.
 */
module Storage {
  import opened Wrappers
  import opened Schema
  import opened Seqs
  import opened Threads

  /** The keys of `m` are exactly `1 .. counter - 1`, and each row carries its own key as id. */
  ghost predicate Dense<V>(m: map<Id, V>, counter: Id, id: V -> Id) {
    && 1 <= counter
    && (forall k :: k in m <==> 1 <= k < counter)
    && (forall k :: k in m ==> id(m[k]) == k)
  }

  /** The rows of a dense map, in insertion order, are exactly its entries, each found under its id. */
  lemma RowsAreEntries<V>(m: map<Id, V>, counter: Id, id: V -> Id)
    requires Dense(m, counter, id)
    ensures forall k :: k in m ==> m[k] in Column(m, 1, counter)
    ensures forall x :: x in Column(m, 1, counter) ==> id(x) in m && m[id(x)] == x
  {
    var r := Column(m, 1, counter);
    forall k | k in m ensures m[k] in r {
      assert r[k - 1] == m[k];
    }
  }

  /** Inserting the next id appends exactly one row. */
  lemma RowsAppend<V>(m: map<Id, V>, counter: Id, v: V)
    requires forall k :: 1 <= k < counter ==> k in m
    requires 1 <= counter
    ensures Column(m[counter := v], 1, counter + 1) == Column(m, 1, counter) + [v]
  {
    var a, b := Column(m[counter := v], 1, counter + 1), Column(m, 1, counter) + [v];
    assert |a| == |b|;
    forall i | 0 <= i < |a| ensures a[i] == b[i] {
    }
  }

  /** Replacing the row under an existing key replaces it in place. */
  lemma RowsUpdate<V>(m: map<Id, V>, counter: Id, k: Id, v: V)
    requires forall j :: 1 <= j < counter ==> j in m
    requires 1 <= k < counter
    ensures Column(m[k := v], 1, counter) == Column(m, 1, counter)[k - 1 := v]
  {
    var a, b := Column(m[k := v], 1, counter), Column(m, 1, counter)[k - 1 := v];
    assert |a| == |b|;
    forall i | 0 <= i < |a| ensures a[i] == b[i] {
    }
  }

  /** `find` over the rows of a dense map: the matching row with the smallest id. */
  lemma FindInRows<V(!new)>(m: map<Id, V>, counter: Id, id: V -> Id, p: V -> bool)
    requires Dense(m, counter, id)
    ensures Find(Column(m, 1, counter), p).None? <==> forall k :: k in m ==> !p(m[k])
    ensures Find(Column(m, 1, counter), p).Some? ==>
      var x := Find(Column(m, 1, counter), p).value;
      p(x) && id(x) in m && m[id(x)] == x && forall k :: k in m && p(m[k]) ==> id(x) <= k
  {
    var rows := Column(m, 1, counter);
    RowsAreEntries(m, counter, id);
    match FindIndex(rows, p)
    case None =>
    case Some(i) =>
      assert id(rows[i]) == i + 1;
      forall k | k in m && p(m[k]) ensures i + 1 <= k {
        assert rows[k - 1] == m[k];
      }
  }

  /** `filter` over the rows of a dense map keeps exactly the matching entries. */
  lemma FilterRows<V(!new)>(m: map<Id, V>, counter: Id, id: V -> Id, p: V -> bool)
    requires Dense(m, counter, id)
    ensures forall k :: k in m ==> (m[k] in Filter(Column(m, 1, counter), p) <==> p(m[k]))
    ensures forall x :: x in Filter(Column(m, 1, counter), p) ==> p(x) && id(x) in m && m[id(x)] == x
  {
    RowsAreEntries(m, counter, id);
  }

  /** Sorting the matching rows of a dense map keeps exactly the matching entries. */
  lemma SortedMatches<V(!new)>(m: map<Id, V>, counter: Id, id: V -> Id, p: V -> bool, key: V -> int)
    requires Dense(m, counter, id)
    ensures var r := SortBy(Filter(Column(m, 1, counter), p), key);
      && (forall k :: k in m ==> (m[k] in r <==> p(m[k])))
      && (forall x :: x in r ==> p(x) && id(x) in m && m[id(x)] == x)
  {
    FilterRows(m, counter, id, p);
  }

  function BetweenUsers(a: Id, b: Id): Message -> bool { (m: Message) => Between(m, a, b) }

  function OfDonation(donationId: Id): DonationUpdate -> bool { (u: DonationUpdate) => u.donationId == donationId }

  function UserId(u: User): Id { u.id }
  function NgoId(n: Ngo): Id { n.id }
  function DonationId(d: Donation): Id { d.id }
  function MessageId(m: Message): Id { m.id }
  function UpdateId(u: DonationUpdate): Id { u.id }
  function UpdateTime(u: DonationUpdate): Time { u.createdAt }

  predicate IsPending(d: Donation) { d.status == DefaultStatus }

  predicate IsVerified(n: Ngo) { n.verified }

  predicate IsUnverified(n: Ngo) { !n.verified }

  const TwoDays: int := 2 * 24 * 60 * 60 * 1000

  function SampleUsers(now: Time): map<Id, User> {
    map[
      1 := User(1, "Admin User", "admin@sahyog.com", "hashed_password", "admin", now),
      2 := User(2, "John Doe", "john@example.com", "hashed_password", "donor", now),
      3 := User(3, "Priya Sharma", "priya@brightfuture.org", "hashed_password", "ngo", now)]
  }

  function SampleNgo(now: Time): Ngo {
    Ngo(1, 3, "Bright Future Foundation",
        Some("Providing education and nutrition to underprivileged children"),
        Some("Breaking the cycle of poverty through education and healthcare"),
        "Mumbai, Maharashtra", true, Some("97.5"),
        Some(["Education", "Nutrition", "Healthcare", "Child Welfare"]),
        Some("NGO/2015/BFF"), Some("https://brightfuture.org"), Some("+91-9876543210"), now)
  }

  function SampleDonation(now: Time): Donation {
    Donation(1, 2, Some(1), "Fresh Vegetable Package", Some("Organic vegetables from our farm"),
             "food", "50 meal portions", None, "in_transit", "medium", "123 Farm Road, Mumbai",
             Some("morning"), Some(50), None, now - TwoDays, now)
  }

  /** The sample tables are dense: users 1 to 3, NGO 1 and donation 1. */
  lemma SampleDataDense(now: Time)
    ensures Dense(SampleUsers(now), 4, UserId)
    ensures Dense(map[1 := SampleNgo(now)], 2, NgoId)
    ensures Dense(map[1 := SampleDonation(now)], 2, DonationId)
  {
    var us := SampleUsers(now);
    assert forall k :: k in us <==> 1 <= k < 4;
  }

  /** `markMessageAsRead` on a map of messages. */
  function MarkRead(ms: map<Id, Message>, id: Id): map<Id, Message> {
    if id in ms then ms[id := ms[id].(read := true)] else ms
  }

  /** Marking a message as read a second time changes nothing more. */
  lemma MarkReadIdempotent(ms: map<Id, Message>, id: Id)
    ensures MarkRead(MarkRead(ms, id), id) == MarkRead(ms, id)
  {
  }

  class MemStorage {
    var users: map<Id, User>
    var ngos: map<Id, Ngo>
    var donations: map<Id, Donation>
    var messages: map<Id, Message>
    var donationUpdates: map<Id, DonationUpdate>
    var userIdCounter: Id
    var ngoIdCounter: Id
    var donationIdCounter: Id
    var messageIdCounter: Id
    var updateIdCounter: Id

    ghost predicate Valid()
      reads this
    {
      && Dense(users, userIdCounter, UserId)
      && Dense(ngos, ngoIdCounter, NgoId)
      && Dense(donations, donationIdCounter, DonationId)
      && Dense(messages, messageIdCounter, MessageId)
      && Dense(donationUpdates, updateIdCounter, UpdateId)
    }

    /** `initializeSampleData`: an admin, a donor and an NGO user, their verified NGO and one donation in transit. */
    constructor (now: Time)
      ensures Valid()
      ensures users == SampleUsers(now) && userIdCounter == 4
      ensures ngos == map[1 := SampleNgo(now)] && ngoIdCounter == 2
      ensures donations == map[1 := SampleDonation(now)] && donationIdCounter == 2
      ensures messages == map[] && messageIdCounter == 1
      ensures donationUpdates == map[] && updateIdCounter == 1
    {
      users := SampleUsers(now);
      userIdCounter := 4;
      ngos := map[1 := SampleNgo(now)];
      ngoIdCounter := 2;
      donations := map[1 := SampleDonation(now)];
      donationIdCounter := 2;
      messages := map[];
      messageIdCounter := 1;
      donationUpdates := map[];
      updateIdCounter := 1;
      SampleDataDense(now);
    }

    // Rows in insertion order: `Array.from(this.<table>.values())`.

    function UserRows(): seq<User> reads this requires Valid() { Column(users, 1, userIdCounter) }
    function NgoRows(): seq<Ngo> reads this requires Valid() { Column(ngos, 1, ngoIdCounter) }
    function DonationRows(): seq<Donation> reads this requires Valid() { Column(donations, 1, donationIdCounter) }
    function MessageRows(): seq<Message> reads this requires Valid() { Column(messages, 1, messageIdCounter) }
    function UpdateRows(): seq<DonationUpdate> reads this requires Valid() { Column(donationUpdates, 1, updateIdCounter) }

    // User operations

    function GetUser(id: Id): (r: Option<User>)
      reads this
      requires Valid()
      ensures r.Some? <==> id in users
      ensures r.Some? ==> r.value == users[id] && r.value.id == id
    {
      if id in users then Some(users[id]) else None
    }

    /** The first user, in insertion order, with this email. */
    function GetUserByEmail(email: string): (r: Option<User>)
      reads this
      requires Valid()
      ensures r.None? <==> forall k :: k in users ==> users[k].email != email
      ensures r.Some? ==> r.value.email == email && r.value.id in users && users[r.value.id] == r.value
      ensures r.Some? ==> forall k :: k in users && users[k].email == email ==> r.value.id <= k
    {
      FindInRows(users, userIdCounter, UserId, (u: User) => u.email == email);
      Find(UserRows(), (u: User) => u.email == email)
    }

    method CreateUser(u: InsertUser, now: Time) returns (user: User)
      requires Valid()
      modifies this`users, this`userIdCounter
      ensures Valid()
      ensures user == NewUser(old(userIdCounter), u, now) && user.id !in old(users)
      ensures userIdCounter == old(userIdCounter) + 1
      ensures users == old(users)[user.id := user]
      ensures forall k :: k in old(users) ==> k < user.id
      ensures UserRows() == old(UserRows()) + [user]
    {
      user := NewUser(userIdCounter, u, now);
      userIdCounter := userIdCounter + 1;
      users := users[user.id := user];
      RowsAppend(old(users), old(userIdCounter), user);
    }

    method UpdateUser(id: Id, p: UserPatch) returns (r: Option<User>)
      requires Valid()
      modifies this`users
      ensures Valid()
      ensures id !in old(users) ==> r.None? && users == old(users)
      ensures id in old(users) ==> r == Some(MergeUser(old(users)[id], p)) && users == old(users)[id := r.value]
    {
      if id !in users {
        return None;
      }
      var updated := MergeUser(users[id], p);
      users := users[id := updated];
      r := Some(updated);
    }

    // NGO operations

    function GetNgo(id: Id): (r: Option<Ngo>)
      reads this
      requires Valid()
      ensures r.Some? <==> id in ngos
      ensures r.Some? ==> r.value == ngos[id] && r.value.id == id
    {
      if id in ngos then Some(ngos[id]) else None
    }

    /** The first NGO, in insertion order, owned by this user. */
    function GetNgoByUserId(userId: Id): (r: Option<Ngo>)
      reads this
      requires Valid()
      ensures r.None? <==> forall k :: k in ngos ==> ngos[k].userId != userId
      ensures r.Some? ==> r.value.userId == userId && r.value.id in ngos && ngos[r.value.id] == r.value
      ensures r.Some? ==> forall k :: k in ngos && ngos[k].userId == userId ==> r.value.id <= k
    {
      FindInRows(ngos, ngoIdCounter, NgoId, (n: Ngo) => n.userId == userId);
      Find(NgoRows(), (n: Ngo) => n.userId == userId)
    }

    function GetAllNgos(): (r: seq<Ngo>)
      reads this
      requires Valid()
      ensures forall k :: k in ngos ==> ngos[k] in r
      ensures forall n :: n in r ==> n.id in ngos && ngos[n.id] == n
    {
      RowsAreEntries(ngos, ngoIdCounter, NgoId);
      NgoRows()
    }

    function GetVerifiedNgos(): (r: seq<Ngo>)
      reads this
      requires Valid()
      ensures forall k :: k in ngos ==> (ngos[k] in r <==> ngos[k].verified)
      ensures forall n :: n in r ==> n.verified && n.id in ngos && ngos[n.id] == n
    {
      FilterRows(ngos, ngoIdCounter, NgoId, IsVerified);
      Filter(NgoRows(), IsVerified)
    }

    function GetPendingNgos(): (r: seq<Ngo>)
      reads this
      requires Valid()
      ensures forall k :: k in ngos ==> (ngos[k] in r <==> !ngos[k].verified)
      ensures forall n :: n in r ==> !n.verified && n.id in ngos && ngos[n.id] == n
    {
      FilterRows(ngos, ngoIdCounter, NgoId, IsUnverified);
      Filter(NgoRows(), IsUnverified)
    }

    /** The verified and the pending NGOs split the list of all NGOs. */
    lemma NgoListsPartition()
      requires Valid()
      ensures multiset(GetVerifiedNgos()) + multiset(GetPendingNgos()) == multiset(GetAllNgos())
      ensures |GetVerifiedNgos()| + |GetPendingNgos()| == |GetAllNgos()|
      ensures forall n :: !(n in GetVerifiedNgos() && n in GetPendingNgos())
    {
      FilterPartition(NgoRows(), IsVerified, IsUnverified);
      assert |multiset(GetVerifiedNgos())| + |multiset(GetPendingNgos())| == |multiset(GetAllNgos())|;
    }

    method CreateNgo(n: InsertNgo, now: Time) returns (ngo: Ngo)
      requires Valid()
      modifies this`ngos, this`ngoIdCounter
      ensures Valid()
      ensures ngo == NewNgo(old(ngoIdCounter), n, now) && ngo.id !in old(ngos)
      ensures ngoIdCounter == old(ngoIdCounter) + 1
      ensures ngos == old(ngos)[ngo.id := ngo]
      ensures forall k :: k in old(ngos) ==> k < ngo.id
      ensures NgoRows() == old(NgoRows()) + [ngo]
    {
      ngo := NewNgo(ngoIdCounter, n, now);
      ngoIdCounter := ngoIdCounter + 1;
      ngos := ngos[ngo.id := ngo];
      RowsAppend(old(ngos), old(ngoIdCounter), ngo);
    }

    method UpdateNgo(id: Id, p: NgoPatch) returns (r: Option<Ngo>)
      requires Valid()
      modifies this`ngos
      ensures Valid()
      ensures id !in old(ngos) ==> r.None? && ngos == old(ngos)
      ensures id in old(ngos) ==> r == Some(MergeNgo(old(ngos)[id], p)) && ngos == old(ngos)[id := r.value]
    {
      if id !in ngos {
        return None;
      }
      var updated := MergeNgo(ngos[id], p);
      ngos := ngos[id := updated];
      r := Some(updated);
    }

    // Donation operations

    function GetDonation(id: Id): (r: Option<Donation>)
      reads this
      requires Valid()
      ensures r.Some? <==> id in donations
      ensures r.Some? ==> r.value == donations[id] && r.value.id == id
    {
      if id in donations then Some(donations[id]) else None
    }

    function GetDonationsByDonor(donorId: Id): (r: seq<Donation>)
      reads this
      requires Valid()
      ensures forall k :: k in donations ==> (donations[k] in r <==> donations[k].donorId == donorId)
      ensures forall d :: d in r ==> d.donorId == donorId && d.id in donations && donations[d.id] == d
    {
      FilterRows(donations, donationIdCounter, DonationId, (d: Donation) => d.donorId == donorId);
      Filter(DonationRows(), (d: Donation) => d.donorId == donorId)
    }

    /** `donation.ngoId === ngoId`: a donation without an NGO matches no id. */
    function GetDonationsByNgo(ngoId: Id): (r: seq<Donation>)
      reads this
      requires Valid()
      ensures forall k :: k in donations ==> (donations[k] in r <==> donations[k].ngoId == Some(ngoId))
      ensures forall d :: d in r ==> d.ngoId == Some(ngoId) && d.id in donations && donations[d.id] == d
    {
      FilterRows(donations, donationIdCounter, DonationId, (d: Donation) => d.ngoId == Some(ngoId));
      Filter(DonationRows(), (d: Donation) => d.ngoId == Some(ngoId))
    }

    function GetPendingDonations(): (r: seq<Donation>)
      reads this
      requires Valid()
      ensures forall k :: k in donations ==> (donations[k] in r <==> donations[k].status == "pending")
      ensures forall d :: d in r ==> d.status == "pending" && d.id in donations && donations[d.id] == d
    {
      FilterRows(donations, donationIdCounter, DonationId, IsPending);
      Filter(DonationRows(), IsPending)
    }

    /** The location is ignored: "nearby" donations are the pending ones. */
    function GetNearbyDonations(location: Option<string>): (r: seq<Donation>)
      reads this
      requires Valid()
      ensures r == GetPendingDonations()
    {
      Filter(DonationRows(), IsPending)
    }

    method CreateDonation(d: InsertDonation, now: Time) returns (donation: Donation)
      requires Valid()
      modifies this`donations, this`donationIdCounter
      ensures Valid()
      ensures donation == NewDonation(old(donationIdCounter), d, now) && donation.id !in old(donations)
      ensures donationIdCounter == old(donationIdCounter) + 1
      ensures donations == old(donations)[donation.id := donation]
      ensures forall k :: k in old(donations) ==> k < donation.id
      ensures DonationRows() == old(DonationRows()) + [donation]
    {
      donation := NewDonation(donationIdCounter, d, now);
      donationIdCounter := donationIdCounter + 1;
      donations := donations[donation.id := donation];
      RowsAppend(old(donations), old(donationIdCounter), donation);
    }

    /** `{ ...donation, ...patch, updatedAt: now }`; any column may be patched. */
    method UpdateDonation(id: Id, p: DonationPatch, now: Time) returns (r: Option<Donation>)
      requires Valid()
      modifies this`donations
      ensures Valid()
      ensures id !in old(donations) ==> r.None? && donations == old(donations)
      ensures id in old(donations) ==>
        r == Some(MergeDonation(old(donations)[id], p, now)) && donations == old(donations)[id := r.value]
      ensures id in old(donations) ==> DonationRows() == old(DonationRows())[id - 1 := r.value]
    {
      if id !in donations {
        return None;
      }
      var updated := MergeDonation(donations[id], p, now);
      donations := donations[id := updated];
      r := Some(updated);
      RowsUpdate(old(donations), donationIdCounter, id, updated);
    }

    // Message operations

    function GetMessage(id: Id): (r: Option<Message>)
      reads this
      requires Valid()
      ensures r.Some? <==> id in messages
      ensures r.Some? ==> r.value == messages[id] && r.value.id == id
    {
      if id in messages then Some(messages[id]) else None
    }

    /** The thread between two users, oldest first. */
    function GetMessagesBetweenUsers(user1Id: Id, user2Id: Id): (r: seq<Message>)
      reads this
      requires Valid()
      ensures forall i, j :: 0 <= i < j < |r| ==> r[i].createdAt <= r[j].createdAt
    {
      SortBy(Filter(MessageRows(), BetweenUsers(user1Id, user2Id)), CreatedAt)
    }

    /** The thread holds exactly the stored messages between the two users. */
    lemma ThreadIsBetween(user1Id: Id, user2Id: Id)
      requires Valid()
      ensures forall k :: k in messages ==>
        (messages[k] in GetMessagesBetweenUsers(user1Id, user2Id) <==> Between(messages[k], user1Id, user2Id))
      ensures forall m :: m in GetMessagesBetweenUsers(user1Id, user2Id) ==>
        Between(m, user1Id, user2Id) && m.id in messages && messages[m.id] == m
    {
      SortedMatches(messages, messageIdCounter, MessageId, BetweenUsers(user1Id, user2Id), CreatedAt);
    }

    /** The thread is the same whichever of the two users asks. */
    lemma MessagesBetweenSymmetric(a: Id, b: Id)
      requires Valid()
      ensures GetMessagesBetweenUsers(a, b) == GetMessagesBetweenUsers(b, a)
    {
      FilterExtensional(MessageRows(), BetweenUsers(a, b), BetweenUsers(b, a));
    }

    /** The messages `userId` sent or received, in insertion order. */
    function UserMessages(userId: Id): (r: seq<Message>)
      reads this
      requires Valid()
      ensures forall k :: k in messages ==> (messages[k] in r <==> Involves(messages[k], userId))
      ensures forall m :: m in r ==> Involves(m, userId) && m.id in messages && messages[m.id] == m
    {
      FilterRows(messages, messageIdCounter, MessageId, (m: Message) => Involves(m, userId));
      Filter(MessageRows(), (m: Message) => Involves(m, userId))
    }

    /**
     * The newest message with each partner of `userId`, newest first; on a
     * tie the message inserted first is kept, because only a strictly newer
     * message replaces the one held.
     */
    method GetConversations(userId: Id) returns (r: seq<Message>)
      requires Valid()
      ensures r == Conversations(UserMessages(userId), userId)
      ensures forall i, j :: 0 <= i < j < |r| ==> r[i].createdAt >= r[j].createdAt
      ensures forall i, j :: 0 <= i < j < |r| ==> Partner(r[i], userId) != Partner(r[j], userId)
      ensures forall h :: h in r ==> Involves(h, userId) && h.id in messages && messages[h.id] == h
      ensures forall k :: k in messages && Involves(messages[k], userId) ==>
        exists h :: h in r && Partner(h, userId) == Partner(messages[k], userId)
    {
      var userMessages := UserMessages(userId);
      var conversations: map<Id, Message> := map[];
      var order: seq<Id> := [];
      var i := 0;
      assert userMessages[..i] == [];
      while i < |userMessages|
        invariant 0 <= i <= |userMessages|
        invariant Latest(conversations, order) == LatestPerPartner(userMessages[..i], userId)
      {
        var message := userMessages[i];
        var partnerId := if message.senderId == userId then message.receiverId else message.senderId;
        if partnerId !in conversations || message.createdAt > conversations[partnerId].createdAt {
          if partnerId !in conversations {
            order := order + [partnerId];
          }
          conversations := conversations[partnerId := message];
        }
        LatestPerPartnerSnoc(userMessages, i, userId);
        i := i + 1;
      }
      assert userMessages[..i] == userMessages;
      LatestPerPartnerKeys(userMessages, userId);
      r := SortBy(Gather(conversations, order), NewestFirst);
      assert r == Conversations(userMessages, userId);
      ConversationsAreStored(userId);
      ConversationsCoverStore(userId);
      ConversationsOnePerPartner(userMessages, userId);
      ConversationsNewestFirst(userMessages, userId);
    }

    /** Every conversation entry is a stored message of the user. */
    lemma ConversationsAreStored(userId: Id)
      requires Valid()
      ensures forall h :: h in Conversations(UserMessages(userId), userId) ==>
        Involves(h, userId) && h.id in messages && messages[h.id] == h
    {
      ConversationsAreLatest(UserMessages(userId), userId);
    }

    /** Every partner of a stored message of the user has a conversation entry. */
    lemma ConversationsCoverStore(userId: Id)
      requires Valid()
      ensures forall k :: k in messages && Involves(messages[k], userId) ==>
        exists h :: h in Conversations(UserMessages(userId), userId) && Partner(h, userId) == Partner(messages[k], userId)
    {
      ConversationsCoverPartners(UserMessages(userId), userId);
    }

    method CreateMessage(m: InsertMessage, now: Time) returns (message: Message)
      requires Valid()
      modifies this`messages, this`messageIdCounter
      ensures Valid()
      ensures message == NewMessage(old(messageIdCounter), m, now) && message.id !in old(messages)
      ensures messageIdCounter == old(messageIdCounter) + 1
      ensures messages == old(messages)[message.id := message]
      ensures forall k :: k in old(messages) ==> k < message.id
      ensures MessageRows() == old(MessageRows()) + [message]
    {
      message := NewMessage(messageIdCounter, m, now);
      messageIdCounter := messageIdCounter + 1;
      messages := messages[message.id := message];
      RowsAppend(old(messages), old(messageIdCounter), message);
    }

    /** Sets `read` on the stored message; an unknown id changes nothing. */
    method MarkMessageAsRead(id: Id)
      requires Valid()
      modifies this`messages
      ensures Valid()
      ensures messages == MarkRead(old(messages), id)
      ensures id in messages ==> messages[id].read
    {
      if id in messages {
        var message := messages[id];
        message := message.(read := true);
        messages := messages[id := message];
      }
    }

    // Donation update operations

    /** The updates of one donation, oldest first. */
    function GetDonationUpdates(donationId: Id): (r: seq<DonationUpdate>)
      reads this
      requires Valid()
      ensures forall i, j :: 0 <= i < j < |r| ==> r[i].createdAt <= r[j].createdAt
    {
      SortBy(Filter(UpdateRows(), OfDonation(donationId)), UpdateTime)
    }

    /** The listed updates are exactly the stored updates of that donation. */
    lemma UpdatesOfDonation(donationId: Id)
      requires Valid()
      ensures forall k :: k in donationUpdates ==>
        (donationUpdates[k] in GetDonationUpdates(donationId) <==> donationUpdates[k].donationId == donationId)
      ensures forall u :: u in GetDonationUpdates(donationId) ==>
        u.donationId == donationId && u.id in donationUpdates && donationUpdates[u.id] == u
    {
      SortedMatches(donationUpdates, updateIdCounter, UpdateId, OfDonation(donationId), UpdateTime);
    }

    method CreateDonationUpdate(u: InsertDonationUpdate, now: Time) returns (update: DonationUpdate)
      requires Valid()
      modifies this`donationUpdates, this`updateIdCounter
      ensures Valid()
      ensures update == NewDonationUpdate(old(updateIdCounter), u, now) && update.id !in old(donationUpdates)
      ensures updateIdCounter == old(updateIdCounter) + 1
      ensures donationUpdates == old(donationUpdates)[update.id := update]
      ensures forall k :: k in old(donationUpdates) ==> k < update.id
      ensures UpdateRows() == old(UpdateRows()) + [update]
    {
      update := NewDonationUpdate(updateIdCounter, u, now);
      updateIdCounter := updateIdCounter + 1;
      donationUpdates := donationUpdates[update.id := update];
      RowsAppend(old(donationUpdates), old(updateIdCounter), update);
    }
  }
}
