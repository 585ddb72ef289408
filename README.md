# SahyogConnect in Dafny

SahyogConnect connects donors with NGOs. Donors post donations of food,
clothes or money. NGOs are verified by an admin, pick up donations and
track them to delivery. Users message each other, and new messages are
pushed over a WebSocket. This project models the core of that system and
proves properties of the model:

- the in-memory store `MemStorage` of `server/storage.ts`: its five tables,
  id counters, queries, conversation list and sample data;
- the HTTP handlers of `server/routes.ts`: the bearer-token gate, the role
  gates, request parsing against the insert schemas, the analytics counts,
  and the WebSocket registry with its broadcast;
- the record shapes, value domains and column defaults of `shared/schema.ts`;
- the pure client-side rules: the tracking page's filter, progress and
  timeline, the three form validators, the post-signup redirect, the
  navigation table and the initials helpers.

## Layout

| file | module | what it holds |
|---|---|---|
| `wrappers.dfy` | `Wrappers` | `Option` |
| `seqs.dfy` | `Seqs` | `filter`, `find`, `findIndex` and a stable `sort` by an integer key, with their lemmas |
| `text.dfy` | `Text` | `indexOf`, `split`/`join` on one character, `toUpperCase`, `slice`/`substring` |
| `schema.dfy` | `Schema` | records, insert records, partial records (patches), domains, defaults, row builders, shallow merges |
| `threads.dfy` | `Threads` | the reference definition of the conversation list |
| `storage.dfy` | `Storage` | class `MemStorage` |
| `auth.dfy` | `Auth` | `authenticateToken` |
| `relay.dfy` | `Relay` | classes `ClientRegistry` and `Connection`, `broadcastMessage` |
| `routes.dfy` | `Routes` | the HTTP handlers and analytics |
| `track_donations.dfy` | `TrackDonations` | the donor's tracking page |
| `add_donation.dfy` | `AddDonation` | the donation form |
| `signup_page.dfy` | `SignupPage` | the sign-up form and redirect |
| `ngo_profile.dfy` | `NgoProfilePage` | the NGO profile form and avatar text |
| `navbar.dfy` | `Navbar` | navigation links and user initials |

## Modelling choices

- **Store.** `MemStorage` is a class with one `map<Id, Record>` field per
  table and one counter per table. Creation post-increments the counter.
  Nothing is ever deleted, so `Valid()` states that each map's keys are
  exactly `1 .. counter - 1` and that every row carries its key as `id`.
  A JavaScript `Map` iterates in insertion order, so under this invariant
  `Array.from(map.values())` is the rows in ascending id order (`UserRows()`
  and the like). Every query is stated against those rows.
- **Ids and time.** Ids and timestamps are integers (timestamps in
  milliseconds). Each operation that reads the clock takes the current time
  `now` as a parameter.
- **Defaults.** The column defaults of `shared/schema.ts` are applied when
  a row is built: status "pending", urgency "medium", `verified` false,
  `impactScore` "0", `messageType` "text", `read` false. In insert records
  a defaulted column is an `Option`, and `None` takes the default. This is
  an assumption about the schema library; "Left out" says what rests on it.
- **Nullable booleans.** `verified` and `read` are stored as `bool`. Every
  reader in the source tests them for truthiness, so undefined and null
  read as false.
- **Renamed fields.** The donation column `type` is called `kind`, and a
  navigation link's `label` is called `caption`. Both words are reserved
  in Dafny.
- **Requests.** A request body is a record of optional fields. A field the
  client left out or sent as null is `None`. Parsing with an insert schema
  is the check that every required column is present. The fields that
  handlers force (`userId`, `donorId`, `senderId`) are not in the body
  records at all: the caller's id always wins. A path parameter read with
  `parseInt` is an `Option<Id>`, where `None` stands for `NaN`.
- **Outside code.** Outside code enters as function parameters:
  - `verify`: token signature and expiry checking;
  - `sign`: token issuance;
  - `hash`: bcrypt hashing;
  - `matches`: bcrypt comparison;
  - `isOpen`: a socket's `readyState`;
  - `isEmail` and `isUrl`: zod's format checks;
  - `formatDate`: locale date formatting.
- **Sockets.** A socket is a number (`ConnId`). A message pushed to a
  client is returned as a `Push` value.
- **Conversations.** `getConversations` is a method whose loop builds the
  partner table. It is proved equal to `Threads.Conversations`, a fold that
  records the order in which partners were first met, because that is the
  order in which a JavaScript `Map` lists them (`Threads.LatestPerPartnerOrder`). Both then sort newest first.
  The lemmas in `Threads` state what that list is:
  - one message per partner;
  - every partner covered;
  - each message is the newest with its partner, and the first inserted
    one on a tie;
  - the list is ordered newest first.

## Model

| member | source | states |
|---|---|---|
| `Storage.MemStorage.constructor` | server/storage.ts:80-154 | the sample data: admin, donor and NGO users with ids 1–3, their verified NGO with id 1, one in-transit donation created two days before `now`, empty message and update tables, counters just past the sample rows |
| `Storage.MemStorage.GetUser` | server/storage.ts:157-159 | the user stored under the id, or nothing exactly when the id is absent |
| `Storage.MemStorage.GetUserByEmail` | server/storage.ts:161-163 | nothing exactly when no user has the email; otherwise a stored user with it, the earliest inserted |
| `Storage.MemStorage.CreateUser` | server/storage.ts:165-173 | the new user takes the pre-call counter as id, which is fresh and above every existing id; the counter rises by one; the user is appended to the rows |
| `Storage.MemStorage.UpdateUser` | server/storage.ts:175-182 | an unknown id changes nothing; otherwise the shallow merge replaces that user only |
| `Storage.MemStorage.GetNgo` | server/storage.ts:185-187 | the NGO stored under the id, or nothing exactly when the id is absent |
| `Storage.MemStorage.GetNgoByUserId` | server/storage.ts:189-191 | nothing exactly when no NGO belongs to the user; otherwise the earliest inserted NGO of that user |
| `Storage.MemStorage.GetAllNgos` | server/storage.ts:193-195 | exactly the stored NGOs |
| `Storage.MemStorage.GetVerifiedNgos` | server/storage.ts:197-199 | exactly the stored NGOs that are verified |
| `Storage.MemStorage.GetPendingNgos` | server/storage.ts:201-203 | exactly the stored NGOs that are not verified |
| `Storage.MemStorage.NgoListsPartition` | server/storage.ts:193-203 | verified and pending NGOs are disjoint and together as many as all NGOs |
| `Storage.MemStorage.CreateNgo` | server/storage.ts:205-213 | fresh id from the counter, counter + 1, appended row; the row is `{ ...insert, id, createdAt }` as `Schema.NewNgo` builds it |
| `Storage.MemStorage.UpdateNgo` | server/storage.ts:215-222 | an unknown id changes nothing; otherwise the shallow merge replaces that NGO only |
| `Storage.MemStorage.GetDonation` | server/storage.ts:225-227 | the donation stored under the id, or nothing exactly when the id is absent |
| `Storage.MemStorage.GetDonationsByDonor` | server/storage.ts:229-231 | exactly the stored donations of that donor |
| `Storage.MemStorage.GetDonationsByNgo` | server/storage.ts:233-235 | exactly the stored donations assigned to that NGO; a donation without an NGO matches no id |
| `Storage.MemStorage.GetNearbyDonations` | server/storage.ts:237-239 | the location is ignored: the result is the pending donations |
| `Storage.MemStorage.GetPendingDonations` | server/storage.ts:241-243 | exactly the stored donations whose status is "pending" |
| `Storage.MemStorage.CreateDonation` | server/storage.ts:245-254 | fresh id from the counter, counter + 1, row appended; the row is `{ ...insert, id, createdAt, updatedAt }` as `Schema.NewDonation` builds it, with both times equal |
| `Storage.MemStorage.UpdateDonation` | server/storage.ts:256-263 | an unknown id changes nothing; otherwise only that donation changes: `id` and `createdAt` are kept, the supplied fields overwrite, `updatedAt` becomes `now`, and it stays in its place in the rows |
| `Storage.MemStorage.GetMessage` | server/storage.ts:266-268 | the message stored under the id, or nothing exactly when the id is absent |
| `Storage.MemStorage.GetMessagesBetweenUsers` | server/storage.ts:270-277 | the thread is ordered oldest first |
| `Storage.MemStorage.ThreadIsBetween` | server/storage.ts:270-277 | the thread holds exactly the stored messages between the two users, in either direction |
| `Storage.MemStorage.MessagesBetweenSymmetric` | server/storage.ts:270-277 | the thread is the same whichever of the two users asks |
| `Storage.MemStorage.UserMessages` | server/storage.ts:280-281 | exactly the stored messages the user sent or received |
| `Storage.MemStorage.GetConversations` | server/storage.ts:279-297 | equals the reference fold `Threads.Conversations`, whose entries `Threads.ConversationsAreLatest` shows to be the newest per partner (the first inserted on a tie); stored messages of the user, one per partner, every partner covered, newest first |
| `Storage.MemStorage.ConversationsAreStored` | server/storage.ts:279-282 | every conversation entry is a stored message the user sent or received |
| `Storage.MemStorage.ConversationsCoverStore` | server/storage.ts:279-297 | every partner of a stored message of the user has an entry |
| `Storage.MemStorage.CreateMessage` | server/storage.ts:299-307 | fresh id from the counter, counter + 1, row appended; the row is `{ ...insert, id, createdAt }` as `Schema.NewMessage` builds it |
| `Storage.MemStorage.MarkMessageAsRead` | server/storage.ts:309-315 | only the `read` flag of that message becomes true; an unknown id changes nothing |
| `Storage.MarkReadIdempotent` | server/storage.ts:309-315 | marking a message read twice is the same as once |
| `Storage.MemStorage.GetDonationUpdates` | server/storage.ts:318-322 | the updates are ordered oldest first |
| `Storage.MemStorage.UpdatesOfDonation` | server/storage.ts:318-322 | the listed updates are exactly the stored updates of that donation |
| `Storage.MemStorage.CreateDonationUpdate` | server/storage.ts:324-332 | fresh id from the counter, counter + 1, row appended |
| `Storage.FindInRows` | server/storage.ts:161-163 | `find` over the rows of a table returns the matching row with the smallest id, and nothing exactly when no row matches |
| `Storage.RowsAppend` | server/storage.ts:165-173 | storing a row under the next id appends it to the rows listed in insertion order |
| `Threads.LatestPerPartnerKeys` | server/storage.ts:284-295 | the partner table holds an entry exactly for each partner met, and lists its keys without repeats |
| `Threads.LatestPerPartnerOrder` | server/storage.ts:284-293 | the partner table lists its keys in the order in which the user first exchanged a message with each partner |
| `Threads.LatestPerPartnerValues` | server/storage.ts:288-295 | each entry is a message with that partner, newer than or as new as all others with that partner, and strictly newer than those inserted before it |
| `Threads.Heads` | server/storage.ts:295 | `Array.from(conversations.values())`: one message per key of the partner table, the i-th with the i-th partner |
| `Threads.HeadsInMeetingOrder` | server/storage.ts:295 | before sorting, the summaries follow the order in which their partners were first met |
| `Threads.ConversationsAreLatest` | server/storage.ts:279-297 | every conversation entry is the first-inserted newest message with its partner |
| `Threads.ConversationsOnePerPartner` | server/storage.ts:279-297 | no two entries share a partner |
| `Threads.ConversationsCoverPartners` | server/storage.ts:279-297 | every partner the user exchanged a message with has an entry |
| `Threads.ConversationsNewestFirst` | server/storage.ts:296-297 | entries are ordered by `createdAt`, newest first |
| `Seqs.Filter` | server/storage.ts:229-231 | `filter` keeps exactly the elements that pass, in order, and no more of each than there were |
| `Seqs.FilterPartition` | server/storage.ts:197-203 | filtering by a predicate and by its negation splits a sequence in two: together the two results hold each element exactly as often as the input |
| `Seqs.FilterAppend` | server/routes.ts:305-312 | filtering distributes over appending an element |
| `Seqs.FilterKeepsAll` | client/src/pages/donor/track-donations.tsx:21-25 | a filter every element passes returns the sequence unchanged |
| `Seqs.FindIndex` | server/storage.ts:161-163 | `findIndex`: the first index whose element passes, nothing when none does |
| `Seqs.Find` | server/storage.ts:189-191 | `find`: the first element that passes, nothing exactly when none does |
| `Seqs.SortBy` | server/storage.ts:270-277 | `sort` by a numeric key: ordered by the key and a permutation of the input |
| `Seqs.SortByDistinct` | server/storage.ts:296-297 | sorting a sequence without repeats yields one without repeats |
| `Schema.NewUser` | server/storage.ts:165-173 | `{ ...insert, id, createdAt }`: the insert fields unchanged, the given id and time |
| `Schema.NewNgo` | shared/schema.ts:14-28 | every insert field is carried into the row; `verified` true only when the insert says true; `impactScore` defaults to "0" |
| `Schema.NewDonation` | shared/schema.ts:30-47 | every insert field is carried into the row; status defaults to "pending", urgency to "medium"; `createdAt` = `updatedAt` = now |
| `Schema.NewMessage` | shared/schema.ts:49-58 | sender, receiver, donation and content carried into the row; `messageType` defaults to "text"; `read` true only when the insert says true |
| `Schema.NewDonationUpdate` | shared/schema.ts:60-67 | the insert fields unchanged, the given id and time |
| `Schema.MergeUser` | server/storage.ts:179 | `{ ...user, ...patch }`: each of name, email, password and role is the patch's when it has one, else the old one; `id` and `createdAt` kept; the empty patch changes nothing |
| `Schema.MergeNgo` | server/storage.ts:219 | `{ ...ngo, ...patch }`: each of the eleven insert columns is the patch's when it has one, else the old one; `id` and `createdAt` kept |
| `Schema.MergeDonation` | server/storage.ts:260 | each of the thirteen insert columns is the patch's when it has one, else the old one; keeps `id` and `createdAt`, stamps `updatedAt` |
| `Schema.MergeEmptyPatch` | server/storage.ts:260 | merging the empty patch only refreshes `updatedAt` |
| `Schema.MergeIdempotent` | server/storage.ts:260 | merging the same patch twice equals merging it once at the later time |
| `Schema.NewDonationDefaultsInDomain` | shared/schema.ts:39-40 | defaulted status and urgency lie in their documented domains |
| `Text.IndexOf` | server/routes.ts:14 | the first position of the character, nothing exactly when it does not occur |
| `Text.Split` | server/routes.ts:14 | `split` yields at least one piece and no piece contains the separator |
| `Text.JoinSplit` | server/routes.ts:14 | joining the pieces of a split gives back the string |
| `Text.SplitJoin` | server/routes.ts:14 | splitting a join of separator-free words gives back the words |
| `Text.SplitSecondField` | server/routes.ts:14 | a string with two or more fields is the first field, a separator, the second field, and either nothing or a separator and the other fields |
| `Text.ToUpper` | client/src/pages/ngo/profile.tsx:149 | same length, each character upper-cased |
| `Text.UpperPrefix` | client/src/pages/ngo/profile.tsx:149 | upper-casing and taking a prefix commute |
| `Auth.BearerToken` | server/routes.ts:13-14 | a token is non-empty, has no space, and is the second space-separated field of the header; no header gives no token |
| `Auth.SecondFieldIsToken` | server/routes.ts:13-14 | conversely, a header whose second space-separated field is a non-empty token yields exactly that token |
| `Auth.BearerRoundTrip` | server/routes.ts:13-14 | the header `Bearer <token>` yields the token back |
| `Auth.Authenticate` | server/routes.ts:12-27 | 401 "Access token required" without a token, 403 "Invalid token" when it fails verification, otherwise the decoded caller |
| `Relay.ClientRegistry.constructor` | server/routes.ts:332 | the registry starts empty |
| `Relay.Connection.constructor` | server/routes.ts:334-335 | a new connection has no user |
| `Relay.Connection.OnMessage` | server/routes.ts:337-356 | a verified `auth` frame registers this socket for the user, replacing any earlier one, and answers `auth_success`; a failed one changes nothing and answers `auth_error`; other frames are ignored |
| `Relay.Connection.OnClose` | server/routes.ts:358-362 | removes the user's entry whatever socket it holds; an unauthenticated connection (or user id 0) removes nothing |
| `Relay.Broadcast` | server/routes.ts:366-374 | a `new_message` push to the receiver's socket exactly when one is registered and open, otherwise nothing |
| `Relay.BroadcastOnlyToReceiver` | server/routes.ts:366-374 | when no socket is registered under two user ids, no registered user other than the receiver gets the push; the source does not guarantee that premise, since a connection that authenticates twice stays registered under both ids |
| `Relay.CloseOfReplacedSocket` | server/routes.ts:341-362 | a user who connects twice and closes the first socket is left unregistered while the second is still open |
| `Routes.ParseUser` | server/routes.ts:33 | parsing succeeds exactly when name, email, password and role are all present |
| `Routes.ParseNgo` | server/routes.ts:163 | parsing succeeds exactly when organization name and location are present; the owner is the caller |
| `Routes.ParseDonation` | server/routes.ts:234-237 | parsing succeeds exactly when title, type, quantity and pickup address are present; the donor is the caller |
| `Routes.ParseMessage` | server/routes.ts:287-290 | parsing succeeds exactly when receiver and content are present; the sender is the caller |
| `Routes.Signup` | server/routes.ts:31-65 | 400 "Invalid user data" or 400 "User already exists" create nothing; otherwise exactly one user with the hashed password is created and returned with a token; unique emails stay unique across requests that do not overlap |
| `Routes.Login` | server/routes.ts:67-98 | succeeds exactly when the email's first user exists and the password matches, and then the session is for that same user, whose password was checked; every failure is 401 "Invalid credentials", except 500 when the password is missing for a known email |
| `Routes.LoginFailuresAlike` | server/routes.ts:72-81 | an unknown email and a wrong password give the same response |
| `Routes.Me` | server/routes.ts:100-117 | the caller's public record, or 404 "User not found" exactly when it is absent |
| `Routes.PendingNgos` | server/routes.ts:130-142 | 403 "Admin access required" exactly for non-admins; otherwise the body is exactly the store's pending NGOs, each unverified and stored |
| `Routes.NgoProfile` | server/routes.ts:144-155 | the caller's own NGO for any role, or 404 "NGO profile not found" exactly when there is none |
| `Routes.CreateNgo` | server/routes.ts:157-170 | 403 "NGO role required" for other roles, 400 "Invalid NGO data" on a parse failure, creating nothing; otherwise one NGO owned by the caller |
| `Routes.VerifyNgo` | server/routes.ts:172-191 | 403 for non-admins, 404 "NGO not found" for an unknown id, changing nothing; otherwise only `verified` of that NGO changes |
| `Routes.ListDonations` | server/routes.ts:194-216 | donors get exactly their donations, NGO users exactly their NGO's (none without an NGO), any other role exactly the pending ones |
| `Routes.CreateDonation` | server/routes.ts:228-245 | 403 "Donor role required" for other roles, 400 "Invalid donation data" on a parse failure, creating nothing; otherwise the appended donation has the caller as donor |
| `Routes.PatchDonation` | server/routes.ts:247-261 | any caller may merge any fields into any donation; 404 "Donation not found" for an unknown or non-numeric id, changing nothing |
| `Routes.Thread` | server/routes.ts:274-283 | exactly the messages between the caller and the other user, oldest first; empty for a non-numeric id |
| `Routes.SendMessage` | server/routes.ts:285-302 | 400 "Invalid message data" stores and pushes nothing; otherwise the message from the caller is appended and pushed exactly as `broadcastMessage` decides |
| `Routes.SumImpact` | server/routes.ts:316-318 | the sum of estimated impacts is not negative when no impact is |
| `Routes.SumImpactAppend` | server/routes.ts:316-318 | the sum of impacts distributes over concatenation |
| `Routes.Analytics` | server/routes.ts:305-326 | the statistics over all NGOs and all donations: `totalDonations` is the number of pending donations, `verifiedNgos` the number of verified NGOs, `livesImpacted` the sum of the pending donations' estimated impacts (absent counts 0); no pending donations means no lives impacted; non-negative impacts give a non-negative sum |
| `Routes.StatsAfterDonation` | server/routes.ts:305-319 | a new pending donation adds one to `totalDonations` and its impact to `livesImpacted`; any other donation changes nothing |
| `TrackDonations.FilteredDonations` | client/src/pages/donor/track-donations.tsx:21-25 | a donation is shown exactly when each filter is "all" or matches it |
| `TrackDonations.NoFilterShowsAll` | client/src/pages/donor/track-donations.tsx:14-25 | with both filters on "all", the page's initial state, every donation is shown, in order |
| `TrackDonations.Progress` | client/src/pages/donor/track-donations.tsx:38-47 | between 0 and 100; 0 exactly for cancelled or unknown statuses; 100 exactly for "delivered" |
| `TrackDonations.ProgressAlongLifecycle` | client/src/pages/donor/track-donations.tsx:39-45 | progress rises strictly along pending, accepted, in_transit, delivered, by 25 each |
| `TrackDonations.TimelineSteps` | client/src/pages/donor/track-donations.tsx:49-74 | four steps; the first always completed; step 2 completed exactly when an NGO is set, step 3 exactly when in transit or delivered, step 4 exactly when delivered; later timestamps are `updatedAt` and only on completed steps |
| `TrackDonations.CompletedCountOfFour` | client/src/pages/donor/track-donations.tsx:49-74 | the completed count of a four-step timeline is the sum over its steps |
| `TrackDonations.CompletedStepsMatchProgress` | client/src/pages/donor/track-donations.tsx:38-74 | for a donation along the lifecycle, the progress is 25 per completed timeline step |
| `AddDonation.Issues` | client/src/pages/donor/add-donation.tsx:18-29 | which fields fail: type not food/clothes/money, title under 3, description under 10, quantity empty, pickup address under 10, pickup time empty, urgency outside its four values; amount never fails |
| `AddDonation.DefaultFormIssues` | client/src/pages/donor/add-donation.tsx:38-43 | the untouched form fails on every required field but the pre-filled urgency |
| `AddDonation.RequestBody` | client/src/pages/donor/add-donation.tsx:45-48 | the posted body carries title, description, type, quantity, amount, urgency, pickup address and pickup time from the form, and sets no status, NGO or impact |
| `AddDonation.ValidFormIsStoredPending` | client/src/pages/donor/add-donation.tsx:45-48 | a valid form posted by a donor is accepted and stored as pending, without an NGO, with a known type and the chosen urgency |
| `SignupPage.Issues` | client/src/pages/auth/signup.tsx:14-21 | which fields fail: name under 2, a malformed email, password under 6, role other than donor or ngo |
| `SignupPage.RedirectAfterSignup` | client/src/pages/auth/signup.tsx:51-58 | donor to "/donor/dashboard", ngo to "/ngo/dashboard", anything else to "/" |
| `SignupPage.ValidFormSignsUpToDashboard` | client/src/pages/auth/signup.tsx:40-58 | a valid form gives a body the server parses, never asks for admin, and leads to a dashboard |
| `NgoProfilePage.Issues` | client/src/pages/ngo/profile.tsx:16-24 | which fields fail: name under 3, description or mission under 10, location under 5, a non-empty website that is not a URL, phone under 10, no focus area |
| `NgoProfilePage.FormOf` | client/src/pages/ngo/profile.tsx:50-61 | the form filled from the stored profile, a missing column as "" or no focus areas |
| `NgoProfilePage.BareProfileNeedsEditing` | client/src/pages/ngo/profile.tsx:50-61 | a profile with only the required columns fails on description, mission, phone and focus areas, not on website |
| `NgoProfilePage.Avatar` | client/src/pages/ngo/profile.tsx:149 | at most two characters: the upper-cased start of the name |
| `Navbar.Hrefs` | client/src/components/layout/navbar.tsx:21-51 | the targets of the links, in order |
| `Navbar.Labels` | client/src/components/layout/navbar.tsx:21-51 | the captions of the links, in order |
| `Navbar.NavLinks` | client/src/components/layout/navbar.tsx:21-51 | guests get Home and Impact, donors 4 links, NGO users 3, admins 2 ending in "Analytics" on "/impact", other roles none; a link is active exactly when the location is its target |
| `Navbar.AtMostOneActive` | client/src/components/layout/navbar.tsx:21-51 | no two links of a menu are active together |
| `Navbar.ImpactAlwaysLast` | client/src/components/layout/navbar.tsx:21-51 | every menu that is not empty ends with the impact page |
| `Navbar.WordStartsAppend` | client/src/components/layout/navbar.tsx:60-67 | the word starts of a concatenation are those of each part |
| `Navbar.WordStartsOfWord` | client/src/components/layout/navbar.tsx:60-67 | a word without spaces starts only at its first character |
| `Navbar.FirstLettersAreWordStarts` | client/src/components/layout/navbar.tsx:60-67 | the first letters of the pieces of `split(" ")` are exactly the characters that start a word |
| `Navbar.UserInitials` | client/src/components/layout/navbar.tsx:60-67 | at most two characters: the upper-cased first letters of the name's words, in order |

## Left out

- Password hashing, token signing and token verification are function parameters. Expiry (24 hours) belongs to `verify`.
- HTTP transport, JSON encoding, express middleware chaining and the 500 responses for exceptions the store never throws are not modelled. Handlers return a status and a message or a body.
- Socket I/O is not modelled. A socket is an identifier and `readyState` is the predicate `isOpen`. A malformed frame that makes `JSON.parse` throw is the same as a frame that is not `auth`.
- The wall clock is the `now` parameter of each operation.
- `totalValue` in the analytics response is a floating-point sum of `parseFloat` over decimal strings and is not modelled.
- The achievement operations declared on the storage interface have no implementation and no table, so there is nothing to model.
- Zod's email and URL format checks are the predicates `isEmail` and `isUrl`. Zod's error messages are not modelled; the validators return the set of failing fields.
- String lengths count characters, not UTF-16 code units. `toUpperCase` maps only the ASCII letters a–z.
- `Seqs.SortBy`: it is a stable sort, like `Array.prototype.sort`, but its contract does not state stability.
- `Routes.PatchDonation`: the body is a typed patch of donation columns. Untyped keys such as `id` or `createdAt`, which the source would also merge, are not modelled.
- `Routes.VerifyNgo`: an absent `verified` is stored as `false`, where the source stores `undefined`. Every reader treats the two alike.
- `Storage.MemStorage.MarkMessageAsRead`: the source mutates the stored message object in place. The model replaces the map entry, so aliasing of that object by earlier query results is not modelled.
- `TrackDonations.Progress`: keys such as "constructor" that JavaScript finds on the object prototype are not modelled. They count as unknown statuses.
- `Routes.Signup`: the role is accepted as sent; the model states this and does not restrict it. The insert schema's type checks (for example, a number where a string is expected) are not modelled, because body fields are already typed.
- Column defaults rest on an assumption. `createInsertSchema` (shared/schema.ts:69-90) makes every defaulted column optional, and the store spreads the parsed body into the row without adding defaults (server/storage.ts:205-213, 245-254, 299-307). The model fills the defaults of shared/schema.ts:21-22, 39-40 and 55-56, as a database insert would. If the parsed body carries no default, the in-memory store keeps `status` undefined. The add-donation page sends no status, so such a donation would never be listed by `/api/donations/nearby` and never counted in the statistics. `AddDonation.ValidFormIsStoredPending` and the `body.status.None? ==> "pending"` clause of `Routes.CreateDonation` hold only under this assumption.
- The profile page sends `PATCH /api/ngos/:id`, a route the server does not define, so it is not modelled.
- React rendering, query caching, toasts, local storage, charts, mock data and the unrouted duplicate components are not modelled.
- Concurrency is not modelled. Handlers can interleave at each `await`. The model treats each request as one atomic step, so `Routes.Signup`'s preservation of `UniqueEmails` holds only for requests that do not overlap. Two overlapping signups with one email can both pass the "User already exists" check (server/routes.ts:36-46) and both be stored.
