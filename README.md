# The Servants back office: server-side core in Dafny

A model of the server-side library of a small NGO's website and admin back
office: bearer-token authentication and the role check (`lib/auth.js`), the
document-store models for users, members, payments, content, gallery images,
initiatives, goals and email logs (`lib/models.js`), the payment-gateway
adapter with its mock mode and signature check (`lib/services/razorpay.js`),
and the email service that logs every send attempt and mails newsletters to
approved members (`lib/services/email.js`).

Modules:

- `Strings` (strings.dfy): `startsWith`, `includes` with a reference
  definition, decimal rendering of timestamps and its inverse, the store's
  string order, `join` on one character and its inverse `split`.
- `Records` (records.dfy): field values (null, number, string, boolean,
  date), records as maps from field name to value, JavaScript truthiness,
  and the store's cross-type value order.
- `Sorting` (sorting.dfy): what `sort({ key: ±1 })` returns, as an insertion
  sort proved to give a sorted permutation.
- `Store` (store.dfy): one collection as a sequence in insertion order;
  equality filters, `limit`, and `findOne`, `updateOne` with `$set`,
  `deleteOne` and upsert, each acting on the first matching document.
- `Models` (models.dfy): the record each `create` builds (the object spread
  as a map union), and the class `Database` with one sequence per
  collection, whose methods change exactly one collection.
- `Auth` (auth.dfy), `Razorpay` (razorpay.dfy), `Email` (email.dfy): the
  three other source files.

Foreign calls are parameters: the token library's verify is a function to a
`Decoded | Rejected` outcome, the HMAC-SHA256 digest is a function of key and
message, the SMTP transport's behaviour is a `Delivery` (`Accepted` or
`Failed`), and ids (uuid v4), the current time and the bcrypt hash are
passed in. When the gateway is configured, the order, subscription and
customer calls return the request body they would post.

Behaviour of the code that the model keeps:

- `MemberModel.create` always starts a member as `pending`, but
  `MemberModel.update` sets whatever fields it is given, status included.
- `GoalModel.update` returns nothing; the other updates return the record
  as found by id afterwards.
- `ContentModel.upsert` writes a fresh `id` into the record on every upsert,
  so a content record's id changes each time its key is written.
- Listings are sorted on one field only, so records with equal values in
  that field come out in an order the store does not promise.
- A caller-supplied `id` in `create` data replaces the generated one, so ids
  need not be unique; `findById`, `update` and `delete` then act on the
  oldest record with that id.

## Model

| member | source | states |
|---|---|---|
| `Auth.ExtractToken` | lib/auth.js:47-53 | a token exists exactly when the header is present and starts with `Bearer ` (case-sensitive, one space), and then `Bearer ` + token is the header |
| `Auth.ExtractTokenRoundTrip` | lib/auth.js:49-52 | extracting from `Bearer ` + t gives t back, for every t |
| `Auth.ExtractTokenIsExact` | lib/auth.js:48-52 | a missing header, `bearer`, `BEARER` or no space give no token; a second space stays in the token |
| `Auth.VerifyToken` | lib/auth.js:34-40 | verifyToken never throws: the claims when the library decodes, null exactly when it throws |
| `Auth.Authenticate` | lib/auth.js:60-64 | a principal only for a `Bearer ` header with a non-empty token that the library decodes to that principal; for such a header, null exactly when the library rejects |
| `Auth.AuthenticateIgnoresVerifierWithoutToken` | lib/auth.js:61-62 | with no header, another scheme or an empty token, the result is null whatever the token library does |
| `Auth.HasRole` | lib/auth.js:72-75 | true exactly when there is a principal whose role is a non-empty string in the allow-list |
| `Auth.HasRoleMonotone` | lib/auth.js:74 | the empty allow-list admits no one, and enlarging the list never withdraws access |
| `Models.Stamped` | lib/models.js:148-152 | the record of a create: every caller field except the stamp is kept, a caller `id` replaces the generated one, the stamp is the current time, no other field |
| `Models.NewMember` | lib/models.js:92-98 | status and payment status are `pending` and `createdAt` is now whatever the caller sends; every other caller field is kept; the generated id unless the caller gave one |
| `Models.NewUser` | lib/models.js:40-50 | the user record has exactly id, email, password hash, role and createdAt; the role is `staff_admin` unless given |
| `Models.NewContent` | lib/models.js:188-197 | the content record has exactly id, key, value, type and updatedAt; the type is `text` unless given |
| `Models.UpdatePatch` | lib/models.js:116 | the `$set` of an update: the caller's fields and `updatedAt` set to now |
| `Models.Database.UserCreate` | lib/models.js:40-54 | appends exactly the new user record and changes no other collection |
| `Models.Database.UserFindByEmail` | lib/models.js:56-59 | the first user in store order with that email, or null exactly when none has it |
| `Models.Database.UserFindById` | lib/models.js:61-64 | the first user in store order with that id, or null exactly when none has it |
| `Models.Database.MemberCreate` | lib/models.js:89-102 | appends exactly the new member record, returns it, and changes no other collection |
| `Models.Database.MemberFindAll` | lib/models.js:104-107 | every member, each as often as stored, newest `createdAt` first |
| `Models.Database.MemberFindById` | lib/models.js:109-112 | the first member in store order with that id, or null exactly when none has it |
| `Models.Database.MemberUpdate` | lib/models.js:114-118 | patches the first member with that id (no other record, no other collection) and returns what finding by that id then gives |
| `Models.Database.MemberDelete` | lib/models.js:120-123 | removes the first member with that id, if any, and nothing else |
| `Models.Database.PaymentCreate` | lib/models.js:145-156 | appends exactly the new payment record, returns it, and changes no other collection |
| `Models.Database.PaymentFindAll` | lib/models.js:158-161 | every payment, newest `createdAt` first |
| `Models.Database.PaymentFindById` | lib/models.js:163-166 | the first payment in store order with that id, or null exactly when none has it |
| `Models.Database.PaymentUpdate` | lib/models.js:168-172 | patches the first payment with that id and returns what finding by that id then gives |
| `Models.Database.ContentUpsert` | lib/models.js:188-206 | writes the content record over the first one with that key, or appends it; keys that were unique stay unique |
| `Models.Database.ContentFindByKey` | lib/models.js:208-211 | the first content record in store order with that key, or null exactly when none has it |
| `Models.Database.ContentFindAll` | lib/models.js:213-216 | the content collection as stored |
| `Models.Database.GalleryCreate` | lib/models.js:233-244 | appends exactly the new image record and changes no other collection |
| `Models.Database.GalleryFindAll` | lib/models.js:246-250 | with a non-empty category, exactly the images of that category, otherwise every image; newest first |
| `Models.Database.GalleryDelete` | lib/models.js:252-255 | removes the first image with that id, if any, and nothing else |
| `Models.Database.InitiativeCreate` | lib/models.js:273-284 | appends exactly the new initiative record and changes no other collection |
| `Models.Database.InitiativeFindAll` | lib/models.js:286-289 | every initiative, latest `date` first |
| `Models.Database.InitiativeFindById` | lib/models.js:291-294 | the first initiative in store order with that id, or null exactly when none has it |
| `Models.Database.InitiativeUpdate` | lib/models.js:296-300 | patches the first initiative with that id and returns what finding by that id then gives |
| `Models.Database.InitiativeDelete` | lib/models.js:302-305 | removes the first initiative with that id, if any, and nothing else |
| `Models.Database.GoalCreate` | lib/models.js:322-333 | appends exactly the new goal record and changes no other collection |
| `Models.Database.GoalFindAll` | lib/models.js:335-338 | every goal, each as often as stored, in ascending `order` |
| `Models.Database.GoalUpdate` | lib/models.js:340-343 | patches the first goal with that id and nothing else; returns nothing |
| `Models.Database.GoalDelete` | lib/models.js:345-348 | removes the first goal with that id, if any, and nothing else |
| `Models.Database.EmailLogCreate` | lib/models.js:366-377 | appends exactly the new log record, stamped with `sentAt`, and changes no other collection |
| `Models.Database.EmailLogFindAll` | lib/models.js:379-382 | at most `limit` logs (100 by default, 0 for all), newest first, and every log left out was sent no later than every log listed |
| `Models.CreatedFoundById` | lib/models.js:89-112 | a member, or a payment, image, initiative or goal, created with a fresh id and no caller id is what finding by that id returns |
| `Models.CallerIdShadowed` | lib/models.js:92-94 | a caller id that an older record has becomes the new member's (or stamped record's) id, and finding by it still yields the older record |
| `Models.AppendedFound` | lib/models.js:89-112 | appending a record whose key no older record has makes finding by that key return it |
| `Models.AppendedShadowed` | lib/models.js:109-112 | appending any record leaves finding by an already-present key unchanged |
| `Models.UpdateThenFindById` | lib/models.js:114-118 | update then findById gives the patched record; with no record of that id nothing changes and the result is null |
| `Models.ContentUpsertThenFind` | lib/models.js:188-211 | after upsert(k, v, t), findByKey(k) has value v and type t (`text` by default) |
| `Models.ContentUpsertTwice` | lib/models.js:199-203 | a second upsert of a key overwrites: exactly one record has the key and it holds the second value |
| `Store.Where` | lib/models.js:246-249 | the documents matching an equality query, each as often as in the collection, and no other |
| `Store.WhereKeepsSorted` | lib/models.js:246-249 | filtering a sorted listing leaves it sorted |
| `Store.FindOne` | lib/models.js:109-112 | the first matching document in store order, or none exactly when nothing matches |
| `Store.FirstMatch` | lib/models.js:116 | the position of the first matching document, or -1 exactly when none matches |
| `Store.UpdateOne` | lib/models.js:116 | `$set` on the first match: it takes every patch field and keeps its others; every other document is unchanged; no match, no change |
| `Store.DeleteOne` | lib/models.js:122 | the first match is removed, the rest keep their order; no match, no change |
| `Store.UpsertOne` | lib/models.js:199-203 | an update when a document matches, otherwise one new document of the key and the patch appended |
| `Store.UpsertKeepsKeysUnique` | lib/models.js:199-203 | an upsert on a key keeps that key unique across the collection |
| `Store.UpsertThenFind` | lib/models.js:199-211 | after an upsert, finding by the key yields a document holding every field written |
| `Store.UpsertKeepsPresent` | lib/models.js:199-203 | an upsert never removes a key value that was present |
| `Store.UniqueKeyAtMostOne` | lib/models.js:199-203 | with keys unique, at most one document has a given key |
| `Store.Limit` | lib/models.js:381 | the first n documents of a listing, all of them for 0 |
| `Store.LimitKeepsFirst` | lib/models.js:381 | on a sorted listing, whatever `limit` leaves out may follow everything it keeps |
| `Sorting.SortBy` | lib/models.js:337 | the listing is sorted on the key and is a permutation of the collection |
| `Sorting.Insert` | lib/models.js:337 | inserting into a sorted listing keeps it sorted and adds exactly that document |
| `Razorpay.IsConfigured` | lib/services/razorpay.js:20-24 | configured exactly when key id and secret are set, non-empty, and neither contains `mock` |
| `Razorpay.MockId` | lib/services/razorpay.js:37 | a mock id is the prefix followed by the decimal digits of the current time, which can be read back |
| `Razorpay.MockIdsDistinct` | lib/services/razorpay.js:37 | mock records made at different times have different ids |
| `Razorpay.Paise` | lib/services/razorpay.js:38 | rupees become a whole number of paise from which the rupee amount is recovered exactly |
| `Razorpay.CreateOrder` | lib/services/razorpay.js:33-61 | unconfigured: an `order_mock_` id, amount × 100, the currency (INR by default), status created, mocked; configured: a request for amount × 100 in that currency |
| `Razorpay.OrderAmountIndependentOfMode` | lib/services/razorpay.js:38-54 | mock or real, an order is for the same number of paise |
| `Razorpay.CreateSubscription` | lib/services/razorpay.js:70-99 | unconfigured: a `sub_mock_` id echoing plan and customer, status created; configured: a request for 12 billing cycles of that plan and customer |
| `Razorpay.CreateCustomer` | lib/services/razorpay.js:108-135 | unconfigured: a `cust_mock_` id with name, email and the phone as contact; configured: a request with the phone as contact |
| `Razorpay.SignedMessage` | lib/services/razorpay.js:154 | the signed message is the order id, one `\|`, then the payment id |
| `Razorpay.SignedMessageInjective` | lib/services/razorpay.js:154 | for order ids without `\|`, the message determines both ids |
| `Razorpay.SignedMessageAmbiguous` | lib/services/razorpay.js:154 | with a `\|` inside an order id, two different id pairs share a message |
| `Razorpay.VerifyPaymentSignature` | lib/services/razorpay.js:144-158 | unconfigured, every signature passes; configured, exactly the HMAC of `orderId\|paymentId` under the secret passes |
| `Razorpay.AtMostOneSignature` | lib/services/razorpay.js:151-157 | configured, at most one signature passes for an order and payment |
| `Razorpay.LookupPlan` | lib/services/razorpay.js:163-188 | a plan exactly for basic, core and premium, with id `plan_<tier>`, 199/499/999 INR, monthly |
| `Razorpay.PlanTable` | lib/services/razorpay.js:163-188 | the plan table has exactly the tiers basic, core and premium, in rising price |
| `Email.CreateTransporter` | lib/services/email.js:23-44 | a transport exactly when user and password are set and the user does not contain `your-email`; host and port default to smtp.gmail.com and 587 |
| `Email.AttemptResult` | lib/services/email.js:62-103 | not configured exactly when there is no transport; sent exactly when a transport accepts; otherwise the transport's error is rethrown |
| `Email.AttemptLog` | lib/services/email.js:64-100 | every log has type custom, the recipient and the subject; `sent` exactly when sent, otherwise `failed` with `SMTP not configured` or the transport's error |
| `Email.UnconfiguredIgnoresTransport` | lib/services/email.js:64-76 | without a transport, the result and the log do not depend on what the transport would do |
| `Email.SendEmail` | lib/services/email.js:51-104 | every call appends exactly one email log and changes nothing else, on all three paths |
| `Email.RecipientsExact` | lib/services/email.js:116-117 | the recipients are exactly the emails of the approved members |
| `Email.Recipients` | lib/services/email.js:116-117 | one recipient per approved member |
| `Email.NewsletterTo` | lib/services/email.js:125 | the `to` field starts with the first recipient and holds only recipients' text and commas |
| `Email.NewsletterToListsRecipients` | lib/services/email.js:125 | with comma-free string addresses, splitting the `to` field at commas gives back the recipients, one per approved member |
| `Email.NewsletterOutcome` | lib/services/email.js:119-133 | no approved members: no send; otherwise delivered to all of them unless the transport threw, including when unconfigured |
| `Email.SendNewsletter` | lib/services/email.js:112-134 | no approved members: nothing changes; otherwise exactly one log addressed to all approved members |
| `Email.NewsletterOrder` | lib/services/email.js:114-117 | the recipients come newest member first |
| `Email.SendDonationReceipt` | lib/services/email.js:179-183 | exactly one email, to the given address, with the receipt subject |
| `Email.SendWelcomeEmail` | lib/services/email.js:224-228 | exactly one email, to the member's address, with the welcome subject |
| `Strings.Includes` | lib/services/razorpay.js:22-23 | true exactly when the part occurs somewhere in the string |
| `Strings.StartsWith` | lib/auth.js:49 | true exactly when every character of the prefix is at the same position in the string |
| `Strings.Join` | lib/services/email.js:125 | the first part comes first and the separator is the only character added |
| `Strings.Split` | lib/services/email.js:125 | one piece more than separators in the string, and no piece holds the separator |
| `Strings.DecimalInjective` | lib/services/razorpay.js:37 | different times render as different decimal strings |
| `Strings.ParseDecimalOfDecimal` | lib/services/razorpay.js:37 | a number's decimal notation parses back to it |
| `Strings.SplitJoin` | lib/services/email.js:125 | splitting a comma-join of comma-free parts gives the parts back |

## Left out

- The API route handlers, the React pages and components, the database
  connection (`lib/db.js`) and the image CDN adapter
  (`lib/services/cloudinary.js`) are not part of this model.
- Token signing (`generateToken` and its 7-day expiry) and the token
  library's signature and expiry checks: the library's verify is a parameter.
- bcrypt hashing and `UserModel.verifyPassword`: the hash is passed in.
- The HMAC-SHA256 digest itself: it is a parameter of key and message.
- The gateway's HTTP exchange and its responses: a configured call yields the
  request body it would post; the HTTP method, headers and endpoint are not
  modelled.
- The SMTP transport: its behaviour is a parameter; the message's `from`,
  `html` and `text` fields, the email templates and the donation details in
  the receipt are not modelled.
- Console logging in the email service.
- `uuidv4()`, `new Date()` and `Date.now()`: ids and times are parameters.
- Amounts are integers: JavaScript numbers, fractional rupees and floating
  point are not modelled.
- Store failures: an insert or update that throws (including a log insert
  inside `sendEmail`'s try block) is not modelled.
- The `_id` field the store driver adds on insert is not modelled.
- Field values are scalars: nested objects and arrays in caller data are not
  modelled, and `undefined` is the same as null.
- Store sorts are not stable: the model promises sortedness and permutation,
  not the order of ties.
- `Email.SendNewsletter`: its `to` field is stated for the order `SortBy`
  gives members with equal `createdAt`; the store promises no order among
  such ties.
- `Razorpay.LookupPlan`: a lookup of the three own tiers only; the route's
  `MEMBERSHIP_PLANS[tier]` also finds inherited object members such as
  `constructor`, and the route handlers are not part of this model.
- `EmailLogModel.findAll` with a negative limit is not modelled (the limit is
  a natural number).
- `Email.Text`: a date in the newsletter's joined `to` field is written as
  its millisecond count, where JavaScript writes `Date.prototype.toString()`.
- Concurrent requests on the same record: there is no locking in the code.
