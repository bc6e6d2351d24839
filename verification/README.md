# SES notifications to DocumentDB — a Dafny model

The system is an AWS Lambda function. It receives SNS records that carry Amazon SES
notifications and stores them in a MongoDB-compatible document database called
`ses-notifications`. Each notification is a `Delivery`, a `Bounce` or a
`Complaint`. The handler does the following for each one:

1. It inserts the notification's `mail` envelope into the `mail` collection and
   gets back a generated id.
2. It inserts one detail document into `deliveries`, `bounces` or `complaints`.
   That document carries the envelope id as `mailObjectId`.

Bounce and complaint documents copy a few named properties. Every other property
of the detail object goes into an `additional` sub-object, through
rest-destructuring. Delivery documents copy six named properties and drop the rest.
The database client is cached per connection uri for the life of the process.

## Modules

- `Base` (`base.dfy`) defines `Option` and `Result`.
- `Json` (`json.dfy`) defines runtime objects as maps from property name to
  value. It also gives the semantics of destructuring: `Pick` is the named part and
  `Rest` is `...rest`.
- `Decimal` (`decimal.dfy`) renders the record count in `"Done with N records"`.
- `SesTypes` (`ses_types.dfy`) declares the SES payload types and the tagged union.
  Each type has a rendering as a runtime object. An `extra` map holds the properties
  an object has beyond the declared ones, which the structural types allow.
- `SesCodec` (`ses_codec.dfy`) reads the typed records back out of runtime objects.
  These decoders are the inverses used to state what a stored document preserves.
- `DocumentStore` (`document_store.dfy`) models the store. It maps collection names
  to insert-only sequences of `(id, document)` pairs and keeps a fresh-id counter.
- `Connection` (`connection.dfy`) models `connectToDatabase` and its uri → client cache.
- `Handler` (`handler.dfy`) models the per-notification mapping, the batch as a
  sequential fold, and the whole invocation `Handle`.

Where the code's behaviour may be surprising, the model follows the code:

- A connect call that rejects makes the invocation reject. The reply `"Failed"`
  occurs only when the cached client is null-ish.
- A record whose `notificationType` is none of the three literals is not a decode
  error. Such a record stores its envelope and nothing else, because of the
  `else if` chain.
- Unknown delivery properties are dropped, not kept.
- A record that is not JSON makes the invocation reject. The other records'
  callbacks have already started their writes, and nothing awaits them. The model
  assumes they complete.

## Model

| member | source | states |
|---|---|---|
| Json.Pick | index.ts:79-86 | The named part of a destructuring holds exactly the listed properties the object has, with their values |
| Json.Rest | index.ts:79-86 | `...rest` holds exactly the properties that are not listed, with their values |
| Json.PickRestPartition | index.ts:79-86 | The named part and the rest are disjoint, and together they rebuild the original object |
| Decimal.FromNat | index.ts:119 | The count renders as at least one digit, with no leading zero unless the count is zero |
| Decimal.ToNatFromNat | index.ts:119 | Reading the rendered count back gives the count |
| Decimal.FromNatInjective | index.ts:119 | Distinct counts render as distinct numerals |
| SesTypes.DeliveryShape | SesTypes.ts:14-21 | Every delivery has all six declared properties; none is optional; only unknown properties come on top |
| SesTypes.BouncedRecipientShape | SesTypes.ts:23-31 | A bounced recipient always has `emailAddress`; `action`, `status` and `diagnosticCode` appear exactly when set; nothing else appears |
| SesTypes.BounceShape | SesTypes.ts:33-41 | The five required bounce properties are always present; `remoteMtaIp` and `reportingMTA` appear exactly when set |
| SesTypes.ComplaintShape | SesTypes.ts:43-51 | The four required complaint properties are always present; `userAgent`, `complaintFeedbackType` and `arrivalDate` appear exactly when set |
| SesTypes.NotificationShape | SesTypes.ts:53-68 | Every notification has `notificationType`, `mail` and exactly one detail property, and the tag names that property |
| SesTypes.TagDecidesDetail | SesTypes.ts:53-68 | Two notifications have the same tag exactly when they have the same detail property and the same variant |
| SesTypes.BounceFieldValues | SesTypes.ts:33-41 | A bounce object holds each declared value under its property name and keeps every unknown property unchanged |
| SesTypes.ComplaintFieldValues | SesTypes.ts:43-51 | A complaint object holds each declared value under its property name and keeps every unknown property unchanged |
| SesCodec.MailRoundTrip | SesTypes.ts:1-12 | Decoding a well-formed envelope's object gives the envelope back, including its unknown properties |
| SesCodec.HeadersRoundTrip | SesTypes.ts:10 | The header list decodes back to itself |
| SesCodec.CommonHeadersRoundTrip | SesTypes.ts:11 | The common-headers record, with single or multiple values, decodes back to itself |
| SesCodec.DeliveryRoundTrip | SesTypes.ts:14-21 | Decoding a well-formed delivery's object gives the delivery back |
| SesCodec.BouncedRecipientsRoundTrip | SesTypes.ts:23-31 | A list of bounced recipients, with optional properties present or absent, decodes back to itself |
| SesCodec.RecipientsRoundTrip | SesTypes.ts:23-25 | A list of complained recipients decodes back to itself |
| SesCodec.BounceRoundTrip | SesTypes.ts:33-41 | Decoding a well-formed bounce's object gives the bounce back |
| SesCodec.ComplaintRoundTrip | SesTypes.ts:43-51 | Decoding a well-formed complaint's object gives the complaint back |
| DocumentStore.InsertOne | index.ts:54-56 | An insert appends the document to its collection under a fresh id above every stored id, leaves the other collections alone, and keeps ids fresh and increasing |
| Connection.ConnectToDatabase | index.ts:16-34 | A new connection is opened exactly when the uri is not cached. After a successful call the uri is cached, the client returned is the cached one, and earlier entries are kept. A rejected connect leaves the cache unchanged and fails |
| Connection.ConnectIsMemoised | index.ts:19-33 | A second call with the same uri opens no connection, leaves the cache unchanged and returns the same client |
| Connection.RejectedConnectIsNotCached | index.ts:19-29 | A rejected connect fails, and the next call tries to connect again |
| Handler.Handle | index.ts:36-120 | The reply is "Failed" exactly when the connect resolved to a null client, and then nothing is written. Otherwise a returned reply is "Done with N records" with N the record count. With a client, "Done" comes exactly when every record parsed, whether or not its tag is recognised. A returned reply means the uri is cached |
| Handler.DeliveryDocumentContents | index.ts:58-76 | A delivery document holds `mailObjectId` and exactly the six delivery properties, each with the delivery's value |
| Handler.DeliveryDocumentRoundTrip | index.ts:58-76 | Reading a delivery document back gives the envelope id and the delivery without its unknown properties |
| Handler.BounceDocumentNamed | index.ts:77-95 | A bounce document holds `mailObjectId`, the five named properties with the bounce's values, and `additional`, which is the bounce object minus those five |
| Handler.BounceAdditional | index.ts:79-86 | `additional` is disjoint from the five named properties, and together they make the whole bounce. It holds `remoteMtaIp` and `reportingMTA` exactly when set, and every unknown property |
| Handler.BounceDocumentRoundTrip | index.ts:77-95 | Merging `additional` back into the named properties gives the original bounce and the envelope id |
| Handler.ComplaintDocumentNamed | index.ts:96-112 | A complaint document holds `mailObjectId`, the four named properties with the complaint's values, and `additional`, which is the complaint object minus those four |
| Handler.ComplaintAdditional | index.ts:98-104 | `additional` is disjoint from the four named properties, and together they make the whole complaint. It holds `userAgent`, `complaintFeedbackType` and `arrivalDate` exactly when set, and every unknown property |
| Handler.ComplaintDocumentRoundTrip | index.ts:96-112 | Merging `additional` back into the named properties gives the original complaint and the envelope id |
| Handler.MailDocument | index.ts:54-56 | The document `insertOne(mail)` receives is the envelope object itself. `Handler.MailDocumentRoundTrip` shows it decodes back to the envelope, and `Handler.ProcessNotification` that it is appended to `mail` |
| Handler.DetailCollection | index.ts:58-113 | A delivery goes to `deliveries`, a bounce to `bounces`, a complaint to `complaints`. `Handler.DetailDocumentRefersToMail` shows it is always a detail collection and never `mail`, and `Handler.HandleDone` ties each collection's growth to the count of its tag |
| Handler.DetailDocument | index.ts:58-113 | The else-if chain's choice of document for the tag. `Handler.ProcessNotification` shows it is the document appended to the tag's collection, and `Handler.DetailDocumentRefersToMail` that it carries the envelope id |
| Handler.MailDocumentRoundTrip | index.ts:54-56 | The stored envelope decodes back to the notification's `mail` object |
| Handler.DetailDocumentRefersToMail | index.ts:58-113 | Every detail document carries the envelope id it was built with, and goes to a detail collection, never to `mail` |
| Handler.ProcessNotification | index.ts:51-113 | A recognised notification appends its envelope to `mail`, then one detail document to its own collection. That document is the one built for this notification from the new envelope's id, and it points at that id, which is smaller than its own id. Nothing else changes |
| Handler.ProcessNotificationReadsBack | index.ts:54-113 | The detail document a notification leaves in the store reads back as that notification's bounce or complaint in full, or its delivery without unknown properties, together with the id of the envelope stored just before it |
| Handler.NotificationLinksItsDetail | index.ts:54-113 | After one notification the stored envelope ids only grow, and the new detail document refers to an envelope stored before it |
| Handler.NotificationKeepsLinked | index.ts:51-113 | A recognised notification keeps every detail document linked to an earlier stored envelope |
| Handler.LinkedAfterAppend | index.ts:54-113 | Appending one detail document that refers to an earlier envelope, while the envelopes only grow and the other detail collections stay unchanged, keeps every detail document linked |
| Handler.UnknownTypeKeepsLinked | index.ts:54-58 | A record with an unrecognised tag keeps every detail document linked to an earlier stored envelope |
| Handler.ProcessUnknownType | index.ts:54-58 | A record with an unrecognised tag stores only its envelope |
| Handler.ProcessMessageAppends | index.ts:48-116 | One record's callback only appends, and adds the stated number of documents to each collection |
| Handler.ProcessMessageKeepsInvariants | index.ts:48-116 | One record's callback keeps ids fresh and keeps every detail document linked to an earlier stored envelope |
| Handler.ProcessAllAppends | index.ts:47-117 | A batch only appends, and each collection grows by the sum of the records' writes |
| Handler.ProcessAllKeepsInvariants | index.ts:47-117 | A batch keeps ids fresh and every detail document linked to an earlier stored envelope |
| Handler.WritesAllConcat | index.ts:47-117 | The writes of two batches in a row add up |
| Handler.PermutationStep | index.ts:47-117 | Removing a batch's first record and its twin from a reordering leaves two batches with the same records |
| Handler.WritesAllPermutation | index.ts:47-117 | The number of documents a batch adds to each collection does not depend on the order of its records |
| Handler.WritesAllByType | index.ts:47-117 | A batch whose every record parses adds one envelope per record and one detail document per recognised notification of each type. The per-type counts and the unrecognised records together make up the record count |
| Handler.ContentsConcat | index.ts:54-56 | The documents of two runs of stored entries, ids aside, are those of the first followed by those of the second |
| Handler.ProcessMessageEnvelope | index.ts:50-57 | One record's callback adds its own envelope to the end of `mail`, or nothing when the record is not JSON |
| Handler.ProcessAllEnvelopes | index.ts:47-117 | A batch adds exactly the records' envelopes to `mail`, one per parsed record, in record order |
| Handler.EnvelopesOfConcat | index.ts:47-117 | The envelopes of two batches in a row are those of the first followed by those of the second |
| Handler.EnvelopesOfPermutation | index.ts:47-117 | Reordering the records reorders their envelopes and changes nothing else about them |
| Handler.BatchEnvelopesOrderIndependent | index.ts:47-117 | Whatever the record order, `mail` ends up holding the same envelopes, as a multiset |
| Handler.HandleWithoutClient | index.ts:39-43 | With a null client the reply is "Failed" and no collection receives a document |
| Handler.HandleConnectRejected | index.ts:19-29 | A rejected connect makes the invocation reject, with no write and no cache entry |
| Handler.HandleDone | index.ts:47-119 | With a client and N records that all parse, the reply is "Done with N records", even when some tags are unrecognised. The store gains N envelopes and, for each type, as many detail documents as there are notifications of that type |
| Handler.HandleMalformed | index.ts:47-117 | A record that is not JSON makes the invocation reject. The writes the other records started are assumed to complete |
| Handler.HandleKeepsInvariants | index.ts:36-120 | An invocation never changes or removes a stored document, and keeps fresh ids and envelope links |
| Handler.HandleOrderIndependent | index.ts:47-119 | Reordering the records changes neither the reply, nor the number of documents in any collection, nor the multiset of envelopes in `mail` |
| Handler.HandleReusesConnection | index.ts:12-33 | After an invocation that did not fail to connect, the next one with the same uri does not depend on how a connect would settle, and leaves the cache unchanged |
| Handler.DoneReplyDeterminesCount | index.ts:119 | "Done with N records" is never "Failed", and it determines N |
| Handler.DoneReply | index.ts:119 | The success reply is never "Failed", and its length is that of the rendered count plus the fixed text; `Handler.DoneReplyDeterminesCount` shows the count can be read back from it |
| Handler.EmptyIsValid | index.ts:44-46 | An empty database has no documents and meets both invariants, fresh increasing ids and linked detail documents, so every store a run of invocations builds from it meets them too |
| Handler.ProcessMessage | index.ts:48-116 | One record's callback never reuses an id. `Handler.ProcessMessageAppends`, `Handler.ProcessMessageKeepsInvariants`, `Handler.ProcessNotification`, `Handler.ProcessUnknownType` and `Handler.ProcessMessageEnvelope` state what it writes |
| Handler.ProcessAll | index.ts:47-117 | A batch never reuses an id. `Handler.ProcessAllAppends`, `Handler.ProcessAllKeepsInvariants`, `Handler.ProcessAllEnvelopes` and `Handler.WritesAllPermutation` state what it writes |
| Handler.DeliveryDocument | index.ts:58-76 | A delivery document has exactly `mailObjectId` and the six delivery properties, and `mailObjectId` is the envelope id; unknown delivery properties are dropped. `Handler.DeliveryDocumentContents` and `Handler.DeliveryDocumentRoundTrip` give the values |
| Handler.BounceDocument | index.ts:77-95 | A bounce document has exactly `mailObjectId`, `additional` and the five named properties. `mailObjectId` is the envelope id, and `additional` is an object that, with the named properties, covers the bounce object's properties without overlap. `Handler.BounceDocumentNamed`, `Handler.BounceAdditional` and `Handler.BounceDocumentRoundTrip` give the values |
| Handler.ComplaintDocument | index.ts:96-112 | A complaint document has exactly `mailObjectId`, `additional` and the four named properties. `mailObjectId` is the envelope id, and `additional` is an object that, with the named properties, covers the complaint object's properties without overlap. `Handler.ComplaintDocumentNamed`, `Handler.ComplaintAdditional` and `Handler.ComplaintDocumentRoundTrip` give the values |
| SesTypes.MailFields | SesTypes.ts:1-12 | The runtime object of an envelope. `SesCodec.MailRoundTrip` shows it holds every declared property and every unknown one |
| SesTypes.DeliveryFields | SesTypes.ts:14-21 | The runtime object of a delivery. `SesTypes.DeliveryShape` gives its properties and `SesCodec.DeliveryRoundTrip` shows it loses nothing |
| SesTypes.BounceFields | SesTypes.ts:33-41 | The runtime object of a bounce, with optional properties present exactly when set. `SesTypes.BounceShape`, `SesTypes.BounceFieldValues` and `SesCodec.BounceRoundTrip` state it |
| SesTypes.ComplaintFields | SesTypes.ts:43-51 | The runtime object of a complaint, with optional properties present exactly when set. `SesTypes.ComplaintShape`, `SesTypes.ComplaintFieldValues` and `SesCodec.ComplaintRoundTrip` state it |

## Left out

- Building the connection string from environment variables (index.ts:6-10) is configuration only. The uri is a parameter.
- The TLS CA bundle read (index.ts:14) and the client options (index.ts:21-27) are file I/O and foreign driver settings.
- The driver's connect call is not modelled. Its outcome, resolve or reject, is a parameter, `Connection.Attempt`.
- A connect or an insert that never settles is not modelled. The invocation would then end at the Lambda time-out with no reply.
- `client.db("ses-notifications")` (index.ts:45) has no behaviour in the model: the store is that one database.
- `console.log` and `console.error` output is a side effect with no behaviour.
- `JSON.parse` on the raw text (index.ts:50) is not modelled. A record arrives already classified as a notification, a notification with an unknown tag, or text that is not JSON. Text that parses but lacks `mail` or a detail object is not modelled. Neither is a payload whose declared properties are missing or have another type, such as `"complaintSubType": null` or a bounce without `bounceSubType`. The handler copies those without checking, but the typed records cannot express them, so the key-set and round-trip lemmas say nothing about them.
- `Promise.all` concurrency is modelled as a sequential fold. The ids a batch generates depend on the order of the records, so the order-independence results speak about counts and replies, not about ids.
- Insert failures in the store are not modelled; every insert succeeds.
- The complaint insert is not awaited (index.ts:105). Its failure does not reject `Promise.all`, although a rejection that nothing awaits may be reported by the runtime as an unhandled rejection. The callback can also return before the complaint document is written.
- All JSON numbers are modelled as unbounded integers (`Json.Num`). This covers `processingTimeMillis` and any number among the unknown properties the handler copies. JavaScript numbers are floating point, and floating point is left out.
- When the inserted `mail` object has no `_id`, the driver generates one and adds it to the object in place. The model keeps the generated id beside the stored document instead.
- DocumentStore.InsertOne: always generates a fresh id. Documents that already carry `_id` are not modelled: the driver would keep that id as `insertedId`, so the detail document would point at it, and a repeated `_id` would fail the insert. The handler's records exclude such envelopes through `Handler.IdlessMail` and `Handler.IdlessNotification`. Generated ids are modelled as one counter for the whole store. Real ObjectIds are built by the client process from the clock, a per-process random value and a counter. They are unique, but they increase only among the ids one process makes, and every container running the handler writes the same database. The ordering parts of `DocumentStore.Valid` (ids grow in insertion order within a collection) and of `Handler.RefersToEarlierMail` (the envelope's id is below the detail document's id) therefore assume that one process writes the database. The fact that `mailObjectId` is the id of the record's own envelope insert does not depend on this.
- Stored documents are ordered BSON, and `...additional` keeps the property order of the source object. Property order is not modelled: documents are maps, so the round trips hold up to property order.
- Header, recipient and bounced-recipient objects are modelled without unknown properties. The handler copies them whole.
- Handler.HandleDone: assumes that the complaint documents are written by the time the reply is returned. index.ts:105 does not await that insert, so `Promise.all` can settle, and the handler can reply, before any complaint document is stored.
- Handler.HandleMalformed: assumes that the writes the other records started complete. Once one record fails to parse, the handler rejects at once and nothing awaits those writes. Their detail inserts in particular may never be issued if the process stops.
- Handler.HandleOrderIndependent: states equal replies, equal per-collection counts and the same envelopes. It does not state equal detail documents, because their `mailObjectId` values are generated ids that depend on the order.
