/**
 The Lambda handler: for every SNS record, insert the `mail` envelope, then
 insert one detail document that points back to it through `mailObjectId`.
 The batch's `Promise.all` is modelled as a sequential fold over the records.
 */
module Handler {
  import opened Base
  import opened Json
  import opened SesTypes
  import opened SesCodec
  import opened DocumentStore
  import opened Connection
  import Decimal

  const MailCollection := "mail"
  const DeliveriesCollection := "deliveries"
  const BouncesCollection := "bounces"
  const ComplaintsCollection := "complaints"
  const DetailCollections: set<string> := {"deliveries", "bounces", "complaints"}

  const MailObjectIdKey := "mailObjectId"
  const AdditionalKey := "additional"

  /** A `notificationType` value that is none of the three literals. */
  type UnknownTag = t: string | DetailKeyFor(t).None? witness ""

  /** An envelope without an `_id` of its own, so inserting it makes the driver generate one. */
  type IdlessMail = m: MailObject | IdKey !in m.extra
    witness MailObject("", "", "", "", "", "", [], false, [], map[], map[])

  /** A notification whose envelope has no `_id` of its own. */
  type IdlessNotification = n: SesNotification | IdKey !in n.mail.extra
    witness Delivery(
      MailObject("", "", "", "", "", "", [], false, [], map[], map[]),
      DeliveryData("", 0, [], "", "", "", map[]))

  /** One SNS record's message, as `JSON.parse` leaves it. */
  datatype SnsMessage =
    | Parsed(notification: IdlessNotification)
      /** A notification whose `notificationType` matches no branch of the handler. */
    | UnknownType(notificationType: UnknownTag, mail: IdlessMail)
      /** A message that is not JSON: `JSON.parse` throws. */
    | Malformed

  /** What the handler's promise settles to. */
  datatype Reply = Returned(text: string) | Rejected

  /** The state that outlives one invocation: the connection cache and the database. */
  datatype Env = Env(cache: Cache, store: Store)

  const FailedReply := "Failed"

  /** The success reply; `DoneReplyDeterminesCount` shows it names the count exactly. */
  function DoneReply(n: nat): (r: string)
    ensures r != FailedReply
    ensures |r| == |"Done with "| + |Decimal.FromNat(n)| + |" records"|
  {
    "Done with " + Decimal.FromNat(n) + " records"
  }

  // The documents written for one notification.

  /**
   The document `insertOne(mail)` receives: the envelope object itself, whole,
   unknown properties included. Named apart from `MailFields` so that the
   handler's writes read as the source's inserts.
   */
  function MailDocument(m: MailObject): Document {
    MailFields(m)
  }

  function DetailCollection(n: SesNotification): string {
    match n
    case Delivery(_, _) => DeliveriesCollection
    case Bounce(_, _) => BouncesCollection
    case Complaint(_, _) => ComplaintsCollection
  }

  /** The six destructured delivery properties, next to the envelope's id. */
  function DeliveryDocument(mailId: nat, d: DeliveryData): (r: Document)
    ensures r.Keys == {MailObjectIdKey} + DeliveryKeys
    ensures r[MailObjectIdKey] == ObjectId(mailId)
  {
    Pick(DeliveryFields(d), DeliveryKeys)[MailObjectIdKey := ObjectId(mailId)]
  }

  /** The five destructured bounce properties, the envelope's id, and the rest under `additional`. */
  function BounceDocument(mailId: nat, b: BounceData): (r: Document)
    ensures r.Keys == {MailObjectIdKey, AdditionalKey} + BounceRequiredKeys
    ensures r[MailObjectIdKey] == ObjectId(mailId)
    ensures r[AdditionalKey].Obj? && r[AdditionalKey].fields.Keys !! BounceRequiredKeys
    ensures r[AdditionalKey].fields.Keys + BounceRequiredKeys == BounceFields(b).Keys
  {
    var f := BounceFields(b);
    BounceShape(b);
    Pick(f, BounceRequiredKeys)[MailObjectIdKey := ObjectId(mailId)][AdditionalKey := Obj(Rest(f, BounceRequiredKeys))]
  }

  /** The four destructured complaint properties, the envelope's id, and the rest under `additional`. */
  function ComplaintDocument(mailId: nat, c: ComplaintData): (r: Document)
    ensures r.Keys == {MailObjectIdKey, AdditionalKey} + ComplaintRequiredKeys
    ensures r[MailObjectIdKey] == ObjectId(mailId)
    ensures r[AdditionalKey].Obj? && r[AdditionalKey].fields.Keys !! ComplaintRequiredKeys
    ensures r[AdditionalKey].fields.Keys + ComplaintRequiredKeys == ComplaintFields(c).Keys
  {
    var f := ComplaintFields(c);
    ComplaintShape(c);
    Pick(f, ComplaintRequiredKeys)[MailObjectIdKey := ObjectId(mailId)][AdditionalKey := Obj(Rest(f, ComplaintRequiredKeys))]
  }

  function DetailDocument(mailId: nat, n: SesNotification): Document {
    match n
    case Delivery(_, d) => DeliveryDocument(mailId, d)
    case Bounce(_, b) => BounceDocument(mailId, b)
    case Complaint(_, c) => ComplaintDocument(mailId, c)
  }

  // Processing.

  /** The writes of one record's callback; `ProcessMessageAppends` counts them per collection. */
  function ProcessMessage(s: Store, m: SnsMessage): (r: Store)
    ensures s.nextId <= r.nextId
  {
    match m
    case Malformed => s
    case UnknownType(_, mail) => InsertOne(s, MailCollection, MailDocument(mail)).1
    case Parsed(n) =>
      var (mailId, s1) := InsertOne(s, MailCollection, MailDocument(n.mail));
      InsertOne(s1, DetailCollection(n), DetailDocument(mailId, n)).1
  }

  /** The batch as a sequential fold; `ProcessAllAppends` counts its writes per collection. */
  function ProcessAll(s: Store, ms: seq<SnsMessage>): (r: Store)
    ensures s.nextId <= r.nextId
    decreases |ms|
  {
    if |ms| == 0 then s else ProcessAll(ProcessMessage(s, ms[0]), ms[1..])
  }

  predicate AllParse(ms: seq<SnsMessage>) {
    forall i :: 0 <= i < |ms| ==> !ms[i].Malformed?
  }

  /**
   One invocation: connect (or reuse the cached client), then run every
   record's callback. The reply is "Failed" only when there is no client, and
   then nothing is written; otherwise it is "Done with N records" unless some
   record failed, in which case the invocation rejects.
   */
  function Handle(env: Env, uri: string, attempt: Attempt, ms: seq<SnsMessage>): (r: (Reply, Env))
    ensures r.0 == Returned(FailedReply) ==> r.1.store == env.store
    ensures r.0.Returned? ==> r.0.text == FailedReply || r.0.text == DoneReply(|ms|)
    ensures r.0.Returned? ==> uri in r.1.cache
    ensures r.0.Returned? && r.0.text != FailedReply ==> AllParse(ms)
    ensures r.1.cache.Keys <= env.cache.Keys + {uri}
    ensures r.0 == Returned(FailedReply) <==>
      ConnectToDatabase(env.cache, uri, attempt).Success? && ConnectToDatabase(env.cache, uri, attempt).value.client.None?
    ensures ConnectToDatabase(env.cache, uri, attempt).Success? && ConnectToDatabase(env.cache, uri, attempt).value.client.Some?
      ==> (r.0 == Returned(DoneReply(|ms|)) <==> AllParse(ms))
  {
    DoneReplyDeterminesCount(|ms|, 0);
    match ConnectToDatabase(env.cache, uri, attempt)
    case Failure(_) => (Rejected, env)
    case Success(connected) =>
      if connected.client.None? then (Returned(FailedReply), Env(connected.cache, env.store))
      else
        var store := ProcessAll(env.store, ms);
        var reply := if AllParse(ms) then Returned(DoneReply(|ms|)) else Rejected;
        (reply, Env(connected.cache, store))
  }

  // What a stored detail document holds.

  /** Reads a delivery document back: the envelope id and the delivery it was made from. */
  function DeliveryFromDocument(doc: Document): Option<(nat, DeliveryData)> {
    if MailObjectIdKey in doc && doc[MailObjectIdKey].ObjectId? then
      var d :- DecodeDelivery(doc - {MailObjectIdKey});
      Some((doc[MailObjectIdKey].id, d))
    else None
  }

  /** Reads a bounce document back, merging `additional` into the named properties. */
  function BounceFromDocument(doc: Document): Option<(nat, BounceData)> {
    if MailObjectIdKey in doc && doc[MailObjectIdKey].ObjectId? && AdditionalKey in doc && doc[AdditionalKey].Obj? then
      var b :- DecodeBounce((doc - {MailObjectIdKey, AdditionalKey}) + doc[AdditionalKey].fields);
      Some((doc[MailObjectIdKey].id, b))
    else None
  }

  /** Reads a complaint document back, merging `additional` into the named properties. */
  function ComplaintFromDocument(doc: Document): Option<(nat, ComplaintData)> {
    if MailObjectIdKey in doc && doc[MailObjectIdKey].ObjectId? && AdditionalKey in doc && doc[AdditionalKey].Obj? then
      var c :- DecodeComplaint((doc - {MailObjectIdKey, AdditionalKey}) + doc[AdditionalKey].fields);
      Some((doc[MailObjectIdKey].id, c))
    else None
  }

  /**
   A delivery document holds the envelope id and exactly the six declared
   properties; unknown delivery properties are dropped.
   */
  lemma DeliveryDocumentContents(mailId: nat, d: DeliveryData)
    ensures DeliveryDocument(mailId, d).Keys == {MailObjectIdKey} + DeliveryKeys
    ensures DeliveryDocument(mailId, d)[MailObjectIdKey] == ObjectId(mailId)
    ensures DeliveryDocument(mailId, d)["timestamp"] == Str(d.timestamp)
    ensures DeliveryDocument(mailId, d)["processingTimeMillis"] == Num(d.processingTimeMillis)
    ensures DeliveryDocument(mailId, d)["recipients"] == Strings(d.recipients)
    ensures DeliveryDocument(mailId, d)["smtpResponse"] == Str(d.smtpResponse)
    ensures DeliveryDocument(mailId, d)["reportingMTA"] == Str(d.reportingMTA)
    ensures DeliveryDocument(mailId, d)["remoteMtaIp"] == Str(d.remoteMtaIp)
  {
  }

  /** Reading a delivery document back gives the id and the delivery without its unknown properties. */
  lemma DeliveryDocumentRoundTrip(mailId: nat, d: DeliveryData)
    ensures DeliveryFromDocument(DeliveryDocument(mailId, d)) == Some((mailId, d.(extra := map[])))
  {
    var doc := DeliveryDocument(mailId, d);
    var d' := d.(extra := map[]);
    assert doc - {MailObjectIdKey} == DeliveryFields(d');
    DeliveryRoundTrip(d');
  }

  /** A bounce document holds the envelope id, the five named bounce properties and `additional`. */
  lemma BounceDocumentNamed(mailId: nat, b: BounceData)
    requires WellFormedBounce(b)
    ensures var doc := BounceDocument(mailId, b);
      && doc.Keys == {MailObjectIdKey, AdditionalKey} + BounceRequiredKeys
      && doc[MailObjectIdKey] == ObjectId(mailId)
      && doc["bounceType"] == Str(b.bounceType)
      && doc["bounceSubType"] == Str(b.bounceSubType)
      && doc["bouncedRecipients"] == BouncedRecipientsValue(b.bouncedRecipients)
      && doc["timestamp"] == Str(b.timestamp)
      && doc["feedbackId"] == Str(b.feedbackId)
      && doc[AdditionalKey] == Obj(BounceFields(b) - BounceRequiredKeys)
  {
    BounceShape(b);
    BounceFieldValues(b);
  }

  /**
   `additional` holds exactly the bounce properties other than the five named
   ones: `remoteMtaIp` and `reportingMTA` when set, and every unknown property.
   */
  lemma BounceAdditional(b: BounceData)
    requires WellFormedBounce(b)
    ensures var additional := BounceFields(b) - BounceRequiredKeys;
      && additional.Keys !! BounceRequiredKeys
      && additional.Keys + BounceRequiredKeys == BounceFields(b).Keys
      && (b.remoteMtaIp.Some? <==> "remoteMtaIp" in additional)
      && (b.remoteMtaIp.Some? ==> additional["remoteMtaIp"] == Str(b.remoteMtaIp.value))
      && (b.reportingMTA.Some? <==> "reportingMTA" in additional)
      && (b.reportingMTA.Some? ==> additional["reportingMTA"] == Str(b.reportingMTA.value))
      && (forall k :: k in b.extra ==> k in additional && additional[k] == b.extra[k])
  {
    BounceShape(b);
    BounceFieldValues(b);
  }

  /** Merging `additional` back into the named properties gives the original bounce. */
  lemma BounceDocumentRoundTrip(mailId: nat, b: BounceData)
    requires WellFormedBounce(b)
    ensures BounceFromDocument(BounceDocument(mailId, b)) == Some((mailId, b))
  {
    var f := BounceFields(b);
    var doc := BounceDocument(mailId, b);
    PickRestPartition(f, BounceRequiredKeys);
    assert doc - {MailObjectIdKey, AdditionalKey} == Pick(f, BounceRequiredKeys);
    assert (doc - {MailObjectIdKey, AdditionalKey}) + doc[AdditionalKey].fields == f;
    BounceRoundTrip(b);
  }

  /** A complaint document holds the envelope id, the four named complaint properties and `additional`. */
  lemma ComplaintDocumentNamed(mailId: nat, c: ComplaintData)
    requires WellFormedComplaint(c)
    ensures var doc := ComplaintDocument(mailId, c);
      && doc.Keys == {MailObjectIdKey, AdditionalKey} + ComplaintRequiredKeys
      && doc[MailObjectIdKey] == ObjectId(mailId)
      && doc["complainedRecipients"] == RecipientsValue(c.complainedRecipients)
      && doc["timestamp"] == Str(c.timestamp)
      && doc["feedbackId"] == Str(c.feedbackId)
      && doc["complaintSubType"] == Str(c.complaintSubType)
      && doc[AdditionalKey] == Obj(ComplaintFields(c) - ComplaintRequiredKeys)
  {
    ComplaintShape(c);
    ComplaintFieldValues(c);
  }

  /**
   `additional` holds exactly the complaint properties other than the four
   named ones: `userAgent`, `complaintFeedbackType` and `arrivalDate` when set,
   and every unknown property.
   */
  lemma ComplaintAdditional(c: ComplaintData)
    requires WellFormedComplaint(c)
    ensures var additional := ComplaintFields(c) - ComplaintRequiredKeys;
      && additional.Keys !! ComplaintRequiredKeys
      && additional.Keys + ComplaintRequiredKeys == ComplaintFields(c).Keys
      && (c.userAgent.Some? <==> "userAgent" in additional)
      && (c.userAgent.Some? ==> additional["userAgent"] == Str(c.userAgent.value))
      && (c.complaintFeedbackType.Some? <==> "complaintFeedbackType" in additional)
      && (c.complaintFeedbackType.Some? ==> additional["complaintFeedbackType"] == Str(c.complaintFeedbackType.value))
      && (c.arrivalDate.Some? <==> "arrivalDate" in additional)
      && (c.arrivalDate.Some? ==> additional["arrivalDate"] == Str(c.arrivalDate.value))
      && (forall k :: k in c.extra ==> k in additional && additional[k] == c.extra[k])
  {
    ComplaintShape(c);
    ComplaintFieldValues(c);
  }

  /** Merging `additional` back into the named properties gives the original complaint. */
  lemma ComplaintDocumentRoundTrip(mailId: nat, c: ComplaintData)
    requires WellFormedComplaint(c)
    ensures ComplaintFromDocument(ComplaintDocument(mailId, c)) == Some((mailId, c))
  {
    var f := ComplaintFields(c);
    var doc := ComplaintDocument(mailId, c);
    PickRestPartition(f, ComplaintRequiredKeys);
    assert doc - {MailObjectIdKey, AdditionalKey} == Pick(f, ComplaintRequiredKeys);
    assert (doc - {MailObjectIdKey, AdditionalKey}) + doc[AdditionalKey].fields == f;
    ComplaintRoundTrip(c);
  }

  /**
   The envelope is stored whole: reading the mail document back gives the
   envelope. Since `MailDocument` is the envelope's own object, this is
   `SesCodec.MailRoundTrip` said of what the handler inserts.
   */
  lemma MailDocumentRoundTrip(m: MailObject)
    requires WellFormedMail(m)
    ensures DecodeMail(MailDocument(m)) == Some(m)
  {
    MailRoundTrip(m);
  }

  /** Every detail document points at the envelope id it was made with. */
  lemma DetailDocumentRefersToMail(mailId: nat, n: SesNotification)
    ensures MailObjectIdKey in DetailDocument(mailId, n)
    ensures DetailDocument(mailId, n)[MailObjectIdKey] == ObjectId(mailId)
    ensures DetailCollection(n) in DetailCollections && DetailCollection(n) != MailCollection
  {
  }

  // What a batch does to the database.

  /** How many documents one record's callback adds to collection `c`. */
  function Writes(m: SnsMessage, c: string): nat {
    match m
    case Malformed => 0
    case UnknownType(_, _) => if c == MailCollection then 1 else 0
    case Parsed(n) => (if c == MailCollection then 1 else 0) + (if c == DetailCollection(n) then 1 else 0)
  }

  function WritesAll(ms: seq<SnsMessage>, c: string): nat
    decreases |ms|
  {
    if |ms| == 0 then 0 else Writes(ms[0], c) + WritesAll(ms[1..], c)
  }

  /** How many records are notifications with the given `notificationType`. */
  function CountOfType(ms: seq<SnsMessage>, tag: string): nat
    decreases |ms|
  {
    if |ms| == 0 then 0
    else (if ms[0].Parsed? && ms[0].notification.NotificationType() == tag then 1 else 0) + CountOfType(ms[1..], tag)
  }

  /** How many records are notifications whose `notificationType` the handler does not recognise. */
  function CountUnknown(ms: seq<SnsMessage>): nat
    decreases |ms|
  {
    if |ms| == 0 then 0 else (if ms[0].UnknownType? then 1 else 0) + CountUnknown(ms[1..])
  }

  /** The ids of the stored envelopes. */
  function MailIds(s: Store): set<nat> {
    set d | d in Docs(s, MailCollection) :: d.id
  }

  /** A detail document points at a stored envelope that was inserted before it. */
  predicate RefersToEarlierMail(d: Stored, ids: set<nat>) {
    && MailObjectIdKey in d.doc
    && d.doc[MailObjectIdKey].ObjectId?
    && d.doc[MailObjectIdKey].id in ids
    && d.doc[MailObjectIdKey].id < d.id
  }

  /** Every detail document has its envelope in the `mail` collection. */
  ghost predicate Linked(s: Store) {
    forall c, d :: c in DetailCollections && d in Docs(s, c) ==> RefersToEarlierMail(d, MailIds(s))
  }

  /** The empty database satisfies both invariants, so every store a run reaches from it does too. */
  lemma EmptyIsValid()
    ensures Valid(Empty) && Linked(Empty)
    ensures forall c :: Docs(Empty, c) == []
  {
  }

  /**
   One recognised notification appends its envelope to `mail` and then one
   detail document to its own collection, which points at that envelope's id;
   nothing else changes.
   */
  lemma ProcessNotification(s: Store, n: IdlessNotification)
    ensures var s' := ProcessMessage(s, Parsed(n));
      var mails := Docs(s', MailCollection);
      var details := Docs(s', DetailCollection(n));
      && |mails| == |Docs(s, MailCollection)| + 1
      && |details| == |Docs(s, DetailCollection(n))| + 1
      && mails[..|mails| - 1] == Docs(s, MailCollection)
      && details[..|details| - 1] == Docs(s, DetailCollection(n))
      && mails[|mails| - 1].doc == MailFields(n.mail)
      && details[|details| - 1].doc == DetailDocument(mails[|mails| - 1].id, n)
      && details[|details| - 1].doc[MailObjectIdKey] == ObjectId(mails[|mails| - 1].id)
      && mails[|mails| - 1].id < details[|details| - 1].id
      && (forall c :: c != MailCollection && c != DetailCollection(n) ==> Docs(s', c) == Docs(s, c))
  {
    var (mailId, s1) := InsertOne(s, MailCollection, MailDocument(n.mail));
    var detail := DetailDocument(mailId, n);
    var (detailId, s2) := InsertOne(s1, DetailCollection(n), detail);
    DetailDocumentRefersToMail(mailId, n);
    assert ProcessMessage(s, Parsed(n)) == s2;
    assert Docs(s2, MailCollection) == Docs(s, MailCollection) + [Stored(mailId, MailDocument(n.mail))];
    assert Docs(s2, DetailCollection(n)) == Docs(s, DetailCollection(n)) + [Stored(detailId, detail)];
  }

  /**
   What the store receives for a notification reads back as the notification's
   own detail record, linked to its own envelope: a bounce or a complaint in
   full, a delivery without its unknown properties.
   */
  lemma ProcessNotificationReadsBack(s: Store, n: IdlessNotification)
    ensures var s' := ProcessMessage(s, Parsed(n));
      var mails := Docs(s', MailCollection);
      var details := Docs(s', DetailCollection(n));
      && |mails| > 0 && |details| > 0
      && (n.Delivery? ==> DeliveryFromDocument(details[|details| - 1].doc) == Some((mails[|mails| - 1].id, n.delivery.(extra := map[]))))
      && (n.Bounce? && WellFormedBounce(n.bounce) ==> BounceFromDocument(details[|details| - 1].doc) == Some((mails[|mails| - 1].id, n.bounce)))
      && (n.Complaint? && WellFormedComplaint(n.complaint) ==> ComplaintFromDocument(details[|details| - 1].doc) == Some((mails[|mails| - 1].id, n.complaint)))
  {
    ProcessNotification(s, n);
    match n
    case Delivery(_, d) => DeliveryDocumentRoundTrip(s.nextId, d);
    case Bounce(_, b) =>
      if WellFormedBounce(b) {
        BounceDocumentRoundTrip(s.nextId, b);
      }
    case Complaint(_, c) =>
      if WellFormedComplaint(c) {
        ComplaintDocumentRoundTrip(s.nextId, c);
      }
  }

  /** A record of unknown type only stores its envelope. */
  lemma ProcessUnknownType(s: Store, tag: UnknownTag, mail: IdlessMail)
    ensures var s' := ProcessMessage(s, UnknownType(tag, mail));
      && Docs(s', MailCollection) == Docs(s, MailCollection) + [Stored(s.nextId, MailFields(mail))]
      && (forall c :: c != MailCollection ==> Docs(s', c) == Docs(s, c))
  {
  }

  /** One record's callback only appends, and appends `Writes` documents per collection. */
  lemma ProcessMessageAppends(s: Store, m: SnsMessage)
    ensures forall c :: Docs(s, c) <= Docs(ProcessMessage(s, m), c)
    ensures forall c :: |Docs(ProcessMessage(s, m), c)| == |Docs(s, c)| + Writes(m, c)
  {
    if m.Parsed? {
      DetailDocumentRefersToMail(s.nextId, m.notification);
    }
  }

  lemma ProcessMessageKeepsInvariants(s: Store, m: SnsMessage)
    requires Valid(s) && Linked(s)
    ensures Valid(ProcessMessage(s, m)) && Linked(ProcessMessage(s, m))
  {
    match m
    case Malformed =>
    case UnknownType(tag, mail) => UnknownTypeKeepsLinked(s, tag, mail);
    case Parsed(n) => NotificationKeepsLinked(s, n);
  }

  lemma UnknownTypeKeepsLinked(s: Store, tag: UnknownTag, mail: IdlessMail)
    requires Valid(s) && Linked(s)
    ensures Linked(ProcessMessage(s, UnknownType(tag, mail)))
  {
    var s' := ProcessMessage(s, UnknownType(tag, mail));
    assert MailIds(s) <= MailIds(s');
    forall c, d | c in DetailCollections && d in Docs(s', c)
      ensures RefersToEarlierMail(d, MailIds(s'))
    {
      assert c != MailCollection;
      assert Docs(s', c) == Docs(s, c);
      assert RefersToEarlierMail(d, MailIds(s));
    }
  }

  lemma NotificationKeepsLinked(s: Store, n: IdlessNotification)
    requires Valid(s) && Linked(s)
    ensures Linked(ProcessMessage(s, Parsed(n)))
  {
    var s' := ProcessMessage(s, Parsed(n));
    var home := DetailCollection(n);
    NotificationLinksItsDetail(s, n);
    DetailDocumentRefersToMail(s.nextId, n);
    LinkedAfterAppend(s, s', home, Docs(s', home)[|Docs(s', home)| - 1]);
  }

  /** Appending one linked detail document, while envelopes only grow, keeps the store linked. */
  lemma LinkedAfterAppend(s: Store, s': Store, home: string, last: Stored)
    requires Linked(s)
    requires MailIds(s) <= MailIds(s')
    requires Docs(s', home) == Docs(s, home) + [last]
    requires RefersToEarlierMail(last, MailIds(s'))
    requires forall c :: c in DetailCollections && c != home ==> Docs(s', c) == Docs(s, c)
    ensures Linked(s')
  {
    forall c, d | c in DetailCollections && d in Docs(s', c)
      ensures RefersToEarlierMail(d, MailIds(s'))
    {
      if c == home && d == last {
      } else {
        assert d in Docs(s, c);
        assert RefersToEarlierMail(d, MailIds(s));
      }
    }
  }

  /** The envelopes only grow, and the new detail document refers to the new envelope. */
  lemma NotificationLinksItsDetail(s: Store, n: IdlessNotification)
    ensures var s' := ProcessMessage(s, Parsed(n));
      var details := Docs(s', DetailCollection(n));
      && MailIds(s) <= MailIds(s')
      && |details| > 0
      && details == Docs(s, DetailCollection(n)) + [details[|details| - 1]]
      && RefersToEarlierMail(details[|details| - 1], MailIds(s'))
      && (forall c :: c != MailCollection && c != DetailCollection(n) ==> Docs(s', c) == Docs(s, c))
  {
    var s' := ProcessMessage(s, Parsed(n));
    ProcessNotification(s, n);
    var mails, details := Docs(s', MailCollection), Docs(s', DetailCollection(n));
    assert mails == Docs(s, MailCollection) + [mails[|mails| - 1]];
    assert details == Docs(s, DetailCollection(n)) + [details[|details| - 1]];
    assert mails[|mails| - 1] in mails;
  }

  /** The batch only appends: no stored document is changed or removed. */
  lemma {:induction false} ProcessAllAppends(s: Store, ms: seq<SnsMessage>)
    ensures forall c :: Docs(s, c) <= Docs(ProcessAll(s, ms), c)
    ensures forall c :: |Docs(ProcessAll(s, ms), c)| == |Docs(s, c)| + WritesAll(ms, c)
    decreases |ms|
  {
    if |ms| > 0 {
      var s1 := ProcessMessage(s, ms[0]);
      ProcessMessageAppends(s, ms[0]);
      ProcessAllAppends(s1, ms[1..]);
      forall c
        ensures Docs(s, c) <= Docs(ProcessAll(s, ms), c)
      {
        assert Docs(s, c) <= Docs(s1, c) <= Docs(ProcessAll(s1, ms[1..]), c);
      }
    }
  }

  /** Fresh ids and the envelope links hold after any batch. */
  lemma {:induction false} ProcessAllKeepsInvariants(s: Store, ms: seq<SnsMessage>)
    requires Valid(s) && Linked(s)
    ensures Valid(ProcessAll(s, ms)) && Linked(ProcessAll(s, ms))
    decreases |ms|
  {
    if |ms| > 0 {
      ProcessMessageKeepsInvariants(s, ms[0]);
      ProcessAllKeepsInvariants(ProcessMessage(s, ms[0]), ms[1..]);
    }
  }

  lemma {:induction false} WritesAllConcat(a: seq<SnsMessage>, b: seq<SnsMessage>, c: string)
    ensures WritesAll(a + b, c) == WritesAll(a, c) + WritesAll(b, c)
    decreases |a|
  {
    if |a| == 0 {
      assert a + b == b;
    } else {
      assert (a + b)[0] == a[0];
      assert (a + b)[1..] == a[1..] + b;
      WritesAllConcat(a[1..], b, c);
    }
  }

  /** Removing the first record of a batch and its twin from a reordering keeps the two equal as multisets. */
  lemma PermutationStep(a: seq<SnsMessage>, b: seq<SnsMessage>) returns (i: nat)
    requires |a| > 0 && multiset(a) == multiset(b)
    ensures i < |b| && b[i] == a[0]
    ensures multiset(a[1..]) == multiset(b[..i] + b[i + 1..])
    ensures b == b[..i] + ([b[i]] + b[i + 1..])
  {
    var x := a[0];
    assert x in multiset(b);
    assert x in b;
    var k :| 0 <= k < |b| && b[k] == x;
    i := k;
    RemoveAt(b, i);
    var m := multiset(a) - multiset{x};
    assert multiset(b[..i] + b[i + 1..]) == m;
    FirstRemoved(a);
  }

  /** Dropping the head of a sequence takes one occurrence of it out of the multiset. */
  lemma FirstRemoved<T>(a: seq<T>)
    requires |a| > 0
    ensures multiset(a[1..]) == multiset(a) - multiset{a[0]}
  {
    assert a == [a[0]] + a[1..];
  }

  /** Taking one element out of a sequence takes one occurrence out of its multiset. */
  lemma RemoveAt<T>(s: seq<T>, i: nat)
    requires i < |s|
    ensures s == s[..i] + ([s[i]] + s[i + 1..])
    ensures multiset(s[..i] + s[i + 1..]) == multiset(s) - multiset{s[i]}
  {
    assert s == s[..i] + ([s[i]] + s[i + 1..]);
    assert multiset(s) == multiset(s[..i]) + multiset{s[i]} + multiset(s[i + 1..]);
  }

  /** The documents a batch adds depend on which records it holds, not on their order. */
  lemma {:induction false} WritesAllPermutation(a: seq<SnsMessage>, b: seq<SnsMessage>, c: string)
    requires multiset(a) == multiset(b)
    ensures WritesAll(a, c) == WritesAll(b, c)
    decreases |a|
  {
    if |a| == 0 {
      assert |b| == |multiset(b)| == 0;
    } else {
      var i := PermutationStep(a, b);
      var x := a[0];
      WritesAllPermutation(a[1..], b[..i] + b[i + 1..], c);
      WritesAllConcat(b[..i], [x] + b[i + 1..], c);
      WritesAllConcat([x], b[i + 1..], c);
      WritesAllConcat(b[..i], b[i + 1..], c);
      assert WritesAll([x], c) == Writes(x, c);
    }
  }

  /**
   In a batch of recognised notifications every record adds one envelope, and
   the detail documents are split by type.
   */
  lemma {:induction false} WritesAllByType(ms: seq<SnsMessage>)
    requires AllParse(ms)
    ensures WritesAll(ms, MailCollection) == |ms|
    ensures WritesAll(ms, DeliveriesCollection) == CountOfType(ms, "Delivery")
    ensures WritesAll(ms, BouncesCollection) == CountOfType(ms, "Bounce")
    ensures WritesAll(ms, ComplaintsCollection) == CountOfType(ms, "Complaint")
    ensures CountOfType(ms, "Delivery") + CountOfType(ms, "Bounce") + CountOfType(ms, "Complaint") + CountUnknown(ms) == |ms|
    decreases |ms|
  {
    if |ms| > 0 {
      WritesAllByType(ms[1..]);
    }
  }

  /** The stored documents of a collection, without their ids. */
  function Contents(ds: seq<Stored>): seq<Document>
    decreases |ds|
  {
    if |ds| == 0 then [] else [ds[0].doc] + Contents(ds[1..])
  }

  /** The envelopes a batch stores, in record order. */
  function EnvelopesOf(ms: seq<SnsMessage>): seq<Document>
    decreases |ms|
  {
    if |ms| == 0 then [] else EnvelopeOf(ms[0]) + EnvelopesOf(ms[1..])
  }

  /** The envelope one record stores, if any. */
  function EnvelopeOf(m: SnsMessage): seq<Document> {
    match m
    case Malformed => []
    case UnknownType(_, mail) => [MailDocument(mail)]
    case Parsed(n) => [MailDocument(n.mail)]
  }

  lemma {:induction false} ContentsConcat(a: seq<Stored>, b: seq<Stored>)
    ensures Contents(a + b) == Contents(a) + Contents(b)
    decreases |a|
  {
    if |a| == 0 {
      assert a + b == b;
    } else {
      assert (a + b)[0] == a[0];
      assert (a + b)[1..] == a[1..] + b;
      ContentsConcat(a[1..], b);
    }
  }

  /** One record's callback adds its envelope, if it has one, to the end of `mail`. */
  lemma ProcessMessageEnvelope(s: Store, m: SnsMessage)
    ensures Contents(Docs(ProcessMessage(s, m), MailCollection)) == Contents(Docs(s, MailCollection)) + EnvelopeOf(m)
  {
    var before := Docs(s, MailCollection);
    var after := Docs(ProcessMessage(s, m), MailCollection);
    match m
    case Malformed =>
    case UnknownType(_, mail) =>
      ContentsConcat(before, [Stored(s.nextId, MailDocument(mail))]);
    case Parsed(n) =>
      ProcessNotification(s, n);
      assert after == before + [after[|after| - 1]];
      ContentsConcat(before, [after[|after| - 1]]);
  }

  /** The `mail` collection gains exactly the records' envelopes, in record order. */
  lemma {:induction false} ProcessAllEnvelopes(s: Store, ms: seq<SnsMessage>)
    ensures Contents(Docs(ProcessAll(s, ms), MailCollection)) == Contents(Docs(s, MailCollection)) + EnvelopesOf(ms)
    decreases |ms|
  {
    if |ms| > 0 {
      var s1 := ProcessMessage(s, ms[0]);
      assert ProcessAll(s, ms) == ProcessAll(s1, ms[1..]);
      var before := Contents(Docs(s, MailCollection));
      ProcessMessageEnvelope(s, ms[0]);
      ProcessAllEnvelopes(s1, ms[1..]);
      var first, others := EnvelopeOf(ms[0]), EnvelopesOf(ms[1..]);
      assert EnvelopesOf(ms) == first + others;
      AppendAssoc(before, first, others);
    }
  }

  lemma AppendAssoc<T>(a: seq<T>, b: seq<T>, c: seq<T>)
    ensures a + b + c == a + (b + c)
  {
  }

  lemma {:induction false} EnvelopesOfConcat(a: seq<SnsMessage>, b: seq<SnsMessage>)
    ensures EnvelopesOf(a + b) == EnvelopesOf(a) + EnvelopesOf(b)
    decreases |a|
  {
    if |a| == 0 {
      assert a + b == b;
    } else {
      assert (a + b)[0] == a[0];
      assert (a + b)[1..] == a[1..] + b;
      EnvelopesOfConcat(a[1..], b);
      assert EnvelopesOf(a + b) == EnvelopeOf(a[0]) + EnvelopesOf(a[1..] + b);
    }
  }

  /** Reordering the records reorders the stored envelopes and nothing more. */
  lemma {:induction false} EnvelopesOfPermutation(a: seq<SnsMessage>, b: seq<SnsMessage>)
    requires multiset(a) == multiset(b)
    ensures multiset(EnvelopesOf(a)) == multiset(EnvelopesOf(b))
    decreases |a|
  {
    if |a| == 0 {
      assert |b| == |multiset(b)| == 0;
    } else {
      var i := PermutationStep(a, b);
      var x := a[0];
      var left, right := b[..i], b[i + 1..];
      EnvelopesOfPermutation(a[1..], left + right);
      EnvelopesOfConcat(left, [x] + right);
      EnvelopesOfConcat(left, right);
      EnvelopesOfCons(x, right);
      var ex, el, er := EnvelopeOf(x), EnvelopesOf(left), EnvelopesOf(right);
      assert EnvelopesOf(b) == el + (ex + er);
      assert EnvelopesOf(a) == ex + EnvelopesOf(a[1..]);
      MovedPiece(EnvelopesOf(a), EnvelopesOf(b), ex, EnvelopesOf(a[1..]), el, er);
    }
  }

  lemma EnvelopesOfCons(x: SnsMessage, rest: seq<SnsMessage>)
    ensures EnvelopesOf([x] + rest) == EnvelopeOf(x) + EnvelopesOf(rest)
  {
    assert ([x] + rest)[0] == x;
    assert ([x] + rest)[1..] == rest;
  }

  /** Moving one piece from the front into the middle keeps the multiset. */
  lemma MovedPiece<T>(front: seq<T>, middle: seq<T>, x: seq<T>, rest: seq<T>, left: seq<T>, right: seq<T>)
    requires front == x + rest
    requires middle == left + (x + right)
    requires multiset(rest) == multiset(left + right)
    ensures multiset(front) == multiset(middle)
  {
  }

  // The invocation as a whole.

  /** When the cached client is null the handler answers "Failed" and writes nothing. */
  lemma HandleWithoutClient(env: Env, uri: string, attempt: Attempt, ms: seq<SnsMessage>)
    requires ConnectToDatabase(env.cache, uri, attempt).Success?
    requires ConnectToDatabase(env.cache, uri, attempt).value.client.None?
    ensures Handle(env, uri, attempt, ms).0 == Returned(FailedReply)
    ensures forall c :: Docs(Handle(env, uri, attempt, ms).1.store, c) == Docs(env.store, c)
  {
  }

  /** A connect that rejects fails the invocation before any write and caches nothing. */
  lemma HandleConnectRejected(env: Env, uri: string, ms: seq<SnsMessage>)
    requires uri !in env.cache
    ensures Handle(env, uri, Rejects, ms) == (Rejected, env)
  {
  }

  /**
   With a client, a batch whose records all parse answers "Done with N
   records", N the number of records, and adds one envelope per record plus
   the detail documents of each type. The complaint inserts are not awaited
   by the handler; the model counts them as written when the reply is given.
   */
  lemma HandleDone(env: Env, uri: string, attempt: Attempt, ms: seq<SnsMessage>)
    requires ConnectToDatabase(env.cache, uri, attempt).Success?
    requires ConnectToDatabase(env.cache, uri, attempt).value.client.Some?
    requires AllParse(ms)
    ensures var (reply, env') := Handle(env, uri, attempt, ms);
      && reply == Returned(DoneReply(|ms|))
      && |Docs(env'.store, MailCollection)| == |Docs(env.store, MailCollection)| + |ms|
      && |Docs(env'.store, DeliveriesCollection)| == |Docs(env.store, DeliveriesCollection)| + CountOfType(ms, "Delivery")
      && |Docs(env'.store, BouncesCollection)| == |Docs(env.store, BouncesCollection)| + CountOfType(ms, "Bounce")
      && |Docs(env'.store, ComplaintsCollection)| == |Docs(env.store, ComplaintsCollection)| + CountOfType(ms, "Complaint")
  {
    var (reply, env') := Handle(env, uri, attempt, ms);
    assert env'.store == ProcessAll(env.store, ms);
    ProcessAllAppends(env.store, ms);
    WritesAllByType(ms);
    var store, store' := env.store, env'.store;
    assert |Docs(store', MailCollection)| == |Docs(store, MailCollection)| + WritesAll(ms, MailCollection);
    assert |Docs(store', DeliveriesCollection)| == |Docs(store, DeliveriesCollection)| + WritesAll(ms, DeliveriesCollection);
    assert |Docs(store', BouncesCollection)| == |Docs(store, BouncesCollection)| + WritesAll(ms, BouncesCollection);
    assert |Docs(store', ComplaintsCollection)| == |Docs(store, ComplaintsCollection)| + WritesAll(ms, ComplaintsCollection);
  }

  /**
   A record that is not JSON fails the whole invocation. The other records'
   callbacks have started their writes and nothing awaits them; the model
   assumes they complete. There is no per-record isolation and no rollback.
   */
  lemma HandleMalformed(env: Env, uri: string, attempt: Attempt, ms: seq<SnsMessage>)
    requires ConnectToDatabase(env.cache, uri, attempt).Success?
    requires ConnectToDatabase(env.cache, uri, attempt).value.client.Some?
    requires exists i :: 0 <= i < |ms| && ms[i].Malformed?
    ensures var (reply, env') := Handle(env, uri, attempt, ms);
      && reply == Rejected
      && forall c :: |Docs(env'.store, c)| == |Docs(env.store, c)| + WritesAll(ms, c)
  {
    ProcessAllAppends(env.store, ms);
  }

  /** The handler only ever appends, and keeps fresh ids and envelope links. */
  lemma HandleKeepsInvariants(env: Env, uri: string, attempt: Attempt, ms: seq<SnsMessage>)
    requires Valid(env.store) && Linked(env.store)
    ensures var env' := Handle(env, uri, attempt, ms).1;
      && Valid(env'.store) && Linked(env'.store)
      && forall c :: Docs(env.store, c) <= Docs(env'.store, c)
  {
    ProcessAllAppends(env.store, ms);
    ProcessAllKeepsInvariants(env.store, ms);
  }

  /**
   Reordering the records changes neither the reply, nor how many documents
   each collection gets, nor which envelopes `mail` holds.
   */
  lemma HandleOrderIndependent(env: Env, uri: string, attempt: Attempt, ms: seq<SnsMessage>, ms': seq<SnsMessage>)
    requires multiset(ms) == multiset(ms')
    ensures Handle(env, uri, attempt, ms).0 == Handle(env, uri, attempt, ms').0
    ensures forall c :: |Docs(Handle(env, uri, attempt, ms).1.store, c)| == |Docs(Handle(env, uri, attempt, ms').1.store, c)|
    ensures multiset(Contents(Docs(Handle(env, uri, attempt, ms).1.store, MailCollection)))
         == multiset(Contents(Docs(Handle(env, uri, attempt, ms').1.store, MailCollection)))
  {
    BatchEnvelopesOrderIndependent(env.store, ms, ms');
    assert |ms| == |multiset(ms)| == |ms'|;
    assert AllParse(ms) <==> AllParse(ms') by {
      if !AllParse(ms) {
        var i :| 0 <= i < |ms| && ms[i].Malformed?;
        assert ms[i] in multiset(ms');
      }
      if !AllParse(ms') {
        var i :| 0 <= i < |ms'| && ms'[i].Malformed?;
        assert ms'[i] in multiset(ms);
      }
    }
    ProcessAllAppends(env.store, ms);
    ProcessAllAppends(env.store, ms');
    forall c {
      WritesAllPermutation(ms, ms', c);
    }
  }

  lemma BatchEnvelopesOrderIndependent(s: Store, ms: seq<SnsMessage>, ms': seq<SnsMessage>)
    requires multiset(ms) == multiset(ms')
    ensures multiset(Contents(Docs(ProcessAll(s, ms), MailCollection)))
         == multiset(Contents(Docs(ProcessAll(s, ms'), MailCollection)))
  {
    ProcessAllEnvelopes(s, ms);
    ProcessAllEnvelopes(s, ms');
    EnvelopesOfPermutation(ms, ms');
  }

  /**
   A second invocation with the same uri reuses the cached client: it does not
   connect, so how a connect would settle makes no difference, and the cache
   stays as the first invocation left it.
   */
  lemma HandleReusesConnection(env: Env, uri: string, first: Attempt, second: Attempt, ms1: seq<SnsMessage>, ms2: seq<SnsMessage>)
    requires ConnectToDatabase(env.cache, uri, first).Success?
    ensures var env1 := Handle(env, uri, first, ms1).1;
      && uri in env1.cache
      && Handle(env1, uri, second, ms2) == Handle(env1, uri, first, ms2)
      && Handle(env1, uri, second, ms2).1.cache == env1.cache
  {
  }

  /** "Done with N records" names the count exactly and is never mistaken for "Failed". */
  lemma DoneReplyDeterminesCount(a: nat, b: nat)
    ensures DoneReply(a) != FailedReply
    ensures DoneReply(a) == DoneReply(b) ==> a == b
  {
    var prefix := "Done with ";
    assert DoneReply(a)[0] == 'D';
    if DoneReply(a) == DoneReply(b) {
      var x := Decimal.FromNat(a);
      var y := Decimal.FromNat(b);
      assert |x| == |y|;
      assert x == DoneReply(a)[|prefix|..|prefix| + |x|];
      assert y == DoneReply(b)[|prefix|..|prefix| + |y|];
      Decimal.FromNatInjective(a, b);
    }
  }
}
