/**
 The SES notification payloads: the `mail` envelope, the three detail records
 and the tagged union over `notificationType`. Each record is a typed view of a
 runtime object; `extra` holds the properties an object has beyond the declared
 ones, which the type does not forbid.
 */
module SesTypes {
  import opened Base
  import opened Json

  datatype Header = Header(name: string, value: string)

  /** A value of `Record<string, string | string[]>`. */
  datatype HeaderValue = Single(text: string) | Multiple(texts: seq<string>)

  datatype MailObject = MailObject(
    timestamp: string,
    messageId: string,
    source: string,
    sourceArn: string,
    sourceIp: string,
    sendingAccountId: string,
    destination: seq<string>,
    headersTruncated: bool,
    headers: seq<Header>,
    commonHeaders: map<string, HeaderValue>,
    extra: Fields)

  /** Six required properties and no optional one. */
  datatype DeliveryData = DeliveryData(
    timestamp: string,
    processingTimeMillis: int,
    recipients: seq<string>,
    smtpResponse: string,
    reportingMTA: string,
    remoteMtaIp: string,
    extra: Fields)

  datatype Recipient = Recipient(emailAddress: string)

  datatype BouncedRecipient = BouncedRecipient(
    emailAddress: string,
    action: Option<string>,
    status: Option<string>,
    diagnosticCode: Option<string>)

  datatype BounceData = BounceData(
    bounceType: string,
    bounceSubType: string,
    bouncedRecipients: seq<BouncedRecipient>,
    timestamp: string,
    feedbackId: string,
    remoteMtaIp: Option<string>,
    reportingMTA: Option<string>,
    extra: Fields)

  datatype ComplaintData = ComplaintData(
    complainedRecipients: seq<Recipient>,
    timestamp: string,
    feedbackId: string,
    complaintSubType: string,
    userAgent: Option<string>,
    complaintFeedbackType: Option<string>,
    arrivalDate: Option<string>,
    extra: Fields)

  /** The closed union: every variant has a `mail` envelope and exactly one detail record. */
  datatype SesNotification =
    | Delivery(mail: MailObject, delivery: DeliveryData)
    | Bounce(mail: MailObject, bounce: BounceData)
    | Complaint(mail: MailObject, complaint: ComplaintData)
  {
    /** The `notificationType` literal of the variant. */
    function NotificationType(): string {
      match this
      case Delivery(_, _) => "Delivery"
      case Bounce(_, _) => "Bounce"
      case Complaint(_, _) => "Complaint"
    }

    /** The property that holds the detail record. */
    function DetailKey(): string {
      match this
      case Delivery(_, _) => "delivery"
      case Bounce(_, _) => "bounce"
      case Complaint(_, _) => "complaint"
    }
  }

  // Declared property names.

  const MailKeys: set<string> := {
    "timestamp", "messageId", "source", "sourceArn", "sourceIp",
    "sendingAccountId", "destination", "headersTruncated", "headers", "commonHeaders"}

  const DeliveryKeys: set<string> := {
    "timestamp", "processingTimeMillis", "recipients", "smtpResponse", "reportingMTA", "remoteMtaIp"}

  const BounceRequiredKeys: set<string> := {
    "bounceType", "bounceSubType", "bouncedRecipients", "timestamp", "feedbackId"}

  const BounceOptionalKeys: set<string> := {"remoteMtaIp", "reportingMTA"}

  const ComplaintRequiredKeys: set<string> := {
    "complainedRecipients", "timestamp", "feedbackId", "complaintSubType"}

  const ComplaintOptionalKeys: set<string> := {"userAgent", "complaintFeedbackType", "arrivalDate"}

  const DetailKeys: set<string> := {"delivery", "bounce", "complaint"}

  /** The detail property a `notificationType` literal goes with. */
  function DetailKeyFor(tag: string): Option<string> {
    if tag == "Delivery" then Some("delivery")
    else if tag == "Bounce" then Some("bounce")
    else if tag == "Complaint" then Some("complaint")
    else None
  }

  /** Unknown properties never shadow declared ones. */
  predicate WellFormedMail(m: MailObject) {
    m.extra.Keys !! MailKeys
  }

  predicate WellFormedDelivery(d: DeliveryData) {
    d.extra.Keys !! DeliveryKeys
  }

  predicate WellFormedBounce(b: BounceData) {
    b.extra.Keys !! (BounceRequiredKeys + BounceOptionalKeys)
  }

  predicate WellFormedComplaint(c: ComplaintData) {
    c.extra.Keys !! (ComplaintRequiredKeys + ComplaintOptionalKeys)
  }

  // The runtime objects behind the typed views.

  function HeaderFields(h: Header): Fields {
    map["name" := Str(h.name), "value" := Str(h.value)]
  }

  function HeadersValue(hs: seq<Header>): Value {
    Arr(seq(|hs|, i requires 0 <= i < |hs| => Obj(HeaderFields(hs[i]))))
  }

  function HeaderValueValue(h: HeaderValue): Value {
    match h
    case Single(t) => Str(t)
    case Multiple(ts) => Strings(ts)
  }

  function CommonHeadersValue(ch: map<string, HeaderValue>): Value {
    Obj(map k | k in ch :: HeaderValueValue(ch[k]))
  }

  function MailFields(m: MailObject): Fields {
    m.extra + map[
      "timestamp" := Str(m.timestamp),
      "messageId" := Str(m.messageId),
      "source" := Str(m.source),
      "sourceArn" := Str(m.sourceArn),
      "sourceIp" := Str(m.sourceIp),
      "sendingAccountId" := Str(m.sendingAccountId),
      "destination" := Strings(m.destination),
      "headersTruncated" := Bool(m.headersTruncated),
      "headers" := HeadersValue(m.headers),
      "commonHeaders" := CommonHeadersValue(m.commonHeaders)]
  }

  function DeliveryFields(d: DeliveryData): Fields {
    d.extra + map[
      "timestamp" := Str(d.timestamp),
      "processingTimeMillis" := Num(d.processingTimeMillis),
      "recipients" := Strings(d.recipients),
      "smtpResponse" := Str(d.smtpResponse),
      "reportingMTA" := Str(d.reportingMTA),
      "remoteMtaIp" := Str(d.remoteMtaIp)]
  }

  function RecipientFields(r: Recipient): Fields {
    map["emailAddress" := Str(r.emailAddress)]
  }

  function BouncedRecipientFields(r: BouncedRecipient): Fields {
    var f := map["emailAddress" := Str(r.emailAddress)];
    WithOptString(WithOptString(WithOptString(f, "action", r.action), "status", r.status), "diagnosticCode", r.diagnosticCode)
  }

  function RecipientsValue(rs: seq<Recipient>): Value {
    Arr(seq(|rs|, i requires 0 <= i < |rs| => Obj(RecipientFields(rs[i]))))
  }

  function BouncedRecipientsValue(rs: seq<BouncedRecipient>): Value {
    Arr(seq(|rs|, i requires 0 <= i < |rs| => Obj(BouncedRecipientFields(rs[i]))))
  }

  function BounceFields(b: BounceData): Fields {
    var f := b.extra + map[
      "bounceType" := Str(b.bounceType),
      "bounceSubType" := Str(b.bounceSubType),
      "bouncedRecipients" := BouncedRecipientsValue(b.bouncedRecipients),
      "timestamp" := Str(b.timestamp),
      "feedbackId" := Str(b.feedbackId)];
    WithOptString(WithOptString(f - BounceOptionalKeys, "remoteMtaIp", b.remoteMtaIp), "reportingMTA", b.reportingMTA)
  }

  function ComplaintFields(c: ComplaintData): Fields {
    var f := c.extra + map[
      "complainedRecipients" := RecipientsValue(c.complainedRecipients),
      "timestamp" := Str(c.timestamp),
      "feedbackId" := Str(c.feedbackId),
      "complaintSubType" := Str(c.complaintSubType)];
    WithOptString(WithOptString(WithOptString(f - ComplaintOptionalKeys, "userAgent", c.userAgent),
      "complaintFeedbackType", c.complaintFeedbackType), "arrivalDate", c.arrivalDate)
  }

  function NotificationFields(n: SesNotification): Fields {
    var detail := match n
      case Delivery(_, d) => DeliveryFields(d)
      case Bounce(_, b) => BounceFields(b)
      case Complaint(_, c) => ComplaintFields(c);
    map["notificationType" := Str(n.NotificationType()), "mail" := Obj(MailFields(n.mail)), n.DetailKey() := Obj(detail)]
  }

  // What the declarations promise about the runtime objects.

  /** A delivery always carries all six declared properties; only unknown ones come on top. */
  lemma DeliveryShape(d: DeliveryData)
    ensures DeliveryKeys <= DeliveryFields(d).Keys
    ensures DeliveryFields(d).Keys == DeliveryKeys + d.extra.Keys
    ensures WellFormedDelivery(d) ==> DeliveryFields(d).Keys - DeliveryKeys == d.extra.Keys
  {
  }

  /** A bounced recipient always has `emailAddress`; the other three properties appear exactly when set. */
  lemma BouncedRecipientShape(r: BouncedRecipient)
    ensures "emailAddress" in BouncedRecipientFields(r)
    ensures BouncedRecipientFields(r)["emailAddress"] == Str(r.emailAddress)
    ensures BouncedRecipientFields(r).Keys <= {"emailAddress", "action", "status", "diagnosticCode"}
    ensures "action" in BouncedRecipientFields(r) <==> r.action.Some?
    ensures "status" in BouncedRecipientFields(r) <==> r.status.Some?
    ensures "diagnosticCode" in BouncedRecipientFields(r) <==> r.diagnosticCode.Some?
  {
  }

  /** The five required bounce properties are always present, the two optional ones exactly when set. */
  lemma BounceShape(b: BounceData)
    ensures BounceRequiredKeys <= BounceFields(b).Keys
    ensures "remoteMtaIp" in BounceFields(b) <==> b.remoteMtaIp.Some?
    ensures "reportingMTA" in BounceFields(b) <==> b.reportingMTA.Some?
    ensures BounceFields(b).Keys <= BounceRequiredKeys + BounceOptionalKeys + b.extra.Keys
  {
  }

  /** The four required complaint properties are always present, the three optional ones exactly when set. */
  lemma ComplaintShape(c: ComplaintData)
    ensures ComplaintRequiredKeys <= ComplaintFields(c).Keys
    ensures "userAgent" in ComplaintFields(c) <==> c.userAgent.Some?
    ensures "complaintFeedbackType" in ComplaintFields(c) <==> c.complaintFeedbackType.Some?
    ensures "arrivalDate" in ComplaintFields(c) <==> c.arrivalDate.Some?
    ensures ComplaintFields(c).Keys <= ComplaintRequiredKeys + ComplaintOptionalKeys + c.extra.Keys
  {
  }

  /**
   Every notification carries its `mail` envelope, and its tag decides the one
   detail property it has: no variant carries two of them.
   */
  lemma NotificationShape(n: SesNotification)
    ensures NotificationFields(n).Keys == {"notificationType", "mail", n.DetailKey()}
    ensures NotificationFields(n)["notificationType"] == Str(n.NotificationType())
    ensures NotificationFields(n)["mail"] == Obj(MailFields(n.mail))
    ensures DetailKeyFor(n.NotificationType()) == Some(n.DetailKey())
    ensures NotificationFields(n).Keys * DetailKeys == {n.DetailKey()}
  {
  }

  /** The tag and the detail property determine each other. */
  lemma TagDecidesDetail(n: SesNotification, m: SesNotification)
    ensures n.NotificationType() == m.NotificationType() <==> n.DetailKey() == m.DetailKey()
    ensures n.NotificationType() == m.NotificationType() <==> n.Delivery? == m.Delivery? && n.Bounce? == m.Bounce?
  {
  }

  /** The values behind the declared bounce properties, and the unknown ones kept as they are. */
  lemma BounceFieldValues(b: BounceData)
    requires WellFormedBounce(b)
    ensures var f := BounceFields(b);
      && f["bounceType"] == Str(b.bounceType)
      && f["bounceSubType"] == Str(b.bounceSubType)
      && f["bouncedRecipients"] == BouncedRecipientsValue(b.bouncedRecipients)
      && f["timestamp"] == Str(b.timestamp)
      && f["feedbackId"] == Str(b.feedbackId)
      && (b.remoteMtaIp.Some? ==> f["remoteMtaIp"] == Str(b.remoteMtaIp.value))
      && (b.reportingMTA.Some? ==> f["reportingMTA"] == Str(b.reportingMTA.value))
      && (forall k :: k in b.extra ==> k in f && f[k] == b.extra[k])
  {
    var f := BounceFields(b);
    BounceShape(b);
    forall k | k in b.extra
      ensures k in f && f[k] == b.extra[k]
    {
      assert k !in BounceRequiredKeys + BounceOptionalKeys;
    }
  }

  /** The values behind the declared complaint properties, and the unknown ones kept as they are. */
  lemma ComplaintFieldValues(c: ComplaintData)
    requires WellFormedComplaint(c)
    ensures var f := ComplaintFields(c);
      && f["complainedRecipients"] == RecipientsValue(c.complainedRecipients)
      && f["timestamp"] == Str(c.timestamp)
      && f["feedbackId"] == Str(c.feedbackId)
      && f["complaintSubType"] == Str(c.complaintSubType)
      && (c.userAgent.Some? ==> f["userAgent"] == Str(c.userAgent.value))
      && (c.complaintFeedbackType.Some? ==> f["complaintFeedbackType"] == Str(c.complaintFeedbackType.value))
      && (c.arrivalDate.Some? ==> f["arrivalDate"] == Str(c.arrivalDate.value))
      && (forall k :: k in c.extra ==> k in f && f[k] == c.extra[k])
  {
    var f := ComplaintFields(c);
    ComplaintShape(c);
    forall k | k in c.extra
      ensures k in f && f[k] == c.extra[k]
    {
      assert k !in ComplaintRequiredKeys + ComplaintOptionalKeys;
    }
  }
}
