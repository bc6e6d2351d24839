/**
 Reading the typed SES records back out of runtime objects. Each decoder is the
 inverse of the corresponding `...Fields` rendering in `SesTypes`; the handler's
 stored documents are decoded with them to show what a document preserves.
 */
module SesCodec {
  import opened Base
  import opened Json
  import opened SesTypes

  /** Decodes every element of an array, failing if any element does not decode. */
  function DecodeAll<T>(items: seq<Value>, decode: Value -> Option<T>): (r: Option<seq<T>>)
    ensures r.Some? <==> forall i :: 0 <= i < |items| ==> decode(items[i]).Some?
    ensures r.Some? ==> |r.value| == |items|
    ensures r.Some? ==> forall i :: 0 <= i < |items| ==> decode(items[i]) == Some(r.value[i])
  {
    if forall i :: 0 <= i < |items| ==> decode(items[i]).Some?
    then Some(seq(|items|, i requires 0 <= i < |items| && decode(items[i]).Some? => decode(items[i]).value))
    else None
  }

  function DecodeHeader(v: Value): Option<Header> {
    if !v.Obj? then None
    else
      var name :- GetString(v.fields, "name");
      var value :- GetString(v.fields, "value");
      Some(Header(name, value))
  }

  function DecodeHeaderValue(v: Value): Option<HeaderValue> {
    match v
    case Str(t) => Some(Single(t))
    case Arr(items) =>
      var ts :- AsStrings(items);
      Some(Multiple(ts))
    case _ => None
  }

  function DecodeCommonHeaders(f: Fields): Option<map<string, HeaderValue>> {
    if forall k :: k in f ==> DecodeHeaderValue(f[k]).Some?
    then Some(map k | k in f :: DecodeHeaderValue(f[k]).value)
    else None
  }

  function DecodeMail(f: Fields): Option<MailObject> {
    var timestamp :- GetString(f, "timestamp");
    var messageId :- GetString(f, "messageId");
    var source :- GetString(f, "source");
    var sourceArn :- GetString(f, "sourceArn");
    var sourceIp :- GetString(f, "sourceIp");
    var sendingAccountId :- GetString(f, "sendingAccountId");
    var destinationItems :- GetArray(f, "destination");
    var destination :- AsStrings(destinationItems);
    var headersTruncated :- GetBool(f, "headersTruncated");
    var headerItems :- GetArray(f, "headers");
    var headers :- DecodeAll(headerItems, DecodeHeader);
    var commonFields :- GetObject(f, "commonHeaders");
    var commonHeaders :- DecodeCommonHeaders(commonFields);
    Some(MailObject(timestamp, messageId, source, sourceArn, sourceIp, sendingAccountId,
      destination, headersTruncated, headers, commonHeaders, f - MailKeys))
  }

  function DecodeDelivery(f: Fields): Option<DeliveryData> {
    var timestamp :- GetString(f, "timestamp");
    var processingTimeMillis :- GetNum(f, "processingTimeMillis");
    var recipientItems :- GetArray(f, "recipients");
    var recipients :- AsStrings(recipientItems);
    var smtpResponse :- GetString(f, "smtpResponse");
    var reportingMTA :- GetString(f, "reportingMTA");
    var remoteMtaIp :- GetString(f, "remoteMtaIp");
    Some(DeliveryData(timestamp, processingTimeMillis, recipients, smtpResponse,
      reportingMTA, remoteMtaIp, f - DeliveryKeys))
  }

  function DecodeRecipient(v: Value): Option<Recipient> {
    if !v.Obj? then None
    else
      var emailAddress :- GetString(v.fields, "emailAddress");
      Some(Recipient(emailAddress))
  }

  function DecodeBouncedRecipient(v: Value): Option<BouncedRecipient> {
    if !v.Obj? then None
    else
      var emailAddress :- GetString(v.fields, "emailAddress");
      var action :- GetOptString(v.fields, "action");
      var status :- GetOptString(v.fields, "status");
      var diagnosticCode :- GetOptString(v.fields, "diagnosticCode");
      Some(BouncedRecipient(emailAddress, action, status, diagnosticCode))
  }

  function DecodeBounce(f: Fields): Option<BounceData> {
    var bounceType :- GetString(f, "bounceType");
    var bounceSubType :- GetString(f, "bounceSubType");
    var recipientItems :- GetArray(f, "bouncedRecipients");
    var bouncedRecipients :- DecodeAll(recipientItems, DecodeBouncedRecipient);
    var timestamp :- GetString(f, "timestamp");
    var feedbackId :- GetString(f, "feedbackId");
    var remoteMtaIp :- GetOptString(f, "remoteMtaIp");
    var reportingMTA :- GetOptString(f, "reportingMTA");
    Some(BounceData(bounceType, bounceSubType, bouncedRecipients, timestamp, feedbackId,
      remoteMtaIp, reportingMTA, f - (BounceRequiredKeys + BounceOptionalKeys)))
  }

  function DecodeComplaint(f: Fields): Option<ComplaintData> {
    var recipientItems :- GetArray(f, "complainedRecipients");
    var complainedRecipients :- DecodeAll(recipientItems, DecodeRecipient);
    var timestamp :- GetString(f, "timestamp");
    var feedbackId :- GetString(f, "feedbackId");
    var complaintSubType :- GetString(f, "complaintSubType");
    var userAgent :- GetOptString(f, "userAgent");
    var complaintFeedbackType :- GetOptString(f, "complaintFeedbackType");
    var arrivalDate :- GetOptString(f, "arrivalDate");
    Some(ComplaintData(complainedRecipients, timestamp, feedbackId, complaintSubType,
      userAgent, complaintFeedbackType, arrivalDate, f - (ComplaintRequiredKeys + ComplaintOptionalKeys)))
  }

  // Round trips: the runtime object of a well-formed record holds all of it.

  lemma HeadersRoundTrip(hs: seq<Header>)
    ensures DecodeAll(HeadersValue(hs).items, DecodeHeader) == Some(hs)
  {
    var r := DecodeAll(HeadersValue(hs).items, DecodeHeader);
    assert r.Some?;
    assert r.value == hs;
  }

  lemma CommonHeadersRoundTrip(ch: map<string, HeaderValue>)
    ensures DecodeCommonHeaders(CommonHeadersValue(ch).fields) == Some(ch)
  {
    var f := CommonHeadersValue(ch).fields;
    forall k | k in f
      ensures DecodeHeaderValue(f[k]) == Some(ch[k])
    {
      if ch[k].Multiple? {
        StringsRoundTrip(ch[k].texts);
      }
    }
    var r := DecodeCommonHeaders(f);
    assert r.Some?;
    assert r.value == ch;
  }

  lemma MailRoundTrip(m: MailObject)
    requires WellFormedMail(m)
    ensures DecodeMail(MailFields(m)) == Some(m)
  {
    var f := MailFields(m);
    StringsRoundTrip(m.destination);
    HeadersRoundTrip(m.headers);
    CommonHeadersRoundTrip(m.commonHeaders);
    assert f - MailKeys == m.extra;
  }

  lemma DeliveryRoundTrip(d: DeliveryData)
    requires WellFormedDelivery(d)
    ensures DecodeDelivery(DeliveryFields(d)) == Some(d)
  {
    StringsRoundTrip(d.recipients);
    assert DeliveryFields(d) - DeliveryKeys == d.extra;
  }

  lemma BouncedRecipientsRoundTrip(rs: seq<BouncedRecipient>)
    ensures DecodeAll(BouncedRecipientsValue(rs).items, DecodeBouncedRecipient) == Some(rs)
  {
    var items := BouncedRecipientsValue(rs).items;
    forall i | 0 <= i < |items|
      ensures DecodeBouncedRecipient(items[i]) == Some(rs[i])
    {
      var r := rs[i];
      var f0 := map["emailAddress" := Str(r.emailAddress)];
      var f1 := WithOptString(f0, "action", r.action);
      var f2 := WithOptString(f1, "status", r.status);
      OptStringRoundTrip(f2, "diagnosticCode", r.diagnosticCode);
    }
    var r := DecodeAll(items, DecodeBouncedRecipient);
    assert r.Some?;
    assert r.value == rs;
  }

  lemma RecipientsRoundTrip(rs: seq<Recipient>)
    ensures DecodeAll(RecipientsValue(rs).items, DecodeRecipient) == Some(rs)
  {
    var r := DecodeAll(RecipientsValue(rs).items, DecodeRecipient);
    assert r.Some?;
    assert r.value == rs;
  }

  lemma BounceRoundTrip(b: BounceData)
    requires WellFormedBounce(b)
    ensures DecodeBounce(BounceFields(b)) == Some(b)
  {
    BouncedRecipientsRoundTrip(b.bouncedRecipients);
    var base := b.extra + map[
      "bounceType" := Str(b.bounceType),
      "bounceSubType" := Str(b.bounceSubType),
      "bouncedRecipients" := BouncedRecipientsValue(b.bouncedRecipients),
      "timestamp" := Str(b.timestamp),
      "feedbackId" := Str(b.feedbackId)];
    var f0 := base - BounceOptionalKeys;
    var f1 := WithOptString(f0, "remoteMtaIp", b.remoteMtaIp);
    var f := WithOptString(f1, "reportingMTA", b.reportingMTA);
    assert f == BounceFields(b);
    OptStringRoundTrip(f0, "remoteMtaIp", b.remoteMtaIp);
    OptStringRoundTrip(f1, "reportingMTA", b.reportingMTA);
    assert GetOptString(f, "remoteMtaIp") == Some(b.remoteMtaIp);
    assert GetArray(f, "bouncedRecipients") == Some(BouncedRecipientsValue(b.bouncedRecipients).items);
    assert GetString(f, "bounceType") == Some(b.bounceType);
    assert GetString(f, "bounceSubType") == Some(b.bounceSubType);
    assert GetString(f, "timestamp") == Some(b.timestamp);
    assert GetString(f, "feedbackId") == Some(b.feedbackId);
    assert f - (BounceRequiredKeys + BounceOptionalKeys) == b.extra;
  }

  lemma ComplaintRoundTrip(c: ComplaintData)
    requires WellFormedComplaint(c)
    ensures DecodeComplaint(ComplaintFields(c)) == Some(c)
  {
    RecipientsRoundTrip(c.complainedRecipients);
    var base := c.extra + map[
      "complainedRecipients" := RecipientsValue(c.complainedRecipients),
      "timestamp" := Str(c.timestamp),
      "feedbackId" := Str(c.feedbackId),
      "complaintSubType" := Str(c.complaintSubType)];
    var f0 := base - ComplaintOptionalKeys;
    var f1 := WithOptString(f0, "userAgent", c.userAgent);
    var f2 := WithOptString(f1, "complaintFeedbackType", c.complaintFeedbackType);
    var f := WithOptString(f2, "arrivalDate", c.arrivalDate);
    assert f == ComplaintFields(c);
    OptStringRoundTrip(f0, "userAgent", c.userAgent);
    OptStringRoundTrip(f1, "complaintFeedbackType", c.complaintFeedbackType);
    OptStringRoundTrip(f2, "arrivalDate", c.arrivalDate);
    assert GetOptString(f, "userAgent") == Some(c.userAgent);
    assert GetOptString(f, "complaintFeedbackType") == Some(c.complaintFeedbackType);
    assert GetArray(f, "complainedRecipients") == Some(RecipientsValue(c.complainedRecipients).items);
    assert GetString(f, "timestamp") == Some(c.timestamp);
    assert GetString(f, "feedbackId") == Some(c.feedbackId);
    assert GetString(f, "complaintSubType") == Some(c.complaintSubType);
    assert f - (ComplaintRequiredKeys + ComplaintOptionalKeys) == c.extra;
  }
}
