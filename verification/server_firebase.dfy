/**
 * The Firebase subscriber of the ntfy server: it turns one internal message
 * event into one Firebase Cloud Messaging (FCM) message and hands it to a
 * sender. Translation is a pure function; the send is a method on a sender
 * object that records every message it is given.
 */
module ServerFirebase {
  import opened Wrappers
  import opened Format

  datatype Attachment = Attachment(
    name: string,
    contentType: string,
    size: int,
    expires: int,
    url: string)

  /** The fields of the server's internal message that the translator reads. */
  datatype Message = Message(
    id: string,
    time: int,
    event: string,
    topic: string,
    priority: int,
    tags: seq<string>,
    click: string,
    title: string,
    message: string,
    encoding: string,
    attachment: Option<Attachment>)

  /** The package constants keepaliveEvent, openEvent, messageEvent and
      pollRequestEvent. Their spellings live outside this component, so
      they are a parameter. */
  datatype EventKinds = EventKinds(
    keepalive: string,
    open: string,
    message: string,
    pollRequest: string)
  {
    /** The three constants that are cases of one switch: Go rejects duplicates there. */
    predicate SwitchCasesDistinct() {
      keepalive != open && keepalive != message && open != message
    }

    /** The switch cases are distinct and the poll-request name is a fourth,
        different name. The second part is an assumption about the package
        constants, not something the switch enforces. */
    predicate Distinct() {
      && SwitchCasesDistinct()
      && pollRequest != keepalive && pollRequest != open && pollRequest != message
    }
  }

  datatype AndroidConfig = AndroidConfig(priority: string)

  /** `messaging.Message`: a nil `Data` map is `None`, a nil `Android` pointer is `None`. */
  datatype FcmMessage = FcmMessage(
    topic: string,
    data: Option<map<string, string>>,
    android: Option<AndroidConfig>)

  /** The optional `auth.Auther`. `None` is a nil auther; `Some(anonymousRead)`
      answers whether `Authorize(nil, topic, PermissionRead)` returns nil. */
  type Auther = Option<string -> bool>

  const MetadataKeys: set<string> := {"id", "time", "event", "topic"}
  const ContentKeys: set<string> := {"priority", "tags", "click", "title", "message", "encoding"}
  const AttachmentKeys: set<string> :=
    {"attachment_name", "attachment_type", "attachment_size", "attachment_expires", "attachment_url"}

  /** The anonymous-read check that decides whether content may be forwarded. */
  function AllowForward(auther: Auther, topic: string): (allowed: bool)
    ensures auther.None? ==> allowed
    ensures auther.Some? ==> (allowed <==> auther.value(topic))
  {
    match auther
    case None => true
    case Some(anonymousRead) => anonymousRead(topic)
  }

  /** The four metadata keys, with `event` set to the given event name. */
  function MetadataData(m: Message, event: string): (d: map<string, string>)
    ensures d.Keys == MetadataKeys
    ensures d["id"] == m.id && d["time"] == FormatInt(m.time)
    ensures d["event"] == event && d["topic"] == m.topic
  {
    map["id" := m.id, "time" := FormatInt(m.time), "event" := event, "topic" := m.topic]
  }

  function AttachmentData(a: Attachment): (d: map<string, string>)
    ensures d.Keys == AttachmentKeys
  {
    map[
      "attachment_name" := a.name,
      "attachment_type" := a.contentType,
      "attachment_size" := FormatInt(a.size),
      "attachment_expires" := FormatInt(a.expires),
      "attachment_url" := a.url]
  }

  /** The six content keys of a forwarded message; empty strings are kept, not dropped. */
  function ContentData(m: Message): (d: map<string, string>)
    ensures d.Keys == ContentKeys
  {
    map[
      "priority" := FormatInt(m.priority),
      "tags" := Join(m.tags),
      "click" := m.click,
      "title" := m.title,
      "message" := m.message,
      "encoding" := m.encoding]
  }

  lemma KeySetsDisjoint()
    ensures MetadataKeys !! ContentKeys
    ensures MetadataKeys !! AttachmentKeys
    ensures ContentKeys !! AttachmentKeys
  {
  }

  /** The payload of a forwarded message: ten keys, plus the attachment block when there is one. */
  function FullData(m: Message): (d: map<string, string>)
    ensures d.Keys == MetadataKeys + ContentKeys + (if m.attachment.Some? then AttachmentKeys else {})
    ensures d["id"] == m.id && d["time"] == FormatInt(m.time)
    ensures d["event"] == m.event && d["topic"] == m.topic
    ensures d["priority"] == FormatInt(m.priority) && d["tags"] == Join(m.tags)
    ensures d["click"] == m.click && d["title"] == m.title
    ensures d["message"] == m.message && d["encoding"] == m.encoding
    ensures m.attachment.Some? ==>
      && d["attachment_name"] == m.attachment.value.name
      && d["attachment_type"] == m.attachment.value.contentType
      && d["attachment_size"] == FormatInt(m.attachment.value.size)
      && d["attachment_expires"] == FormatInt(m.attachment.value.expires)
      && d["attachment_url"] == m.attachment.value.url
  {
    KeySetsDisjoint();
    var base := MetadataData(m, m.event) + ContentData(m);
    if m.attachment.Some? then base + AttachmentData(m.attachment.value) else base
  }

  /** The `switch m.Event` that fills `data`; `None` is the nil map left for other event kinds. */
  function BuildData(kinds: EventKinds, auther: Auther, m: Message): (data: Option<map<string, string>>)
    ensures data.Some? <==> m.event in {kinds.keepalive, kinds.open, kinds.message}
    ensures data.Some? ==>
      && MetadataKeys <= data.value.Keys
      && data.value["id"] == m.id
      && data.value["time"] == FormatInt(m.time)
      && data.value["topic"] == m.topic
  {
    if m.event == kinds.keepalive || m.event == kinds.open then
      Some(MetadataData(m, m.event))
    else if m.event == kinds.message then
      if AllowForward(auther, m.topic) then Some(FullData(m))
      else Some(MetadataData(m, kinds.pollRequest))
    else
      None
  }

  /** The Android priority hint. */
  function AndroidConfigFor(priority: int): (config: Option<AndroidConfig>)
    ensures config.Some? <==> priority >= 4
    ensures config.Some? ==> config.value.priority == "high"
  {
    if priority >= 4 then Some(AndroidConfig("high")) else None
  }

  /** The FCM message built for `m`, before truncation. */
  function Translate(kinds: EventKinds, auther: Auther, m: Message): (fcm: FcmMessage)
    ensures fcm.topic == m.topic
    ensures fcm.data.Some? ==> "topic" in fcm.data.value && fcm.data.value["topic"] == m.topic
    ensures fcm.android == Some(AndroidConfig("high")) <==> m.priority >= 4
    ensures fcm.android.None? <==> m.priority < 4
  {
    FcmMessage(m.topic, BuildData(kinds, auther, m), AndroidConfigFor(m.priority))
  }

  // ---------------------------------------------------------------------
  // Reading a payload back, as a receiving client would.

  /** Tags as joined by `Join`; the empty string stands for no tag at all. */
  function ParseTags(s: string): seq<string> {
    if s == "" then [] else Split(s)
  }

  /** Tag lists that survive `Join` followed by `ParseTags`. */
  predicate TagsRecoverable(tags: seq<string>) {
    && tags != [""]
    && forall i :: 0 <= i < |tags| ==> CommaFree(tags[i])
  }

  /** The attachment block: `Some(None)` when absent, `None` when malformed. */
  function DecodeAttachment(d: map<string, string>): Option<Option<Attachment>> {
    if AttachmentKeys !! d.Keys then Some(None)
    else if AttachmentKeys <= d.Keys then
      var size := ParseInt(d["attachment_size"]);
      var expires := ParseInt(d["attachment_expires"]);
      if size.None? || expires.None? then None
      else Some(Some(Attachment(
        d["attachment_name"], d["attachment_type"], size.value, expires.value, d["attachment_url"])))
    else None
  }

  /** Rebuilds the whole message from a full payload; `None` when content keys are missing. */
  function DecodeFull(d: map<string, string>): Option<Message> {
    if !(MetadataKeys + ContentKeys <= d.Keys) then None
    else
      var time := ParseInt(d["time"]);
      var priority := ParseInt(d["priority"]);
      var attachment := DecodeAttachment(d);
      if time.None? || priority.None? || attachment.None? then None
      else Some(Message(
        d["id"], time.value, d["event"], d["topic"], priority.value, ParseTags(d["tags"]),
        d["click"], d["title"], d["message"], d["encoding"], attachment.value))
  }

  // ---------------------------------------------------------------------
  // Properties of the translation.

  /** Keepalive and open events carry exactly the four metadata keys, the event
      name copied unchanged, whatever the auther says. */
  lemma KeepaliveOpenShape(kinds: EventKinds, auther: Auther, m: Message)
    requires m.event == kinds.keepalive || m.event == kinds.open
    ensures var data := BuildData(kinds, auther, m);
      && data.Some?
      && data.value.Keys == MetadataKeys
      && data.value["event"] == m.event
      && data == BuildData(kinds, None, m)
  {
  }

  /** A forwarded message carries exactly the ten keys (empty strings included) and,
      when it has an attachment, the five attachment keys. */
  lemma ForwardedShape(kinds: EventKinds, auther: Auther, m: Message)
    requires kinds.SwitchCasesDistinct()
    requires m.event == kinds.message && AllowForward(auther, m.topic)
    ensures var data := BuildData(kinds, auther, m);
      && data.Some?
      && data.value.Keys == MetadataKeys + ContentKeys + (if m.attachment.Some? then AttachmentKeys else {})
      && data.value["event"] == m.event
      && data.value["click"] == m.click
      && data.value["title"] == m.title
      && data.value["message"] == m.message
      && data.value["encoding"] == m.encoding
      && data.value["tags"] == Join(m.tags)
      && data.value["priority"] == FormatInt(m.priority)
  {
  }

  lemma DecodeAttachmentRoundTrip(m: Message)
    ensures DecodeAttachment(FullData(m)) == Some(m.attachment)
  {
    KeySetsDisjoint();
    var d := FullData(m);
    match m.attachment
    case None =>
      assert AttachmentKeys !! d.Keys;
    case Some(a) =>
      ParseFormatInt(a.size);
      ParseFormatInt(a.expires);
      assert AttachmentKeys <= d.Keys && !(AttachmentKeys !! d.Keys);
  }

  lemma ParseTagsJoin(tags: seq<string>)
    requires TagsRecoverable(tags)
    ensures ParseTags(Join(tags)) == tags
  {
    if tags != [] {
      SplitJoin(tags);
    }
  }

  /** A forwarded message is lossless when no tag contains a comma and the tags are
      not the single empty tag: a client decoding the payload gets back the very
      message, numbers, tags and attachment included. The tag condition is needed,
      see `TagJoinCollision` and `SingleEmptyTagLost`. */
  lemma ForwardedRoundTrip(kinds: EventKinds, auther: Auther, m: Message)
    requires kinds.SwitchCasesDistinct()
    requires m.event == kinds.message && AllowForward(auther, m.topic)
    requires TagsRecoverable(m.tags)
    ensures BuildData(kinds, auther, m).Some?
    ensures DecodeFull(BuildData(kinds, auther, m).value) == Some(m)
  {
    var d := FullData(m);
    assert BuildData(kinds, auther, m) == Some(d);
    assert MetadataKeys + ContentKeys <= d.Keys;
    ParseFormatInt(m.time);
    ParseFormatInt(m.priority);
    ParseTagsJoin(m.tags);
    DecodeAttachmentRoundTrip(m);
  }

  /** The join does not escape commas: a tag that contains a comma gives the same
      payload as the two tags around it, so no client can tell them apart. */
  lemma TagJoinCollision(kinds: EventKinds, auther: Auther, m: Message)
    ensures BuildData(kinds, auther, m.(tags := ["a,b"])) == BuildData(kinds, auther, m.(tags := ["a", "b"]))
  {
    assert Join(["a", "b"]) == "a" + "," + Join(["b"]) == Join(["a,b"]);
  }

  /** The single empty tag joins to the empty string, which reads back as no tag. */
  lemma SingleEmptyTagLost()
    ensures Join([""]) == Join([]) && ParseTags(Join([""])) == []
  {
  }

  /** A denied message becomes a poll request: the four metadata keys only, the
      event replaced by the poll-request name, and no content a client could decode. */
  lemma PollRequestShape(kinds: EventKinds, auther: Auther, m: Message)
    requires kinds.SwitchCasesDistinct()
    requires m.event == kinds.message && !AllowForward(auther, m.topic)
    ensures var data := BuildData(kinds, auther, m);
      && data.Some?
      && data.value.Keys == MetadataKeys
      && data.value["event"] == kinds.pollRequest
      && data.value.Keys !! ContentKeys + AttachmentKeys
      && DecodeFull(data.value).None?
  {
  }

  /** Under the assumption that the poll-request name is a fourth, different
      constant, a client can tell a poll request from the message it replaces. */
  lemma PollRequestEventDiffers(kinds: EventKinds, auther: Auther, m: Message)
    requires kinds.Distinct()
    requires m.event == kinds.message && !AllowForward(auther, m.topic)
    ensures var data := BuildData(kinds, auther, m);
      data.Some? && data.value["event"] != m.event
  {
  }

  /** The attachment keys come as a block: all five exactly when a forwarded
      message has an attachment, none otherwise. */
  lemma AttachmentBlockAtomic(kinds: EventKinds, auther: Auther, m: Message)
    requires kinds.SwitchCasesDistinct()
    ensures var data := BuildData(kinds, auther, m);
      data.Some? ==> AttachmentKeys <= data.value.Keys || AttachmentKeys !! data.value.Keys
    ensures var data := BuildData(kinds, auther, m);
      (data.Some? && AttachmentKeys <= data.value.Keys)
      <==> (m.event == kinds.message && AllowForward(auther, m.topic) && m.attachment.Some?)
  {
    KeySetsDisjoint();
  }

  /** For a message event the content is forwarded exactly when there is no
      auther or the auther grants anonymous read on the topic. */
  lemma ForwardIffAuthorized(kinds: EventKinds, auther: Auther, m: Message)
    requires kinds.SwitchCasesDistinct()
    requires m.event == kinds.message
    ensures var data := BuildData(kinds, auther, m);
      data.Some? && ("message" in data.value <==> auther.None? || auther.value(m.topic))
  {
  }

  /** Without an auther every message event is forwarded in full. */
  lemma NoAutherForwardsContent(kinds: EventKinds, m: Message)
    requires kinds.SwitchCasesDistinct()
    requires m.event == kinds.message
    ensures var data := BuildData(kinds, None, m);
      data.Some? && ContentKeys <= data.value.Keys && data.value["message"] == m.message
  {
  }

  /** Event kinds other than keepalive, open and message leave `Data` nil; the
      topic and the priority hint are still set. */
  lemma OtherEventsHaveNoData(kinds: EventKinds, auther: Auther, m: Message)
    requires m.event != kinds.keepalive && m.event != kinds.open && m.event != kinds.message
    ensures Translate(kinds, auther, m).data.None?
    ensures Translate(kinds, auther, m).topic == m.topic
    ensures Translate(kinds, auther, m).android == AndroidConfigFor(m.priority)
  {
  }

  /** The priority hint depends on the priority alone: not on the event kind,
      the auther's answer or any other field. */
  lemma PriorityHintIndependent(kinds: EventKinds, a1: Auther, a2: Auther, m1: Message, m2: Message)
    requires m1.priority == m2.priority
    ensures Translate(kinds, a1, m1).android == Translate(kinds, a2, m2).android
  {
  }

  /** The numeric fields are base-10 renderings that read back to the input numbers. */
  lemma NumericFieldsDecimal(kinds: EventKinds, auther: Auther, m: Message)
    requires kinds.SwitchCasesDistinct()
    requires m.event == kinds.message && AllowForward(auther, m.topic)
    ensures var d := BuildData(kinds, auther, m).value;
      && ParseInt(d["time"]) == Some(m.time)
      && ParseInt(d["priority"]) == Some(m.priority)
      && (m.attachment.Some? ==>
            && ParseInt(d["attachment_size"]) == Some(m.attachment.value.size)
            && ParseInt(d["attachment_expires"]) == Some(m.attachment.value.expires))
  {
    ParseFormatInt(m.time);
    ParseFormatInt(m.priority);
    if m.attachment.Some? {
      ParseFormatInt(m.attachment.value.size);
      ParseFormatInt(m.attachment.value.expires);
    }
  }

  // ---------------------------------------------------------------------
  // The sending side.

  /** The `firebaseSender`: each call is logged in `sent`, and the upstream
      service's answer to a message is given by `reply` (`None` is a nil error). */
  class Sender {
    const reply: FcmMessage -> Option<string>
    var sent: seq<FcmMessage>

    constructor (reply: FcmMessage -> Option<string>)
      ensures this.reply == reply && sent == []
    {
      this.reply := reply;
      sent := [];
    }

    method Send(msg: FcmMessage) returns (err: Option<string>)
      modifies this
      ensures sent == old(sent) + [msg]
      ensures err == reply(msg)
    {
      sent := sent + [msg];
      err := reply(msg);
    }
  }

  /** The closure `createFirebaseSubscriber` returns, bound to its auther and sender.
      `truncate` stands for `maybeTruncateFCMMessage`. */
  class Subscriber {
    const kinds: EventKinds
    const auther: Auther
    const truncate: FcmMessage -> FcmMessage
    const sender: Sender

    constructor (kinds: EventKinds, auther: Auther, truncate: FcmMessage -> FcmMessage, sender: Sender)
      ensures this.kinds == kinds && this.auther == auther
      ensures this.truncate == truncate && this.sender == sender
    {
      this.kinds := kinds;
      this.auther := auther;
      this.truncate := truncate;
      this.sender := sender;
    }

    /** Translates `m`, truncates it and sends it exactly once, returning the sender's error unchanged. */
    method Handle(m: Message) returns (err: Option<string>)
      modifies sender
      ensures sender.sent == old(sender.sent) + [truncate(Translate(kinds, auther, m))]
      ensures err == sender.reply(truncate(Translate(kinds, auther, m)))
    {
      var data: Option<map<string, string>> := None;
      if m.event == kinds.keepalive || m.event == kinds.open {
        data := Some(MetadataData(m, m.event));
      } else if m.event == kinds.message {
        var allowForward := true;
        if auther.Some? {
          allowForward := auther.value(m.topic);
        }
        if allowForward {
          data := Some(FullData(m));
        } else {
          data := Some(MetadataData(m, kinds.pollRequest));
        }
      }
      var androidConfig: Option<AndroidConfig> := None;
      if m.priority >= 4 {
        androidConfig := Some(AndroidConfig("high"));
      }
      err := sender.Send(truncate(FcmMessage(m.topic, data, androidConfig)));
    }
  }

  // ---------------------------------------------------------------------
  // Worked scenarios.

  lemma KeepaliveScenario(kinds: EventKinds)
    ensures var m := Message("abc", 100, kinds.keepalive, "alerts", 3, [], "", "", "", "", None);
      Translate(kinds, None, m)
      == FcmMessage("alerts",
           Some(map["id" := "abc", "time" := "100", "event" := kinds.keepalive, "topic" := "alerts"]),
           None)
  {
    assert FormatInt(100) == "100";
  }

  lemma AllowedAttachmentScenario(kinds: EventKinds)
    requires kinds.SwitchCasesDistinct()
    ensures var m := Message("m1", 200, kinds.message, "t", 5, ["a", "b"], "", "hi", "yo", "",
                             Some(Attachment("f", "t", 7, 300, "u")));
      var fcm := Translate(kinds, None, m);
      && fcm.topic == "t"
      && fcm.android == Some(AndroidConfig("high"))
      && fcm.data.Some?
      && fcm.data.value.Keys == MetadataKeys + ContentKeys + AttachmentKeys
      && fcm.data.value["id"] == "m1" && fcm.data.value["time"] == "200"
      && fcm.data.value["event"] == kinds.message && fcm.data.value["topic"] == "t"
      && fcm.data.value["priority"] == "5" && fcm.data.value["tags"] == "a,b"
      && fcm.data.value["click"] == "" && fcm.data.value["title"] == "hi"
      && fcm.data.value["message"] == "yo" && fcm.data.value["encoding"] == ""
      && fcm.data.value["attachment_name"] == "f" && fcm.data.value["attachment_type"] == "t"
      && fcm.data.value["attachment_size"] == "7" && fcm.data.value["attachment_expires"] == "300"
      && fcm.data.value["attachment_url"] == "u"
  {
    assert FormatInt(7) == "7";
    assert FormatInt(200) == "200";
    assert FormatInt(300) == "300";
    assert FormatInt(5) == "5";
    assert Join(["a", "b"]) == "a,b";
  }

  lemma DeniedHighPriorityScenario(kinds: EventKinds)
    requires kinds.SwitchCasesDistinct()
    ensures var m := Message("m1", 200, kinds.message, "t", 4, ["a", "b"], "", "hi", "yo", "", None);
      Translate(kinds, Some((topic: string) => false), m)
      == FcmMessage("t",
           Some(map["id" := "m1", "time" := "200", "event" := kinds.pollRequest, "topic" := "t"]),
           Some(AndroidConfig("high")))
  {
    assert FormatInt(200) == "200";
  }
}
