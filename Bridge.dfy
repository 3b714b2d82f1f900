/** The event bridge's pure part: which inbound messages are relayed, how the
    sender's number is read off its id, and the JSON payloads posted for
    messages, rejected calls and disconnections. */
module Bridge {
  import opened Values
  import opened Text
  import opened Effects

  /** The message types the `switch` of the message handler tells apart.
      Any other type is `OtherType`, carrying the name it was reported under. */
  datatype MessageType =
    | Chat | Image | Video | Audio | Ptt | Document | Location | Contact | Vcard | Ciphertext
    | OtherType(name: string)
  {
    /** The type as the client writes it. */
    function Name(): string {
      match this
      case Chat => "chat"
      case Image => "image"
      case Video => "video"
      case Audio => "audio"
      case Ptt => "ptt"
      case Document => "document"
      case Location => "location"
      case Contact => "contact"
      case Vcard => "vcard"
      case Ciphertext => "ciphertext"
      case OtherType(name) => name
    }
  }

  /** The `switch (msg.type)`: the case a reported type falls into. The name
      is never changed on the way. */
  function TypeNamed(name: string): (t: MessageType)
    ensures t.Name() == name
  {
    if name == "chat" then Chat
    else if name == "image" then Image
    else if name == "video" then Video
    else if name == "audio" then Audio
    else if name == "ptt" then Ptt
    else if name == "document" then Document
    else if name == "location" then Location
    else if name == "contact" then Contact
    else if name == "vcard" then Vcard
    else if name == "ciphertext" then Ciphertext
    else OtherType(name)
  }

  /** Each listed case is reached by exactly its own name, so `OtherType`
      stands only for the `default` branch. */
  lemma KnownTypeNamesParse(t: MessageType)
    requires !t.OtherType?
    ensures TypeNamed(t.Name()) == t
  {
  }

  /** Message types that are never relayed. */
  const IgnoredNames: set<string> := {
    "sticker", "call_log", "e2e_notification", "revoked", "multi_vcard",
    "order", "product", "list", "buttons_response", "list_response",
    "poll", "poll_response"
  }

  /** Message types whose payload carries fields beyond the common ones. */
  const DetailedTypes: set<MessageType> :=
    {Image, Video, Audio, Ptt, Document, Location, Contact, Vcard, Ciphertext}

  const CommonKeys: set<Field> :=
    {PhoneNumberKey, TypeKey, FromKey, IdKey, TimestampKey, BodyKey, HasMediaKey}

  /** The text sent back to a caller whose call was rejected. */
  const DeclineText: string := "No se pueden recibir llamadas"

  const CallNoticePrefix: string := "Llamada rechazada del número: "

  const DownMessage: string := "WhatsApp client is down"

  /** The status-broadcast identities, to which nothing is relayed or sent. */
  predicate IsStatusIdentity(id: string) {
    id == "status@broadcast" || id == "status@c.us"
  }

  /** An inbound message as the client reports it. `id` is the serialized
      message id when the message has one; the other optional fields are
      whatever the client put there (`undefined` when absent). */
  datatype InboundMessage = InboundMessage(
    from: string,
    typeName: string,
    id: Option<string>,
    timestamp: Json,
    body: Json,
    hasMedia: Json,
    caption: Json,
    filename: Json,
    location: Json,
    vcard: Json)
  {
    /** The case of the `switch` this message falls into. */
    function Kind(): MessageType {
      TypeNamed(typeName)
    }
  }

  datatype IncomingCall = IncomingCall(from: string, isVideo: Json)

  /** Messages that survive the status and ignored-type filters. */
  predicate Forwardable(m: InboundMessage) {
    !IsStatusIdentity(m.from) && m.typeName !in IgnoredNames
  }

  /** The webhook a message is posted to, if any: only forwardable messages,
      and only when ONMESSAGE is set. */
  function RelayTarget(m: InboundMessage, onMessage: Option<string>): (r: Option<string>)
    ensures r.Some? <==> IsSet(onMessage) && !IsStatusIdentity(m.from) && m.typeName !in IgnoredNames
    ensures r.Some? ==> onMessage == Some(r.value)
  {
    if Forwardable(m) && IsSet(onMessage) then onMessage else None
  }

  /** The sender's number as the payload renders it: the text before the
      first '@' when that text is non-empty (`/^([^@]+)@/`), otherwise the
      string "null" (a `null` match rendered by a template literal). */
  function PhoneNumberOf(from: string): (r: string)
    ensures '@' in from && from[0] != '@' ==>
      0 < |r| < |from| && r == from[..|r|] && from[|r|] == '@' && '@' !in r
    ensures !('@' in from && from[0] != '@') ==> r == "null"
  {
    match IndexOf(from, '@')
    case Some(k) => if k > 0 then from[..k] else "null"
    case None => "null"
  }

  /** The fields every relayed message carries. */
  function CommonFields(m: InboundMessage): (r: map<Field, Json>)
    ensures r.Keys == CommonKeys
  {
    map[
      PhoneNumberKey := Str(PhoneNumberOf(m.from)),
      TypeKey := Str(m.typeName),
      FromKey := Str(m.from),
      IdKey := (if m.id.Some? then Str(m.id.value) else Undefined),
      TimestampKey := m.timestamp,
      BodyKey := Or(m.body, Str("")),
      HasMediaKey := Or(m.hasMedia, Bool(false))
    ]
  }

  /** The fields the `switch` on the message type adds. */
  function TypeFields(m: InboundMessage): (r: map<Field, Json>)
    ensures r.Keys == ExtraKeys(m.Kind())
  {
    match m.Kind()
    case Image => map[ImagenKey := Bool(true), CaptionKey := Or(m.caption, Str(""))]
    case Video => map[VideoKey := Bool(true), CaptionKey := Or(m.caption, Str(""))]
    case Audio => map[AudioKey := Bool(true)]
    case Ptt => map[AudioKey := Bool(true)]
    case Document =>
      map[DocumentKey := Bool(true), FilenameKey := Or(m.filename, Str("")),
          CaptionKey := Or(m.caption, Str(""))]
    case Location => map[LocationKey := LocationOf(m.location)]
    case Contact => map[ContactKey := Or(m.vcard, Str(""))]
    case Vcard => map[ContactKey := Or(m.vcard, Str(""))]
    case Ciphertext => map[CiphertextKey := Bool(true)]
    case _ => map[]
  }

  /** `{latitude, longitude, description}` read off `msg.location?.…`. */
  function LocationOf(location: Json): Json {
    Obj(map[
      "latitude" := Member(location, "latitude"),
      "longitude" := Member(location, "longitude"),
      "description" := Member(location, "description")
    ])
  }

  /** The payload posted for a relayed message. Type-specific fields are
      added beside the common ones and never replace them. */
  function MessagePayload(m: InboundMessage): (p: map<Field, Json>)
    ensures forall k :: k in p <==> k in CommonKeys || k in ExtraKeys(m.Kind())
    ensures forall k :: k in CommonKeys ==> k in p && p[k] == CommonFields(m)[k]
    ensures forall k :: k in TypeFields(m) ==> k in p && p[k] == TypeFields(m)[k]
  {
    assert ExtraKeys(m.Kind()) !! CommonKeys;
    CommonFields(m) + TypeFields(m)
  }

  /** The payload posted to ONMESSAGE after a call was rejected. */
  function CallPayload(call: IncomingCall, now: int): map<Field, Json> {
    map[
      PhoneNumberKey := Str(call.from),
      MessageKey := Str(CallNoticePrefix + call.from),
      TypeKey := Str("call"),
      IsVideoKey := call.isVideo,
      TimestampKey := Num(now)
    ]
  }

  /** The payload posted to ONDOWN when the client goes down. */
  function DownPayload(reason: Json, now: int): map<Field, Json> {
    map[
      MessageKey := Str(DownMessage),
      ReasonKey := Or(reason, Str("unknown")),
      TimestampKey := Num(now)
    ]
  }

  /** The sender's number is never empty and never contains '@'. */
  lemma PhoneNumberShape(from: string)
    ensures PhoneNumberOf(from) != "" && '@' !in PhoneNumberOf(from)
  {
  }

  /** Status broadcasts and ignored types are never relayed, nor is anything
      when ONMESSAGE is unset. */
  lemma FilteredMessagesNotRelayed(m: InboundMessage, onMessage: Option<string>)
    requires IsStatusIdentity(m.from) || m.typeName in IgnoredNames || !IsSet(onMessage)
    ensures RelayTarget(m, onMessage) == None
  {
  }

  /** The keys each message type adds to the common ones. */
  function ExtraKeys(t: MessageType): set<Field> {
    match t
    case Image => {ImagenKey, CaptionKey}
    case Video => {VideoKey, CaptionKey}
    case Audio => {AudioKey}
    case Ptt => {AudioKey}
    case Document => {DocumentKey, FilenameKey, CaptionKey}
    case Location => {LocationKey}
    case Contact => {ContactKey}
    case Vcard => {ContactKey}
    case Ciphertext => {CiphertextKey}
    case _ => {}
  }

  /** Only the detailed types add keys to the common ones. */
  lemma DetailedTypesAddKeys(t: MessageType)
    ensures ExtraKeys(t) == {} <==> t !in DetailedTypes
  {
  }

  /** A location payload mirrors the reported location field for field. */
  lemma LocationMirrored(m: InboundMessage)
    requires m.Kind() == Location
    ensures var p := MessagePayload(m);
      && LocationKey in p
      && p[LocationKey] == Obj(map["latitude" := Member(m.location, "latitude"),
                                   "longitude" := Member(m.location, "longitude"),
                                   "description" := Member(m.location, "description")])
  {
    assert LocationKey in TypeFields(m) && TypeFields(m)[LocationKey] == LocationOf(m.location);
  }

  /** An image payload is flagged `imagen` and carries the caption, or ''. */
  lemma ImageFields(m: InboundMessage)
    requires m.Kind() == Image
    ensures var p := MessagePayload(m);
      && ImagenKey in p && p[ImagenKey] == Bool(true)
      && CaptionKey in p && p[CaptionKey] == Or(m.caption, Str(""))
  {
    assert ImagenKey in TypeFields(m) && CaptionKey in TypeFields(m);
  }

  /** A video payload is flagged `video` and carries the caption, or ''. */
  lemma VideoFields(m: InboundMessage)
    requires m.Kind() == Video
    ensures var p := MessagePayload(m);
      && VideoKey in p && p[VideoKey] == Bool(true)
      && CaptionKey in p && p[CaptionKey] == Or(m.caption, Str(""))
  {
    assert VideoKey in TypeFields(m) && CaptionKey in TypeFields(m);
  }

  /** A document payload is flagged `document` and carries the file name and
      the caption, each falling back to ''. */
  lemma DocumentFields(m: InboundMessage)
    requires m.Kind() == Document
    ensures var p := MessagePayload(m);
      && DocumentKey in p && p[DocumentKey] == Bool(true)
      && FilenameKey in p && p[FilenameKey] == Or(m.filename, Str(""))
      && CaptionKey in p && p[CaptionKey] == Or(m.caption, Str(""))
  {
    var t := TypeFields(m);
    assert DocumentKey in t && FilenameKey in t && CaptionKey in t;
  }

  /** Audio and voice-note payloads are both flagged `audio`. */
  lemma AudioFields(m: InboundMessage)
    requires m.Kind() == Audio || m.Kind() == Ptt
    ensures AudioKey in MessagePayload(m) && MessagePayload(m)[AudioKey] == Bool(true)
  {
    assert AudioKey in TypeFields(m) && TypeFields(m)[AudioKey] == Bool(true);
  }

  /** Contact and vcard payloads carry the vcard, or ''. */
  lemma ContactFields(m: InboundMessage)
    requires m.Kind() == Contact || m.Kind() == Vcard
    ensures ContactKey in MessagePayload(m) && MessagePayload(m)[ContactKey] == Or(m.vcard, Str(""))
  {
    assert ContactKey in TypeFields(m) && TypeFields(m)[ContactKey] == Or(m.vcard, Str(""));
  }

  /** A ciphertext payload is flagged `ciphertext`. */
  lemma CiphertextFields(m: InboundMessage)
    requires m.Kind() == Ciphertext
    ensures CiphertextKey in MessagePayload(m) && MessagePayload(m)[CiphertextKey] == Bool(true)
  {
    assert CiphertextKey in TypeFields(m) && TypeFields(m)[CiphertextKey] == Bool(true);
  }

  /** Any other type (`chat` among them) posts exactly the common fields. */
  lemma UndetailedTypesAddNothing(m: InboundMessage)
    requires m.Kind() !in DetailedTypes
    ensures MessagePayload(m) == CommonFields(m)
  {
    assert TypeFields(m) == map[];
    assert CommonFields(m) + map[] == CommonFields(m);
  }

  /** The common fields: the number, the type name and the sender are
      copied; the id is the serialized id or `undefined`; the timestamp is
      copied; `body` defaults to '' and `hasMedia` to false. */
  lemma CommonDefaults(m: InboundMessage)
    ensures var p := MessagePayload(m);
      && PhoneNumberKey in p && p[PhoneNumberKey] == Str(PhoneNumberOf(m.from))
      && TypeKey in p && p[TypeKey] == Str(m.typeName)
      && FromKey in p && p[FromKey] == Str(m.from)
      && IdKey in p && p[IdKey] == (if m.id.Some? then Str(m.id.value) else Undefined)
      && TimestampKey in p && p[TimestampKey] == m.timestamp
      && BodyKey in p && p[BodyKey] == (if Truthy(m.body) then m.body else Str(""))
      && HasMediaKey in p && p[HasMediaKey] == (if Truthy(m.hasMedia) then m.hasMedia else Bool(false))
  {
    var c := CommonFields(m);
    assert PhoneNumberKey in CommonKeys && FromKey in CommonKeys && TypeKey in CommonKeys;
    assert IdKey in CommonKeys && TimestampKey in CommonKeys;
    assert BodyKey in CommonKeys && HasMediaKey in CommonKeys;
    assert c[PhoneNumberKey] == Str(PhoneNumberOf(m.from)) && c[FromKey] == Str(m.from);
    assert c[TypeKey] == Str(m.typeName) && c[BodyKey] == Or(m.body, Str(""));
    assert c[IdKey] == (if m.id.Some? then Str(m.id.value) else Undefined);
    assert c[TimestampKey] == m.timestamp;
    assert c[HasMediaKey] == Or(m.hasMedia, Bool(false));
  }

  /** The down notice's reason is the given one, or 'unknown' when falsy. */
  lemma DownReason(reason: Json, now: int)
    ensures Truthy(reason) ==> DownPayload(reason, now)[ReasonKey] == reason
    ensures !Truthy(reason) ==> DownPayload(reason, now)[ReasonKey] == Str("unknown")
    ensures DownPayload(reason, now).Keys == {MessageKey, ReasonKey, TimestampKey}
    ensures DownPayload(reason, now)[MessageKey] == Str(DownMessage)
    ensures DownPayload(reason, now)[TimestampKey] == Num(now)
  {
  }

  /** The call notice names the caller as the number, says the call was
      rejected, has type 'call' and copies the video flag. */
  lemma CallNoticeFields(call: IncomingCall, now: int)
    ensures var p := CallPayload(call, now);
      && p.Keys == {PhoneNumberKey, MessageKey, TypeKey, IsVideoKey, TimestampKey}
      && p[PhoneNumberKey] == Str(call.from)
      && p[MessageKey] == Str(CallNoticePrefix + call.from)
      && p[TypeKey] == Str("call")
      && p[IsVideoKey] == call.isVideo
      && p[TimestampKey] == Num(now)
  {
  }
}
