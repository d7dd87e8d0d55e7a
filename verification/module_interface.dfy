/**
  The universal interface of the ecosystem's AI modules: the two status and
  message-kind enumerations, the Message envelope with its field defaults, the
  envelope's JSON codec (to_json / from_json) and the initial state of an
  AIModule together with the capability announcement it builds.

  A JSON document is modelled as a field map (Json.Object); uuid4() and
  utcnow(), which the source calls for defaults, are parameters (`freshId`,
  `now`).
 */
module ModuleInterface {
  import opened Wrappers
  import opened Json
  import opened IsoTime

  // ---------------------------------------------------------------------------
  // Enumerations

  /** ModuleStatus: each member carries a fixed string value. */
  datatype ModuleStatus = Initializing | Ready | Busy | Error | Offline | Learning | Integrating
  {
    function Value(): string {
      match this
      case Initializing => "initializing"
      case Ready => "ready"
      case Busy => "busy"
      case Error => "error"
      case Offline => "offline"
      case Learning => "learning"
      case Integrating => "integrating"
    }
  }

  /** ModuleStatus(value): the member whose value is `value`, None for Python's ValueError. */
  function ModuleStatusOf(value: string): (r: Option<ModuleStatus>)
    ensures forall st: ModuleStatus :: r == Some(st) <==> st.Value() == value
  {
    if value == "initializing" then Some(Initializing)
    else if value == "ready" then Some(Ready)
    else if value == "busy" then Some(Busy)
    else if value == "error" then Some(Error)
    else if value == "offline" then Some(Offline)
    else if value == "learning" then Some(Learning)
    else if value == "integrating" then Some(Integrating)
    else None
  }

  /** MessageType: each member carries a fixed string value. */
  datatype MessageType =
    Query | Response | Command | StatusUpdate | CapabilityAnnounce | ErrorReport | Feedback | LearningUpdate
  {
    function Value(): string {
      match this
      case Query => "query"
      case Response => "response"
      case Command => "command"
      case StatusUpdate => "status_update"
      case CapabilityAnnounce => "capability_announce"
      case ErrorReport => "error"
      case Feedback => "feedback"
      case LearningUpdate => "learning_update"
    }
  }

  /** MessageType(value): the member whose value is `value`, None for Python's ValueError. */
  function MessageTypeOf(value: string): (r: Option<MessageType>)
    ensures forall t: MessageType :: r == Some(t) <==> t.Value() == value
  {
    if value == "query" then Some(Query)
    else if value == "response" then Some(Response)
    else if value == "command" then Some(Command)
    else if value == "status_update" then Some(StatusUpdate)
    else if value == "capability_announce" then Some(CapabilityAnnounce)
    else if value == "error" then Some(ErrorReport)
    else if value == "feedback" then Some(Feedback)
    else if value == "learning_update" then Some(LearningUpdate)
    else None
  }

  /** No two message kinds share a value, so a value names at most one kind. */
  lemma MessageTypeValuesDistinct(a: MessageType, b: MessageType)
    ensures a.Value() == b.Value() ==> a == b
  {
    var r := MessageTypeOf(a.Value());
    assert r == Some(a);
  }

  /** No two module statuses share a value. */
  lemma ModuleStatusValuesDistinct(a: ModuleStatus, b: ModuleStatus)
    ensures a.Value() == b.Value() ==> a == b
  {
    var r := ModuleStatusOf(a.Value());
    assert r == Some(a);
  }

  // ---------------------------------------------------------------------------
  // The envelope

  /**
    The Message dataclass. The defaults are the dataclass's; message_id and
    timestamp come from uuid4() and utcnow() there, so they have none here.
    priority is an unbounded integer: nothing keeps it within 1..10.
   */
  datatype Message = Message(
    messageId: string,
    timestamp: Timestamp,
    senderId: string := "",
    receiverId: string := "",
    messageType: MessageType := Query,
    payload: Object := map[],
    metadata: Object := map[],
    priority: int := 1,
    requiresResponse: bool := false,
    responseTo: Option<string> := None)

  /** Message() with every defaulted field left out. */
  function NewMessage(freshId: string, now: Timestamp): (m: Message)
    ensures m.messageId == freshId && m.timestamp == now
    ensures m.senderId == "" && m.receiverId == ""
    ensures m.messageType == Query && m.priority == 1
    ensures !m.requiresResponse && m.responseTo == None
    ensures m.payload == map[] && m.metadata == map[]
  {
    Message(messageId := freshId, timestamp := now)
  }

  // ---------------------------------------------------------------------------
  // Field map keys

  const MessageIdKey := "message_id"
  const SenderIdKey := "sender_id"
  const ReceiverIdKey := "receiver_id"
  const MessageTypeKey := "message_type"
  const TimestampKey := "timestamp"
  const PayloadKey := "payload"
  const MetadataKey := "metadata"
  const PriorityKey := "priority"
  const RequiresResponseKey := "requires_response"
  const ResponseToKey := "response_to"

  const FieldNames: set<string> :=
    {MessageIdKey, SenderIdKey, ReceiverIdKey, MessageTypeKey, TimestampKey,
     PayloadKey, MetadataKey, PriorityKey, RequiresResponseKey, ResponseToKey}

  // ---------------------------------------------------------------------------
  // Encoding

  function OptionalText(v: Option<string>): Json {
    match v
    case None => JNull
    case Some(s) => JString(s)
  }

  /** The dict to_json builds before handing it to json.dumps. */
  function ToMap(m: Message): (d: Object)
    ensures d.Keys == FieldNames
    ensures d[MessageTypeKey] == JString(m.messageType.Value())
    ensures d[TimestampKey] == JString(IsoFormat(m.timestamp))
    ensures d[PriorityKey] == JInt(m.priority)
  {
    map[
      MessageIdKey := JString(m.messageId),
      SenderIdKey := JString(m.senderId),
      ReceiverIdKey := JString(m.receiverId),
      MessageTypeKey := JString(m.messageType.Value()),
      TimestampKey := JString(IsoFormat(m.timestamp)),
      PayloadKey := JObject(m.payload),
      MetadataKey := JObject(m.metadata),
      PriorityKey := JInt(m.priority),
      RequiresResponseKey := JBool(m.requiresResponse),
      ResponseToKey := OptionalText(m.responseTo)
    ]
  }

  /** to_json, up to the JSON text layer: the document is a JSON object. */
  function ToJson(m: Message): (doc: Json)
    ensures doc.JObject? && doc.fields.Keys == FieldNames
  {
    JObject(ToMap(m))
  }

  // ---------------------------------------------------------------------------
  // Decoding

  datatype DecodeError =
    | MalformedText                   // json.loads raised JSONDecodeError
    | NotAnObject                     // the document is not a JSON object, so data.get fails
    | UnknownMessageType(found: Json) // MessageType(...) raised ValueError
    | BadTimestamp(found: Json)       // datetime.fromisoformat(...) raised ValueError or TypeError
    | FieldTypeMismatch(key: string)  // a value of a JSON type the field's declared type excludes

  /** dict.get(key, default). */
  function Get(d: Object, key: string, default: Json): Json {
    if key in d then d[key] else default
  }

  function TextField(d: Object, key: string, default: string): (r: Result<string, DecodeError>)
    ensures r.Ok? <==> (key in d ==> d[key].JString?)
    ensures r.Ok? ==> Get(d, key, JString(default)) == JString(r.value)
    ensures r.Err? ==> r.error == FieldTypeMismatch(key)
  {
    match Get(d, key, JString(default))
    case JString(s) => Ok(s)
    case _ => Err(FieldTypeMismatch(key))
  }

  function ObjectField(d: Object, key: string): (r: Result<Object, DecodeError>)
    ensures r.Ok? <==> (key in d ==> d[key].JObject?)
    ensures r.Ok? ==> Get(d, key, JObject(map[])) == JObject(r.value)
  {
    match Get(d, key, JObject(map[]))
    case JObject(o) => Ok(o)
    case _ => Err(FieldTypeMismatch(key))
  }

  function KindField(d: Object): (r: Result<MessageType, DecodeError>)
    ensures r.Ok? <==> (MessageTypeKey in d ==>
                          d[MessageTypeKey].JString? && MessageTypeOf(d[MessageTypeKey].s).Some?)
    ensures r.Ok? ==> Get(d, MessageTypeKey, JString(Query.Value())) == JString(r.value.Value())
    ensures r.Err? ==> r == Err(UnknownMessageType(d[MessageTypeKey]))
  {
    var v := Get(d, MessageTypeKey, JString(Query.Value()));
    if v.JString? && MessageTypeOf(v.s).Some? then Ok(MessageTypeOf(v.s).value)
    else Err(UnknownMessageType(v))
  }

  function TimestampField(d: Object, now: Timestamp): (r: Result<Timestamp, DecodeError>)
    ensures r.Ok? <==> (TimestampKey in d ==>
                          d[TimestampKey].JString? && ParseIso(d[TimestampKey].s).Some?)
    ensures r.Ok? && TimestampKey in d ==> ParseIso(d[TimestampKey].s) == Some(r.value)
    ensures r.Ok? && TimestampKey !in d ==> r.value == now
  {
    ParseIsoFormat(now);
    var v := Get(d, TimestampKey, JString(IsoFormat(now)));
    if v.JString? && ParseIso(v.s).Some? then Ok(ParseIso(v.s).value)
    else Err(BadTimestamp(v))
  }

  function PriorityField(d: Object): (r: Result<int, DecodeError>)
    ensures r.Ok? <==> (PriorityKey in d ==> d[PriorityKey].JInt?)
    ensures r.Ok? ==> Get(d, PriorityKey, JInt(1)) == JInt(r.value)
  {
    match Get(d, PriorityKey, JInt(1))
    case JInt(i) => Ok(i)
    case _ => Err(FieldTypeMismatch(PriorityKey))
  }

  function FlagField(d: Object): (r: Result<bool, DecodeError>)
    ensures r.Ok? <==> (RequiresResponseKey in d ==> d[RequiresResponseKey].JBool?)
    ensures r.Ok? ==> Get(d, RequiresResponseKey, JBool(false)) == JBool(r.value)
  {
    match Get(d, RequiresResponseKey, JBool(false))
    case JBool(b) => Ok(b)
    case _ => Err(FieldTypeMismatch(RequiresResponseKey))
  }

  function ResponseToField(d: Object): (r: Result<Option<string>, DecodeError>)
    ensures r.Ok? <==> (ResponseToKey in d ==> d[ResponseToKey].JNull? || d[ResponseToKey].JString?)
    ensures r.Ok? ==> Get(d, ResponseToKey, JNull) == OptionalText(r.value)
  {
    match Get(d, ResponseToKey, JNull)
    case JNull => Ok(None)
    case JString(s) => Ok(Some(s))
    case _ => Err(FieldTypeMismatch(ResponseToKey))
  }

  /**
    When from_json yields a message: every key present holds a value of its
    field's type, and message_type and timestamp hold texts that parse.
    Missing keys are always fine.
   */
  predicate Decodable(d: Object) {
    && (MessageIdKey in d ==> d[MessageIdKey].JString?)
    && (SenderIdKey in d ==> d[SenderIdKey].JString?)
    && (ReceiverIdKey in d ==> d[ReceiverIdKey].JString?)
    && (MessageTypeKey in d ==>
          d[MessageTypeKey].JString? && MessageTypeOf(d[MessageTypeKey].s).Some?)
    && (TimestampKey in d ==>
          d[TimestampKey].JString? && ParseIso(d[TimestampKey].s).Some?)
    && (PayloadKey in d ==> d[PayloadKey].JObject?)
    && (MetadataKey in d ==> d[MetadataKey].JObject?)
    && (PriorityKey in d ==> d[PriorityKey].JInt?)
    && (RequiresResponseKey in d ==> d[RequiresResponseKey].JBool?)
    && (ResponseToKey in d ==> d[ResponseToKey].JNull? || d[ResponseToKey].JString?)
  }

  /**
    from_json after json.loads: reads each field with its default, in the
    order of the constructor call.
   */
  function FromMap(d: Object, freshId: string, now: Timestamp): (r: Result<Message, DecodeError>)
    ensures r.Ok? <==> Decodable(d)
  {
    var messageId :- TextField(d, MessageIdKey, freshId);
    var senderId :- TextField(d, SenderIdKey, "");
    var receiverId :- TextField(d, ReceiverIdKey, "");
    var messageType :- KindField(d);
    var timestamp :- TimestampField(d, now);
    var payload :- ObjectField(d, PayloadKey);
    var metadata :- ObjectField(d, MetadataKey);
    var priority :- PriorityField(d);
    var requiresResponse :- FlagField(d);
    var responseTo :- ResponseToField(d);
    Ok(Message(messageId, timestamp, senderId, receiverId, messageType, payload, metadata,
               priority, requiresResponse, responseTo))
  }

  /**
    from_json: `loaded` is what json.loads returned, None when it raised
    JSONDecodeError on malformed text.
   */
  function FromJson(loaded: Option<Json>, freshId: string, now: Timestamp): (r: Result<Message, DecodeError>)
    ensures loaded == None ==> r == Err(MalformedText)
    ensures loaded.Some? && !loaded.value.JObject? ==> r == Err(NotAnObject)
    ensures r.Ok? <==> loaded.Some? && loaded.value.JObject? && Decodable(loaded.value.fields)
  {
    match loaded
    case None => Err(MalformedText)
    case Some(JObject(d)) => FromMap(d, freshId, now)
    case Some(_) => Err(NotAnObject)
  }

  // ---------------------------------------------------------------------------
  // Codec properties

  /** Proof scaffolding: the entry to_json writes for each field. */
  lemma ToMapEntries(m: Message)
    ensures var d := ToMap(m);
            && d[MessageIdKey] == JString(m.messageId)
            && d[SenderIdKey] == JString(m.senderId)
            && d[ReceiverIdKey] == JString(m.receiverId)
            && d[PayloadKey] == JObject(m.payload)
            && d[MetadataKey] == JObject(m.metadata)
            && d[RequiresResponseKey] == JBool(m.requiresResponse)
            && d[ResponseToKey] == OptionalText(m.responseTo)
  {
  }

  /**
    Proof scaffolding: the message assembled from the field readers of a
    decodable map, so that lemmas can name FromMap's result without
    unfolding its chain of reads.
   */
  function FieldsOf(d: Object, freshId: string, now: Timestamp): Message
    requires Decodable(d)
  {
    Message(TextField(d, MessageIdKey, freshId).value, TimestampField(d, now).value,
            TextField(d, SenderIdKey, "").value, TextField(d, ReceiverIdKey, "").value,
            KindField(d).value, ObjectField(d, PayloadKey).value,
            ObjectField(d, MetadataKey).value, PriorityField(d).value,
            FlagField(d).value, ResponseToField(d).value)
  }

  /** Proof scaffolding: FromMap on a decodable map is FieldsOf. */
  lemma FromMapFields(d: Object, freshId: string, now: Timestamp)
    requires Decodable(d)
    ensures FromMap(d, freshId, now) == Ok(FieldsOf(d, freshId, now))
  {
  }

  /** Every encoded message is a decodable map. */
  lemma EncodedIsDecodable(m: Message)
    ensures Decodable(ToMap(m))
  {
    ToMapEntries(m);
    ParseIsoFormat(m.timestamp);
    assert MessageTypeOf(m.messageType.Value()) == Some(m.messageType);
  }

  /** Each field reader recovers the field it was encoded from. */
  lemma EncodedFields(m: Message, freshId: string, now: Timestamp)
    requires Decodable(ToMap(m))
    ensures FieldsOf(ToMap(m), freshId, now) == m
  {
    var d := ToMap(m);
    ToMapEntries(m);
    ParseIsoFormat(m.timestamp);
    assert MessageTypeOf(m.messageType.Value()) == Some(m.messageType);
    assert TextField(d, MessageIdKey, freshId).value == m.messageId;
    assert TextField(d, SenderIdKey, "").value == m.senderId;
    assert TextField(d, ReceiverIdKey, "").value == m.receiverId;
    assert KindField(d).value == m.messageType;
    assert TimestampField(d, now).value == m.timestamp;
    assert ObjectField(d, PayloadKey).value == m.payload;
    assert ObjectField(d, MetadataKey).value == m.metadata;
    assert PriorityField(d).value == m.priority;
    assert FlagField(d).value == m.requiresResponse;
    assert ResponseToField(d).value == m.responseTo;
  }

  /** Decoding an encoded message gives back the same message, field by field. */
  lemma DecodeEncode(m: Message, freshId: string, now: Timestamp)
    ensures FromMap(ToMap(m), freshId, now) == Ok(m)
    ensures FromJson(Some(ToJson(m)), freshId, now) == Ok(m)
  {
    EncodedIsDecodable(m);
    EncodedFields(m, freshId, now);
    FromMapFields(ToMap(m), freshId, now);
  }

  /**
    from_json reads every field but timestamp as data.get(key, default): the
    entry to_json writes for the decoded message is the document's entry when
    the key is present and the field's default otherwise.
   */
  lemma DecodeReadsWithDefaults(d: Object, freshId: string, now: Timestamp)
    requires FromMap(d, freshId, now).Ok?
    ensures var e := ToMap(FromMap(d, freshId, now).value);
            && e[MessageIdKey] == Get(d, MessageIdKey, JString(freshId))
            && e[SenderIdKey] == Get(d, SenderIdKey, JString(""))
            && e[ReceiverIdKey] == Get(d, ReceiverIdKey, JString(""))
            && e[MessageTypeKey] == Get(d, MessageTypeKey, JString("query"))
            && e[PayloadKey] == Get(d, PayloadKey, JObject(map[]))
            && e[MetadataKey] == Get(d, MetadataKey, JObject(map[]))
            && e[PriorityKey] == Get(d, PriorityKey, JInt(1))
            && e[RequiresResponseKey] == Get(d, RequiresResponseKey, JBool(false))
            && e[ResponseToKey] == Get(d, ResponseToKey, JNull)
  {
    FromMapFields(d, freshId, now);
    ToMapEntries(FieldsOf(d, freshId, now));
  }

  /**
    Every key the document carries, apart from timestamp, is copied verbatim:
    it is exactly the entry to_json writes back for that field. In particular
    priority is neither clamped nor checked.
   */
  lemma DecodeCopiesPresentFields(d: Object, freshId: string, now: Timestamp, key: string)
    requires FromMap(d, freshId, now).Ok?
    requires key in d && key in FieldNames && key != TimestampKey
    ensures ToMap(FromMap(d, freshId, now).value)[key] == d[key]
  {
    DecodeReadsWithDefaults(d, freshId, now);
    PresentEntry(ToMap(FromMap(d, freshId, now).value), d, key, freshId);
  }

  /**
    Proof scaffolding: the key-by-key step of DecodeCopiesPresentFields,
    over an arbitrary pair of maps.
   */
  lemma PresentEntry(e: Object, d: Object, key: string, freshId: string)
    requires FieldNames <= e.Keys
    requires && e[MessageIdKey] == Get(d, MessageIdKey, JString(freshId))
             && e[SenderIdKey] == Get(d, SenderIdKey, JString(""))
             && e[ReceiverIdKey] == Get(d, ReceiverIdKey, JString(""))
             && e[MessageTypeKey] == Get(d, MessageTypeKey, JString("query"))
             && e[PayloadKey] == Get(d, PayloadKey, JObject(map[]))
             && e[MetadataKey] == Get(d, MetadataKey, JObject(map[]))
             && e[PriorityKey] == Get(d, PriorityKey, JInt(1))
             && e[RequiresResponseKey] == Get(d, RequiresResponseKey, JBool(false))
             && e[ResponseToKey] == Get(d, ResponseToKey, JNull)
    requires key in d && key in FieldNames && key != TimestampKey
    ensures e[key] == d[key]
  {
  }

  /**
    A complete document that decodes is re-encoded to itself, except that the
    timestamp comes back as the canonical isoformat() text of the parsed time.
   */
  lemma EncodeDecode(d: Object, freshId: string, now: Timestamp)
    requires d.Keys == FieldNames && Decodable(d)
    ensures FromMap(d, freshId, now).Ok?
    ensures var m := FromMap(d, freshId, now).value;
            ToMap(m) == d[TimestampKey := JString(IsoFormat(m.timestamp))]
    ensures ParseIso(d[TimestampKey].s) == Some(FromMap(d, freshId, now).value.timestamp)
  {
    FromMapFields(d, freshId, now);
    var m := FromMap(d, freshId, now).value;
    var e := ToMap(m);
    var expected := d[TimestampKey := JString(IsoFormat(m.timestamp))];
    forall key | key in FieldNames
      ensures e[key] == expected[key]
    {
      if key != TimestampKey {
        DecodeCopiesPresentFields(d, freshId, now, key);
      }
    }
    assert e.Keys == expected.Keys;
  }

  /** The default from_json fills in for each missing key. */
  lemma DecodeDefaults(d: Object, freshId: string, now: Timestamp)
    requires FromMap(d, freshId, now).Ok?
    ensures var m := FromMap(d, freshId, now).value;
            && (MessageIdKey !in d ==> m.messageId == freshId)
            && (SenderIdKey !in d ==> m.senderId == "")
            && (ReceiverIdKey !in d ==> m.receiverId == "")
            && (MessageTypeKey !in d ==> m.messageType == Query)
            && (TimestampKey !in d ==> m.timestamp == now)
            && (TimestampKey in d ==> d[TimestampKey].JString?
                                      && ParseIso(d[TimestampKey].s) == Some(m.timestamp))
            && (PayloadKey !in d ==> m.payload == map[])
            && (MetadataKey !in d ==> m.metadata == map[])
            && (PriorityKey !in d ==> m.priority == 1)
            && (RequiresResponseKey !in d ==> !m.requiresResponse)
            && (ResponseToKey !in d ==> m.responseTo == None)
  {
    FromMapFields(d, freshId, now);
    ParseIsoFormat(now);
  }

  /** from_json('{}') is the message Message() builds from the same id and time. */
  lemma DecodeEmpty(freshId: string, now: Timestamp)
    ensures FromMap(map[], freshId, now) == Ok(NewMessage(freshId, now))
  {
    DecodeDefaults(map[], freshId, now);
  }

  /**
    A message_type that is not the value of one of the eight kinds makes
    from_json fail; when the fields read before it are well typed, the failure
    is the one MessageType(...) raises.
   */
  lemma UnknownMessageTypeFails(d: Object, freshId: string, now: Timestamp)
    requires MessageTypeKey in d
    requires !d[MessageTypeKey].JString? || MessageTypeOf(d[MessageTypeKey].s) == None
    ensures FromMap(d, freshId, now).Err?
    ensures (forall key | key in {MessageIdKey, SenderIdKey, ReceiverIdKey} :: key in d ==> d[key].JString?)
            ==> FromMap(d, freshId, now) == Err(UnknownMessageType(d[MessageTypeKey]))
  {
  }

  // ---------------------------------------------------------------------------
  // AIModule

  const DefaultVersion := "1.0.0"

  /** The counters of AIModule.metrics; avg_response_time is not modelled. */
  datatype Metrics = Metrics(
    totalMessagesSent: int,
    totalMessagesReceived: int,
    errorCount: int,
    lastActivity: string)

  class AIModule {
    var moduleId: string
    var moduleName: string
    var version: string
    var status: ModuleStatus
    var capabilities: Object
    var dependencies: seq<string>
    var integratedModules: seq<string>
    var metrics: Metrics

    /** __init__: identity, then the starting state; `now` stands for utcnow(). */
    constructor (moduleId: string, moduleName: string, now: Timestamp, version: string := DefaultVersion)
      ensures this.moduleId == moduleId && this.moduleName == moduleName && this.version == version
      ensures status == Initializing
      ensures capabilities == map[] && dependencies == [] && integratedModules == []
      ensures metrics.totalMessagesSent == 0 && metrics.totalMessagesReceived == 0
      ensures metrics.errorCount == 0
      ensures metrics.lastActivity == IsoFormat(now)
    {
      this.moduleId := moduleId;
      this.moduleName := moduleName;
      this.version := version;
      status := Initializing;
      capabilities := map[];
      dependencies := [];
      integratedModules := [];
      metrics := Metrics(0, 0, 0, IsoFormat(now));
    }

    /** The capability announcement _announce_capabilities builds. */
    function Announcement(freshId: string, now: Timestamp): (m: Message)
      reads this
      ensures m.senderId == moduleId && m.messageType == CapabilityAnnounce
      ensures m.messageId == freshId && m.timestamp == now && m.metadata == map[]
      ensures m.receiverId == "" && m.priority == 1 && !m.requiresResponse && m.responseTo == None
      ensures MapsTo(m.payload, "module_id", moduleId)
      ensures MapsTo(m.payload, "module_name", moduleName)
      ensures MapsTo(m.payload, "version", version)
    {
      Message(
        messageId := freshId,
        timestamp := now,
        senderId := moduleId,
        messageType := CapabilityAnnounce,
        payload := map[
          "module_id" := JString(moduleId),
          "module_name" := JString(moduleName),
          "version" := JString(version)
        ])
    }
  }

  predicate MapsTo(o: Object, key: string, text: string) {
    key in o && o[key] == JString(text)
  }
}
