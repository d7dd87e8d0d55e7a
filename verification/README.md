# AI module interface: envelope, codec and initial module state

This project is a Dafny model of the universal interface of the Autonomous
Integration Ecosystem (`aiemodule_interface.py`). It covers four parts:

- the `ModuleStatus` and `MessageType` enumerations and their string values;
- the `Message` envelope: a ten-field record whose declared defaults are
  `Message`'s constructor defaults here;
- the envelope codec. `to_json` becomes `ToMap`/`ToJson`. `from_json` becomes
  `FromMap`/`FromJson`. A JSON document is modelled after parsing, as a field map
  from key to a JSON value (`Json.Json`). Each missing key gets its default. The
  decoder fails with a `DecodeError` where the Python code raises;
- the starting state that `AIModule.__init__` sets up, and the capability
  announcement that `_announce_capabilities` builds.

The timestamp is a naive datetime (`IsoTime.Timestamp`). It is written with
`IsoFormat` (`datetime.isoformat`) and read with `ParseIso`
(`datetime.fromisoformat`). The two are proved to round-trip.

The code calls two nondeterministic sources: `uuid.uuid4()` and
`datetime.utcnow()`. Both are parameters here, `freshId` and `now`.

Files:

- `wrappers.dfy`: the `Option` and `Result` types.
- `json.dfy`: JSON values.
- `iso_time.dfy`: datetimes and their ISO 8601 text.
- `module_interface.dfy`: the enumerations, `Message`, the codec and the `AIModule` class.

## Model

| member | source | states |
|---|---|---|
| `ModuleInterface.ModuleStatusOf` | aiemodule_interface.py:24-32 | `ModuleStatus(value)` gives status `st` exactly when `st`'s value is `value`. No two statuses share a value, and every other string is rejected. |
| `ModuleInterface.ModuleStatusValuesDistinct` | aiemodule_interface.py:24-32 | Two statuses with the same string value are the same status. |
| `ModuleInterface.MessageTypeOf` | aiemodule_interface.py:35-44 | `MessageType(value)` gives kind `t` exactly when `t`'s value is `value`. So each of the eight values decodes to exactly its own member, and any other string is rejected. |
| `ModuleInterface.MessageTypeValuesDistinct` | aiemodule_interface.py:35-44 | The eight message kinds have pairwise distinct string values. |
| `ModuleInterface.NewMessage` | aiemodule_interface.py:53-62 | A freshly built `Message` has empty sender and receiver, kind QUERY and priority 1. It does not require a response, `response_to` is None, and payload and metadata are empty. |
| `ModuleInterface.ToMap` | aiemodule_interface.py:67-78 | The encoded map has exactly the ten field keys. `message_type` is stored as the kind's string value, `timestamp` as its ISO text, and `priority` as the unclamped integer. |
| `ModuleInterface.ToJson` | aiemodule_interface.py:64-82 | The document `to_json` produces is a JSON object with exactly the ten field keys. |
| `ModuleInterface.FromMap` | aiemodule_interface.py:84-100 | Decoding a field map succeeds exactly when the map is `Decodable`. That means every key present holds a value of its field's type, and `message_type` and `timestamp` hold texts that parse. Missing keys never cause a failure. |
| `ModuleInterface.FromJson` | aiemodule_interface.py:84-103 | Malformed text fails with `MalformedText`. A document that is not an object fails with `NotAnObject`. Otherwise decoding succeeds exactly when the object is `Decodable`. |
| `ModuleInterface.DecodeEncode` | aiemodule_interface.py:64-100 | Decoding an encoded message gives back the same message, field by field, whatever id and clock the decoder is handed. |
| `ModuleInterface.EncodeDecode` | aiemodule_interface.py:67-99 | A decodable map with exactly the ten keys re-encodes to itself. The one exception is the timestamp, which comes back as the canonical ISO text of the parsed time. The decoded timestamp is the time the document's text parses to. |
| `ModuleInterface.DecodeReadsWithDefaults` | aiemodule_interface.py:90-99 | Every field except the timestamp is read as `data.get(key, default)`. The decoded message's encoded entry is the document's entry when present. Otherwise it is the declared default: a fresh id, `""`, `""`, `"query"`, `{}`, `{}`, 1, false or null. |
| `ModuleInterface.DecodeCopiesPresentFields` | aiemodule_interface.py:90-99 | Every key a decodable document carries, apart from the timestamp, is copied verbatim into the message. In particular `priority` is neither clamped to 1–10 nor checked. |
| `ModuleInterface.DecodeDefaults` | aiemodule_interface.py:90-99 | For each missing key the decoded field takes its default. The id defaults to the fresh id and the timestamp to `now`. The rest are sender `""`, receiver `""`, QUERY, empty payload and metadata, priority 1, false and None. A timestamp that is present is decoded to the time its text parses to. |
| `ModuleInterface.DecodeEmpty` | aiemodule_interface.py:89-100 | Decoding the empty object gives the same message as `Message()` built with the same id and time. |
| `ModuleInterface.UnknownMessageTypeFails` | aiemodule_interface.py:93 | If `message_type` is not one of the eight kind values, or is not a string, decoding fails and produces no message. When the fields read before it are well typed, the error is `UnknownMessageType` carrying the offending value. |
| `IsoTime.ParseIso` | aiemodule_interface.py:94 | `fromisoformat` on the two shapes a naive `isoformat()` writes: a text is accepted exactly when it has one of those shapes and its fields form a valid datetime (year 1–9999, month 1–12, a day that exists in that month, hour, minute, second and microsecond in range). An accepted text gives the datetime its digits spell. The round trip with `isoformat()` is stated by its partners `IsoTime.ParseIsoFormat` and `IsoTime.IsoFormatParse`. |
| `IsoTime.ParseIsoFormat` | aiemodule_interface.py:94 | `fromisoformat(t.isoformat()) == t` for every datetime. This is why the default `datetime.fromisoformat(datetime.utcnow().isoformat())` is just `now`. |
| `IsoTime.IsoFormatParse` | aiemodule_interface.py:94 | Every text `ParseIso` accepts is the `isoformat()` of the time it parses to. The one exception is a 26-character text whose fraction is zero: `isoformat()` omits that fraction and writes the first 19 characters. |
| `IsoTime.IsoFormat` | aiemodule_interface.py:72 | `isoformat()` writes 19 characters when the microsecond is zero and 26 otherwise. |
| `ModuleInterface.AIModule.constructor` | aiemodule_interface.py:114-147 | A new module keeps its id, name and version. It starts in status INITIALIZING with empty capabilities, dependencies and integrated modules. Its sent, received and error counters are 0, and its last activity is the ISO text of the start time. |
| `ModuleInterface.AIModule.Announcement` | aiemodule_interface.py:169-176 | The announcement is sent by the module's own id and has kind CAPABILITY_ANNOUNCE. It carries the fresh id and the current time, empty metadata, and the default receiver, priority and response fields. Its payload maps `module_id`, `module_name` and `version` to the module's values. |

## Left out

- The JSON text layer (`json.dumps`, `json.loads`) is a foreign library. Documents are field maps. Malformed text is the uninterpreted error `MalformedText`.
- `Json.Json` has no floating-point numbers. Python's `payload` and `metadata` may hold floats, and `from_json` copies a float `priority` such as `2.5` unchanged. The model cannot represent any of these, so the codec lemmas (`DecodeEncode`, `EncodeDecode`, `DecodeCopiesPresentFields`) cover float-free documents only.
- Logging on encode and decode failures is a side effect with no behaviour to state.
- `uuid.uuid4()` and `datetime.utcnow()` are nondeterministic. They are the parameters `freshId` and `now`.
- `ToJson`: `to_json` raises `TypeError` on a payload that `json.dumps` cannot serialise. Payloads here are JSON values, so this failure does not arise.
- `FromMap`, `FromJson`: Python reads every field with `data.get` and does not check its type. It would build a `Message` with, say, an integer `sender_id`, a `null` payload or `true` as priority. The model's fields are typed, so such a document fails with `FieldTypeMismatch(key)`. Because these checks run in field order, a document bad in several ways may report a different error than Python raises first.
- `ParseIso`: only the two shapes `isoformat()` writes for a naive datetime are accepted, `YYYY-MM-DDTHH:MM:SS` and `YYYY-MM-DDTHH:MM:SS.ffffff`. `datetime.fromisoformat` also accepts a date alone, hours or hours-and-minutes only, a millisecond fraction and another separator than `T`; the model rejects those.
- `DecodeEncode`: timezone-aware datetimes are not modelled. A `Message` built with an aware timestamp is written by `to_json` with a UTC offset such as `+00:00`, and `from_json` reads it back; here `Timestamp` is naive, so `FromMap` and `FromJson` reject documents whose timestamp carries an offset, and the round trip is proved for naive timestamps only.
- `AIModule.Announcement`: only the payload's `module_id`, `module_name` and `version` entries are modelled. Its `'capabilities'` entry and what `_announce_capabilities` then does with the message are outside this model.
- `AIModule.constructor`: the metric `avg_response_time` is a float with no arithmetic shown and is not modelled. The abstract hook `_initialize_module` is supplied by subclasses and is not modelled either.
- `Message` is a value here. The Python dataclass is not frozen, but no code in this file reassigns a message's fields. The envelope rules "a response does not require a response" and "`response_to` only on response or error kinds" are not enforced by `Message`, and the model does not assert them.
- The module registry, communication bus, feedback collector and self-learning protocol are imported by `aie__init__.py`. Their source files (`module_registry`, `communication_layer`, `feedback_loop`, `self_learning`) are not part of this model. `aie__init__.py` itself only holds version constants and re-exports.
