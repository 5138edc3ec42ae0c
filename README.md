# IKEA TRÅDFRI gateway client — Dafny model

This project models the core of a Java client for the IKEA TRÅDFRI gateway. The
client talks to the gateway over CoAP with DTLS ("coaps"). Every resource is
addressed by a numeric path, such as `15004/<group id>`. Every payload is a JSON
object whose keys are numeric codes, such as `"5850"` for on/off and `"5851"`
for brightness.

The model covers the following:

- **The key table and the endpoint paths** (`ApiCode`, `ApiEndpoint`):
  - the URI built from the gateway address and a list of path parts;
  - reading the path back from a URI;
  - the shape of the base URL.
- **The payload codecs** (`Codec`, `GroupProperties`, `GroupRequest`,
  `GroupResponse`, `SceneProperties`, `ActivateSceneRequest`). Jackson's data
  binding is written out by hand:
  - a null property is omitted;
  - a Boolean is written as 0 or 1;
  - an absent key leaves the field null, or at its initial value for a primitive;
  - a JSON null gives 0 or false for a primitive;
  - a scalar is coerced between forms on reading: a number read as a `String`
    gives its decimal text, decimal text read as an `Integer` or `Long` gives
    its value, and "true"/"false" text read as a `Boolean` gives the flag;
  - text read as a `Boolean`, `Integer` or `Long` is trimmed first, and the
    empty text and the text "null" then read as null;
  - unknown keys are ignored.

  The group response unpacks its member ids from the nested link list under
  `"9018"`, one node at a time.
- **The group update queue** (`Group`). The `UpdateX` setters fill a sparse
  property set. `ApplyUpdates` sends it as exactly one PUT and then empties it.
  The `SetX` operations send a one-off property set without touching the queue.
  Scene activation is a PUT to the owning group's URI (`Scene`).
- **The gateway** (`Gateway`):
  - connecting under a freshly generated identity, and installing credentials;
  - classifying a device response by an ordered rule list;
  - the device and group listings, which fetch one id at a time and stop at the
    first exception;
  - the search for the group named "SuperGroup";
  - the observer guards and the event handler list.

Java concepts are written out, in `JavaLang`:

- **Fixed-width integers:** `Int32` and `Int64`, with an explicit narrowing
  `WrapInt32` for `JsonNode.asInt()`.
- **Exceptions:** `NullPointer`, and `IllegalState` with its message. They are
  results of type `Result<_, Failure>`.
- **Null references:** `Option`.
- **`String.valueOf`:** an `Integer` that is null is rendered as `"null"`.

The CoAP client is modelled as an oracle (`Transport.GatewayBehaviour`). The
answer to each request is a function of three things: the requests sent
before, the installed credentials, and the request itself. The client keeps
the history of the PUT and authentication requests it has sent, so each
state-changing operation says exactly which request it sent.

## Model

| member | source | states |
|---|---|---|
| JavaLang.WrapInt32 | src/main/java/nl/stijngroenen/tradfri/payload/GroupResponse.java:71 | `asInt` narrowing: the result is congruent to the input modulo 2^32, and equals it when it is already in the `int` range |
| JavaLang.NatToDecimal | src/main/java/nl/stijngroenen/tradfri/device/Gateway.java:171 | the decimal form is non-empty and all digits; it starts with '0' exactly for zero |
| JavaLang.DecimalRoundTrip | src/main/java/nl/stijngroenen/tradfri/device/Gateway.java:171 | reading back the digits of a natural number gives the number |
| JavaLang.IntToString | src/main/java/nl/stijngroenen/tradfri/device/Gateway.java:171 | `String.valueOf(int)` is non-empty, made of digits, and has a leading '-' only for a negative number |
| JavaLang.IntToStringRoundTrip | src/main/java/nl/stijngroenen/tradfri/device/Gateway.java:242 | the rendering of an id can be parsed back to the id |
| JavaLang.DigitChar | src/main/java/nl/stijngroenen/tradfri/device/Gateway.java:171 | the character for a digit value below ten is a digit with that value |
| JavaLang.DecimalValue | src/main/java/nl/stijngroenen/tradfri/device/Gateway.java:171 | definition, no contract of its own: the value of a string of decimal digits; `DecimalRoundTrip` states that it inverts the decimal form |
| JavaLang.ParseInt | src/main/java/nl/stijngroenen/tradfri/payload/GroupResponse.java:33-46 | definition, no contract of its own: an optional '-' followed by one or more decimal digits, read as a number; `IntToStringRoundTrip` and `Codec.CoercionsRoundTrip` state that it inverts `String.valueOf(int)` |
| JavaLang.ValueOf | src/main/java/nl/stijngroenen/tradfri/device/Group.java:268 | definition, no contract of its own: `String.valueOf(Integer)`, with "null" for a null id; `ValueOfInjective` and `Group.ValueOfNoSlash` state its properties |
| JavaLang.StringOf | src/main/java/nl/stijngroenen/tradfri/util/ApiEndpoint.java:62 | definition, no contract of its own: a possibly null `String` in Java concatenation, with "null" for null; `ApiEndpoint.BaseUrlShape` states the non-null case |
| JavaLang.TrimStart | src/main/java/nl/stijngroenen/tradfri/device/GroupProperties.java:23-25 | definition, no contract of its own: blanks removed from the front; `TrimStartPadded` states it |
| JavaLang.TrimEnd | src/main/java/nl/stijngroenen/tradfri/device/GroupProperties.java:23-25 | definition, no contract of its own: blanks removed from the back; `TrimEndPadded` states it |
| JavaLang.Trim | src/main/java/nl/stijngroenen/tradfri/device/GroupProperties.java:23-25 | definition, no contract of its own: `String.trim`, which Jackson applies to text read as a `Boolean`, `Integer` or `Long`; `TrimPadded` and `TrimUnpadded` state it |
| JavaLang.TrimStartPadded | src/main/java/nl/stijngroenen/tradfri/device/GroupProperties.java:23-25 | leading blanks before text that does not start with a blank are removed, and nothing more |
| JavaLang.TrimEndPadded | src/main/java/nl/stijngroenen/tradfri/device/GroupProperties.java:23-25 | trailing blanks after text that does not end with a blank are removed, and nothing more |
| JavaLang.TrimPadded | src/main/java/nl/stijngroenen/tradfri/device/GroupProperties.java:23-25 | trimming any blank padding around text that neither starts nor ends with a blank gives that text back |
| JavaLang.TrimUnpadded | src/main/java/nl/stijngroenen/tradfri/device/GroupProperties.java:23-25 | text that neither starts nor ends with a blank is left unchanged |
| JavaLang.ValueOfInjective | src/main/java/nl/stijngroenen/tradfri/device/Group.java:268 | distinct `Integer` ids, and null, are rendered as distinct strings |
| ApiCode.GroupWriteKeysDistinct | src/main/java/nl/stijngroenen/tradfri/util/ApiCode.java:57-69 | the on/off, brightness and transition time codes are pairwise distinct |
| ApiCode.GeneralKeysDistinct | src/main/java/nl/stijngroenen/tradfri/util/ApiCode.java:39-51 | the name, creation date and instance id codes are pairwise distinct |
| ApiCode.GroupResponseKeysDistinct | src/main/java/nl/stijngroenen/tradfri/util/ApiCode.java:39-193 | the seven codes a group response is read from are pairwise distinct |
| ApiCode.SceneKeysDistinct | src/main/java/nl/stijngroenen/tradfri/util/ApiCode.java:201-261 | the seven codes of a scene's properties are pairwise distinct |
| ApiCode.ActivationKeysDistinct | src/main/java/nl/stijngroenen/tradfri/util/ApiCode.java:231 | the two codes of the activation payload differ |
| ApiCode.Aliases | src/main/java/nl/stijngroenen/tradfri/util/ApiCode.java:213-261 | the codes that deliberately share a value, including DEVICE_INFORMATION and FIRMWARE_VERSION |
| ApiEndpoint.BaseUrlShape | src/main/java/nl/stijngroenen/tradfri/util/ApiEndpoint.java:61-63 | the base URL is "coaps://", then the address verbatim, then ":5684" |
| ApiEndpoint.BaseUrlInjective | src/main/java/nl/stijngroenen/tradfri/util/ApiEndpoint.java:61-63 | distinct gateway addresses give distinct base URLs |
| ApiEndpoint.BaseUrl | src/main/java/nl/stijngroenen/tradfri/util/ApiEndpoint.java:61-63 | definition, no contract of its own: "coaps://", the address, ":5684"; `BaseUrlShape` and `BaseUrlInjective` state its shape and injectivity |
| ApiEndpoint.Join | src/main/java/nl/stijngroenen/tradfri/util/ApiEndpoint.java:72 | definition, no contract of its own: `String.join`; `JoinAppend`, `JoinFlatten` and `SplitJoin` state its properties |
| ApiEndpoint.Uri | src/main/java/nl/stijngroenen/tradfri/util/ApiEndpoint.java:71-73 | definition, no contract of its own: the base URL, "/", and the joined parts; `UriShape`, `UriRoundTrip` and `UriInjective` state its properties |
| ApiEndpoint.PathOf | src/main/java/nl/stijngroenen/tradfri/util/ApiEndpoint.java:71-73 | definition, no contract of its own: the reference inverse of `Uri`, with no source counterpart: the split path after this gateway's base URL; `UriRoundTrip` states that it inverts `Uri` |
| ApiEndpoint.UriShape | src/main/java/nl/stijngroenen/tradfri/util/ApiEndpoint.java:71-73 | a URI is the base URL, a "/", and the parts joined with "/" |
| ApiEndpoint.Split | src/main/java/nl/stijngroenen/tradfri/util/ApiEndpoint.java:71-73 | the reference inverse of the "/"-join, with no source counterpart, through which `UriRoundTrip` is stated; it always gives at least one part |
| ApiEndpoint.SplitNoSlashPrefix | src/main/java/nl/stijngroenen/tradfri/util/ApiEndpoint.java:71-73 | splitting a slash-free prefix followed by a rest glues the prefix to the rest's first part |
| ApiEndpoint.SplitJoin | src/main/java/nl/stijngroenen/tradfri/util/ApiEndpoint.java:71-73 | splitting the "/"-join of slash-free parts gives the parts back |
| ApiEndpoint.UriRoundTrip | src/main/java/nl/stijngroenen/tradfri/util/ApiEndpoint.java:71-73 | the path read back from a URI is the list of parts it was built from |
| ApiEndpoint.UriInjective | src/main/java/nl/stijngroenen/tradfri/util/ApiEndpoint.java:71-73 | distinct lists of slash-free parts are distinct URIs of the same gateway |
| ApiEndpoint.JoinAppend | src/main/java/nl/stijngroenen/tradfri/util/ApiEndpoint.java:72 | joining a concatenation is joining each half and putting the separator between them |
| ApiEndpoint.JoinFlatten | src/main/java/nl/stijngroenen/tradfri/util/ApiEndpoint.java:81 | a part that itself contains "/" (AUTHENTICATE) addresses the same resource as its pieces |
| ApiEndpoint.AuthenticateUri | src/main/java/nl/stijngroenen/tradfri/util/ApiEndpoint.java:81 | the authentication URI ends in "/15011/9063", the same URI as the two parts "15011" and "9063" |
| ApiEndpoint.DeviceUri | src/main/java/nl/stijngroenen/tradfri/util/ApiEndpoint.java:113 | device 65536 is addressed as `15001/65536` |
| ApiEndpoint.SceneIsNotifications | src/main/java/nl/stijngroenen/tradfri/util/ApiEndpoint.java:126-133 | SCENE and NOTIFICATIONS are the same path "15006" |
| ApiEndpoint.Endpoint.constructor | src/main/java/nl/stijngroenen/tradfri/util/ApiEndpoint.java:29 | the address is null until it is set |
| ApiEndpoint.Endpoint.SetGatewayIp | src/main/java/nl/stijngroenen/tradfri/util/ApiEndpoint.java:52-54 | afterwards, reading the address gives the one just set |
| ApiEndpoint.Endpoint.GetGatewayIp | src/main/java/nl/stijngroenen/tradfri/util/ApiEndpoint.java:43-45 | definition, no contract of its own: the shared address; `Endpoint.constructor` and `Endpoint.SetGatewayIp` state what it reads after each |
| ApiEndpoint.Endpoint.GetBaseUrl | src/main/java/nl/stijngroenen/tradfri/util/ApiEndpoint.java:61-63 | definition, no contract of its own: `BaseUrl` of the current address; `BaseUrlShape` states its shape |
| ApiEndpoint.Endpoint.GetUri | src/main/java/nl/stijngroenen/tradfri/util/ApiEndpoint.java:71-73 | definition, no contract of its own: `Uri` of the current address; `UriShape` and `UriRoundTrip` state its properties |
| Codec.FlagRoundTrip | src/main/java/nl/stijngroenen/tradfri/device/GroupProperties.java:23-25 | a Boolean written as a number reads back as itself |
| Codec.CoercionsRoundTrip | src/main/java/nl/stijngroenen/tradfri/payload/GroupResponse.java:27-59 | an `Integer` or `Long` sent as its decimal text, a `String` sent as a number, and a `Boolean` sent as its text each read as the value they denote |
| Codec.IntToStringUnpadded | src/main/java/nl/stijngroenen/tradfri/payload/GroupResponse.java:33-40 | the decimal text of a number has no blank at either end and is neither "" nor "null" |
| Codec.PaddedCoercions | src/main/java/nl/stijngroenen/tradfri/payload/GroupResponse.java:33-53 | an `Integer`, a `Long` or a `Boolean` sent as its text with any blank padding reads as the value it denotes |
| Codec.TextualNull | src/main/java/nl/stijngroenen/tradfri/payload/GroupResponse.java:33-53 | blank text, and the text "null" with any padding, read as null for a `Boolean`, an `Integer` and a `Long` |
| Codec.LookupIgnoresExtra | src/main/java/nl/stijngroenen/tradfri/device/GroupProperties.java:16 | a key that the extra fields lack is found, or not found, in the original fields alone |
| Codec.FlagToJson | src/main/java/nl/stijngroenen/tradfri/device/GroupProperties.java:23-25 | definition, no contract of its own: a `Boolean` in `Shape.NUMBER`, 1 or 0; `FlagRoundTrip` states that it reads back |
| Codec.Include | src/main/java/nl/stijngroenen/tradfri/device/GroupProperties.java:17 | definition, no contract of its own: NON_NULL inclusion of one property; the `Encode` rows of `GroupProperties`, `GroupRequest` and `SceneProperties` state the resulting key sets |
| Codec.OptFlagToJson | src/main/java/nl/stijngroenen/tradfri/device/GroupProperties.java:23-25 | definition, no contract of its own: a nullable `Boolean` as 1, 0 or omitted; stated through the `Encode` rows |
| Codec.OptNumToJson | src/main/java/nl/stijngroenen/tradfri/device/GroupProperties.java:30-37 | definition, no contract of its own: a nullable number, or omitted; stated through the `Encode` rows |
| Codec.OptStrToJson | src/main/java/nl/stijngroenen/tradfri/device/GroupProperties.java:42-43 | definition, no contract of its own: a nullable string, or omitted; stated through the `Encode` rows |
| Codec.FlagFromJson | src/main/java/nl/stijngroenen/tradfri/device/GroupProperties.java:23-25 | definition, no contract of its own: a `Boolean` read from null, a JSON boolean, a number (non-zero is true) or trimmed text: "" and "null" give null, "true"/"false" (also capitalised or upper case) give the flag; `FlagRoundTrip`, `CoercionsRoundTrip`, `PaddedCoercions` and `TextualNull` state it |
| Codec.WholeFromJson | src/main/java/nl/stijngroenen/tradfri/payload/GroupResponse.java:33-46 | definition, no contract of its own: a whole number or trimmed decimal text, checked against the bounds, with "" and "null" giving null; `CoercionsRoundTrip`, `PaddedCoercions` and `TextualNull` state it |
| Codec.Int32FromJson | src/main/java/nl/stijngroenen/tradfri/payload/GroupResponse.java:33-40 | definition, no contract of its own: an `Integer` property; `CoercionsRoundTrip`, `PaddedCoercions`, `TextualNull` and the decoders' round trips state its properties |
| Codec.Int64FromJson | src/main/java/nl/stijngroenen/tradfri/payload/GroupResponse.java:45-46 | definition, no contract of its own: a `Long` property; `CoercionsRoundTrip`, `PaddedCoercions` and `TextualNull` state its reading of text |
| Codec.StringFromJson | src/main/java/nl/stijngroenen/tradfri/payload/GroupResponse.java:27-28 | definition, no contract of its own: a `String` property, read from text, a number or a boolean; `CoercionsRoundTrip` states the number case |
| Codec.OptFlag | src/main/java/nl/stijngroenen/tradfri/device/GroupProperties.java:23-25 | definition, no contract of its own: an absent key gives null; `GroupProperties.AbsentKeyIsNull` and `GroupResponse.DecodeKeyMapping` state it |
| Codec.OptInt32 | src/main/java/nl/stijngroenen/tradfri/device/GroupProperties.java:30-37 | definition, no contract of its own: an absent key gives null; stated by the same rows |
| Codec.OptInt64 | src/main/java/nl/stijngroenen/tradfri/payload/GroupResponse.java:45-46 | definition, no contract of its own: an absent key gives null; `GroupResponse.DecodeKeyMapping` states it |
| Codec.OptString | src/main/java/nl/stijngroenen/tradfri/device/GroupProperties.java:42-43 | definition, no contract of its own: an absent key gives null; stated by the same rows |
| Codec.PrimFlag | src/main/java/nl/stijngroenen/tradfri/device/SceneProperties.java:25-27 | definition, no contract of its own: a primitive `boolean`: an absent key keeps the initial value, JSON null reads as false; `SceneProperties.NullPrimitiveIsZero` and `AbsentKeysGiveDefaults` state it |
| Codec.PrimInt32 | src/main/java/nl/stijngroenen/tradfri/device/SceneProperties.java:32-51 | definition, no contract of its own: a primitive `int`: an absent key keeps the initial value, JSON null reads as 0; stated by the same rows |
| Json.Get | src/main/java/nl/stijngroenen/tradfri/payload/GroupResponse.java:69 | definition, no contract of its own: `JsonNode.get`, null for a missing key; `GroupResponse.MissingInnerNodeFails` states the consequence |
| Json.Elements | src/main/java/nl/stijngroenen/tradfri/payload/GroupResponse.java:69 | definition, no contract of its own: `JsonNode.elements()` of an array node; `GroupResponse.LinkListMembers` states the ids read from it |
| GroupProperties.Empty | src/main/java/nl/stijngroenen/tradfri/device/GroupProperties.java:65-66 | the no-argument constructor leaves all four fields null, so it encodes to `{}` |
| GroupProperties.SetOn | src/main/java/nl/stijngroenen/tradfri/device/GroupProperties.java:106-108 | sets `on` and leaves the other three fields unchanged |
| GroupProperties.SetBrightness | src/main/java/nl/stijngroenen/tradfri/device/GroupProperties.java:127-129 | sets the brightness and leaves the other fields unchanged |
| GroupProperties.SetTransitionTime | src/main/java/nl/stijngroenen/tradfri/device/GroupProperties.java:85-87 | sets the transition time and leaves the other fields unchanged |
| GroupProperties.SetColourHex | src/main/java/nl/stijngroenen/tradfri/device/GroupProperties.java:148-150 | sets the colour and leaves the other fields unchanged |
| GroupProperties.Encode | src/main/java/nl/stijngroenen/tradfri/device/GroupProperties.java:16-43 | NON_NULL: a key is present exactly when its field is non-null; `on` is written 1 or 0; no other key is written |
| GroupProperties.RoundTrip | src/main/java/nl/stijngroenen/tradfri/device/GroupProperties.java:16-43 | decoding an encoded property set gives it back exactly, with null fields staying null |
| GroupProperties.IgnoresUnknownKeys | src/main/java/nl/stijngroenen/tradfri/device/GroupProperties.java:16 | keys outside the four codes do not influence decoding |
| GroupProperties.AbsentKeyIsNull | src/main/java/nl/stijngroenen/tradfri/device/GroupProperties.java:23-43 | a missing key decodes to null, not to a default |
| GroupProperties.Decode | src/main/java/nl/stijngroenen/tradfri/device/GroupProperties.java:16-43 | definition, no contract of its own: Jackson's reading of a property set; `RoundTrip`, `IgnoresUnknownKeys` and `AbsentKeyIsNull` state its properties |
| GroupRequest.Of | src/main/java/nl/stijngroenen/tradfri/payload/GroupRequest.java:50-55 | the request copies the property set's four fields |
| GroupRequest.SetOn | src/main/java/nl/stijngroenen/tradfri/payload/GroupRequest.java:73-75 | sets `on` and leaves the other fields unchanged |
| GroupRequest.SetBrightness | src/main/java/nl/stijngroenen/tradfri/payload/GroupRequest.java:93-95 | sets the brightness and leaves the other fields unchanged |
| GroupRequest.SetTransitionTime | src/main/java/nl/stijngroenen/tradfri/payload/GroupRequest.java:113-115 | sets the transition time and leaves the other fields unchanged |
| GroupRequest.Encode | src/main/java/nl/stijngroenen/tradfri/payload/GroupRequest.java:16-42 | a key exactly for each non-null field, with its value; `on` is 1 or 0 |
| GroupRequest.EncodeEmpty | src/main/java/nl/stijngroenen/tradfri/payload/GroupRequest.java:16 | a request made from an all-null property set is the empty object |
| GroupRequest.EncodeRoundTrip | src/main/java/nl/stijngroenen/tradfri/payload/GroupRequest.java:50-55 | the request's wire form reads back as exactly the property set it was made from |
| GroupResponse.UnpackDeviceIds | src/main/java/nl/stijngroenen/tradfri/payload/GroupResponse.java:66-75 | the loop yields `asInt` of every node under `["15002"]["9003"]`, in order; a missing inner node is a failure |
| GroupResponse.AsInt | src/main/java/nl/stijngroenen/tradfri/payload/GroupResponse.java:71 | definition, no contract of its own: `JsonNode.asInt()`: a number narrowed to 32 bits, a boolean as 1 or 0, anything else 0; `UnpackDeviceIds` and `LinkListMembers` state the ids it yields |
| GroupResponse.DeviceIdsOf | src/main/java/nl/stijngroenen/tradfri/payload/GroupResponse.java:66-75 | definition, no contract of its own: the member ids under `["15002"]["9003"]`; `UnpackDeviceIds`, `LinkListMembers` and `MissingInnerNodeFails` state its properties |
| GroupResponse.Decode | src/main/java/nl/stijngroenen/tradfri/payload/GroupResponse.java:21-75 | definition, no contract of its own: Jackson's reading of a group response; `DecodeKeyMapping`, `IgnoresUnknownKeys`, `NoLinkListNoMembers`, `LinkListMembers`, `MissingInnerNodeFails` and `RequestResponseRoundTrip` state its properties |
| GroupResponse.Properties | src/main/java/nl/stijngroenen/tradfri/payload/GroupResponse.java:221-223 | `on` and brightness are carried over; the transition time and the colour are null |
| GroupResponse.SetName | src/main/java/nl/stijngroenen/tradfri/payload/GroupResponse.java:92-94 | sets the name and nothing else |
| GroupResponse.SetBrightness | src/main/java/nl/stijngroenen/tradfri/payload/GroupResponse.java:112-114 | sets the brightness and nothing else |
| GroupResponse.SetInstanceId | src/main/java/nl/stijngroenen/tradfri/payload/GroupResponse.java:132-134 | sets the instance id and nothing else |
| GroupResponse.SetCreationDate | src/main/java/nl/stijngroenen/tradfri/payload/GroupResponse.java:152-154 | sets the creation date and nothing else |
| GroupResponse.SetDeviceIds | src/main/java/nl/stijngroenen/tradfri/payload/GroupResponse.java:181-183 | sets the member ids and nothing else |
| GroupResponse.SetOn | src/main/java/nl/stijngroenen/tradfri/payload/GroupResponse.java:191-193 | sets `on` and nothing else |
| GroupResponse.SetSceneId | src/main/java/nl/stijngroenen/tradfri/payload/GroupResponse.java:211-213 | sets the scene id and nothing else |
| GroupResponse.DecodeKeyMapping | src/main/java/nl/stijngroenen/tradfri/payload/GroupResponse.java:27-59 | each numeric key fills its own field; an absent key leaves the field null |
| GroupResponse.IgnoresUnknownKeys | src/main/java/nl/stijngroenen/tradfri/payload/GroupResponse.java:21 | keys outside the seven codes do not influence decoding |
| GroupResponse.NoLinkListNoMembers | src/main/java/nl/stijngroenen/tradfri/payload/GroupResponse.java:64 | without "9018" the member list stays the initial empty list |
| GroupResponse.LinkListMembers | src/main/java/nl/stijngroenen/tradfri/payload/GroupResponse.java:66-75 | with the link list present, the member ids are the in-range numbers of the id array, in order |
| GroupResponse.MissingInnerNodeFails | src/main/java/nl/stijngroenen/tradfri/payload/GroupResponse.java:69 | a link list without "15002", or a "15002" node without "9003", makes the whole read fail |
| GroupResponse.RequestResponseRoundTrip | src/main/java/nl/stijngroenen/tradfri/payload/GroupResponse.java:221-223 | a written property set read back as a response keeps `on` and brightness, and has no members |
| SceneProperties.Default | src/main/java/nl/stijngroenen/tradfri/device/SceneProperties.java:19-57 | a fresh scene: null name, inactive, zero numbers, an empty list of light settings |
| SceneProperties.SetName | src/main/java/nl/stijngroenen/tradfri/device/SceneProperties.java:63-65 | sets the name and nothing else |
| SceneProperties.SetActive | src/main/java/nl/stijngroenen/tradfri/device/SceneProperties.java:71-73 | sets the active flag and nothing else |
| SceneProperties.SetSceneIconId | src/main/java/nl/stijngroenen/tradfri/device/SceneProperties.java:79-81 | sets the icon id and nothing else |
| SceneProperties.SetSceneIndex | src/main/java/nl/stijngroenen/tradfri/device/SceneProperties.java:87-89 | sets the index and nothing else |
| SceneProperties.SetIkeaMoods | src/main/java/nl/stijngroenen/tradfri/device/SceneProperties.java:95-97 | sets the moods value and nothing else |
| SceneProperties.SetUseCurrentLightSettings | src/main/java/nl/stijngroenen/tradfri/device/SceneProperties.java:103-105 | sets the use-current-settings value and nothing else |
| SceneProperties.SetLightSettings | src/main/java/nl/stijngroenen/tradfri/device/SceneProperties.java:111-113 | sets the light settings and nothing else |
| SceneProperties.Encode | src/main/java/nl/stijngroenen/tradfri/device/SceneProperties.java:12-57 | the five primitive keys are always written; the name and the settings are written exactly when non-null |
| SceneProperties.SettingsToJson | src/main/java/nl/stijngroenen/tradfri/device/SceneProperties.java:56-57 | definition, no contract of its own: the light settings as JSON items; `SettingsRoundTrip` states that they read back |
| SceneProperties.SettingsFromJson | src/main/java/nl/stijngroenen/tradfri/device/SceneProperties.java:56-57 | definition, no contract of its own: JSON items as light settings; `SettingsRoundTrip` states the round trip |
| SceneProperties.SettingsFrom | src/main/java/nl/stijngroenen/tradfri/device/SceneProperties.java:56-57 | definition, no contract of its own: an absent key keeps the initial empty list, null gives null, an array is read item by item; `RoundTrip` and `AbsentKeysGiveDefaults` state it |
| SceneProperties.Decode | src/main/java/nl/stijngroenen/tradfri/device/SceneProperties.java:12-57 | definition, no contract of its own: Jackson's reading of a scene's properties; `RoundTrip`, `IgnoresUnknownKeys`, `AbsentKeysGiveDefaults` and `NullPrimitiveIsZero` state its properties |
| SceneProperties.SettingsRoundTrip | src/main/java/nl/stijngroenen/tradfri/device/SceneProperties.java:56-57 | the settings list reads back element for element |
| SceneProperties.RoundTrip | src/main/java/nl/stijngroenen/tradfri/device/SceneProperties.java:12-57 | an encoded scene reads back as itself, except that an omitted null settings list reads back as the initial empty list |
| SceneProperties.IgnoresUnknownKeys | src/main/java/nl/stijngroenen/tradfri/device/SceneProperties.java:12 | keys outside the seven codes do not influence decoding |
| SceneProperties.AbsentKeysGiveDefaults | src/main/java/nl/stijngroenen/tradfri/device/SceneProperties.java:19-57 | an object without any scene key decodes to the defaults |
| SceneProperties.NullPrimitiveIsZero | src/main/java/nl/stijngroenen/tradfri/device/SceneProperties.java:25-39 | JSON null under a primitive key reads as 0 or false |
| ActivateSceneRequest.Default | src/main/java/nl/stijngroenen/tradfri/payload/ActivateSceneRequest.java:22-23 | the no-argument constructor gives off and scene 0 |
| ActivateSceneRequest.SetOn | src/main/java/nl/stijngroenen/tradfri/payload/ActivateSceneRequest.java:29-31 | sets the flag and keeps the scene id |
| ActivateSceneRequest.SetSceneId | src/main/java/nl/stijngroenen/tradfri/payload/ActivateSceneRequest.java:37-39 | sets the scene id and keeps the flag |
| ActivateSceneRequest.Encode | src/main/java/nl/stijngroenen/tradfri/payload/ActivateSceneRequest.java:8-15 | exactly the two keys are written, with the flag as 1 or 0 |
| ActivateSceneRequest.Decode | src/main/java/nl/stijngroenen/tradfri/payload/ActivateSceneRequest.java:8-23 | definition, no contract of its own: the reference inverse of the payload, which the source only writes; `RoundTrip` states that it inverts `Encode` |
| ActivateSceneRequest.RoundTrip | src/main/java/nl/stijngroenen/tradfri/payload/ActivateSceneRequest.java:8-23 | the activation payload reads back as itself |
| ActivateSceneRequest.EncodeInjective | src/main/java/nl/stijngroenen/tradfri/payload/ActivateSceneRequest.java:8-15 | distinct requests give distinct payloads |
| Devices.HeaderOf | src/main/java/nl/stijngroenen/tradfri/device/Gateway.java:174-183 | every device is built from the response's name, creation date, instance id and information block |
| Transport.CoapClient.constructor | src/main/java/nl/stijngroenen/tradfri/device/Gateway.java:66 | the client starts with no credentials, the default timeout and an empty history |
| Transport.CoapClient.SetCredentials | src/main/java/nl/stijngroenen/tradfri/device/Gateway.java:107-109 | replaces the credentials and nothing else |
| Transport.CoapClient.SetTimeout | src/main/java/nl/stijngroenen/tradfri/device/Gateway.java:149-151 | replaces the timeout and nothing else |
| Transport.CoapClient.GetIds | src/main/java/nl/stijngroenen/tradfri/device/Gateway.java:160 | definition, no contract of its own: the gateway's id list answer under the current history and credentials; `Gateway.Gateway.GetDevices` and `GetGroups` state how it is used |
| Transport.CoapClient.GetDevice | src/main/java/nl/stijngroenen/tradfri/device/Gateway.java:171 | definition, no contract of its own: the gateway's device answer under the current history and credentials; `Gateway.Gateway.GetDevice` states how it is classified |
| Transport.CoapClient.GetGroup | src/main/java/nl/stijngroenen/tradfri/device/Gateway.java:242 | a group answer is non-null exactly when the gateway answered and the payload reads as a group response; a non-null answer is exactly the decoded response |
| Transport.CoapClient.Put | src/main/java/nl/stijngroenen/tradfri/device/Group.java:268 | one PUT is appended to the history; it is answered by the gateway as the gateway stood before |
| Transport.CoapClient.Authenticate | src/main/java/nl/stijngroenen/tradfri/device/Gateway.java:82 | one authentication request is appended to the history; it is answered as the gateway stood before |
| Group.Group.constructor | src/main/java/nl/stijngroenen/tradfri/device/Group.java:63-71 | holds the given snapshot and client; the update queue starts empty |
| Group.Payload | src/main/java/nl/stijngroenen/tradfri/device/Group.java:267 | definition, no contract of its own: the request body made from a property set; `SetOnPayload`, `SetBrightnessPayload`, `EmptyQueuePayload` and `GroupRequest.EncodeRoundTrip` state its content |
| Group.GroupPath | src/main/java/nl/stijngroenen/tradfri/device/Group.java:268 | definition, no contract of its own: `GROUPS` and the rendered instance id; `GroupUriInjective` and `Scene.ActivationTargetsGroup` state its properties |
| Group.Group.Uri | src/main/java/nl/stijngroenen/tradfri/device/Group.java:268 | definition, no contract of its own: the group's URI; `Group.Group.ApplyUpdate` and `Scene.Scene.Activate` state that every PUT goes there |
| Group.Group.GetOn | src/main/java/nl/stijngroenen/tradfri/device/Group.java:119-121 | definition, no contract of its own: the snapshot's `on` |
| Group.Group.GetBrightness | src/main/java/nl/stijngroenen/tradfri/device/Group.java:89-91 | definition, no contract of its own: the snapshot's brightness |
| Group.Group.GetColourHex | src/main/java/nl/stijngroenen/tradfri/device/Group.java:187-189 | definition, no contract of its own: the snapshot's colour |
| Group.Group.UpdateOn | src/main/java/nl/stijngroenen/tradfri/device/Group.java:142-144 | queues `on` and changes no other queued field |
| Group.Group.UpdateBrightness | src/main/java/nl/stijngroenen/tradfri/device/Group.java:178-180 | queues the brightness and changes no other queued field |
| Group.Group.UpdateColourHex | src/main/java/nl/stijngroenen/tradfri/device/Group.java:201-203 | queues the colour and changes no other queued field |
| Group.Group.UpdateTransitionTime | src/main/java/nl/stijngroenen/tradfri/device/Group.java:245-247 | queues the transition time and changes no other queued field |
| Group.Group.ApplyUpdate | src/main/java/nl/stijngroenen/tradfri/device/Group.java:266-270 | one PUT of the property set to `GROUPS/<instance id>`; true exactly when the gateway answered |
| Group.Group.ApplyUpdates | src/main/java/nl/stijngroenen/tradfri/device/Group.java:278-282 | the whole queue is sent as one PUT, and the queue is empty afterwards whatever the outcome |
| Group.Group.ApplyUpdatesWithTransition | src/main/java/nl/stijngroenen/tradfri/device/Group.java:291-294 | the queue is sent with its transition time overwritten, then emptied |
| Group.Group.SetOn | src/main/java/nl/stijngroenen/tradfri/device/Group.java:130-134 | sends only `on` at once; the queue is not touched |
| Group.Group.SetBrightnessWithTransition | src/main/java/nl/stijngroenen/tradfri/device/Group.java:165-170 | sends only the brightness and the transition time at once |
| Group.Group.SetBrightness | src/main/java/nl/stijngroenen/tradfri/device/Group.java:153-155 | sends only the brightness, with a null transition time |
| Group.Group.SetColourHexWithTransition | src/main/java/nl/stijngroenen/tradfri/device/Group.java:217-222 | sends only the colour and the transition time at once |
| Group.Group.SetColourHex | src/main/java/nl/stijngroenen/tradfri/device/Group.java:235-237 | sends only the colour, with a null transition time |
| Group.ApplyOne | src/main/java/nl/stijngroenen/tradfri/device/Group.java:142-247 | definition, no contract of its own: one `UpdateX` call on the queued property set; `ApplyOneGet` states which field it writes |
| Group.Queue | src/main/java/nl/stijngroenen/tradfri/device/Group.java:142-247 | definition, no contract of its own: a sequence of `UpdateX` calls; `QueueField` and `LastUpdateWins` state the queued result |
| Group.ApplyOneGet | src/main/java/nl/stijngroenen/tradfri/device/Group.java:142-247 | one queued update writes its own field and leaves the other three unchanged |
| Group.QueueField | src/main/java/nl/stijngroenen/tradfri/device/Group.java:142-247 | after any sequence of updates, a queued field holds the value of its last update, or its old value when no update wrote it |
| Group.LastUpdateWins | src/main/java/nl/stijngroenen/tradfri/device/Group.java:142-247 | for each of on, brightness, colour and transition time: the last update of that field wins, whatever updates of other fields come after it; an unwritten field keeps its old value |
| Group.SetOnPayload | src/main/java/nl/stijngroenen/tradfri/device/Group.java:130-134 | the `SetOn` payload is just the flag as 1 or 0, or `{}` for null |
| Group.SetBrightnessPayload | src/main/java/nl/stijngroenen/tradfri/device/Group.java:165-170 | the payload holds the brightness and the transition time, each only when non-null |
| Group.EmptyQueuePayload | src/main/java/nl/stijngroenen/tradfri/device/Group.java:278-282 | an emptied queue sends `{}` when flushed again |
| Group.ValueOfNoSlash | src/main/java/nl/stijngroenen/tradfri/device/Group.java:268 | the rendering of an instance id contains no "/" |
| Group.GroupUriInjective | src/main/java/nl/stijngroenen/tradfri/device/Group.java:268 | groups with different instance ids are sent to different URIs |
| Scene.ActivationPayload | src/main/java/nl/stijngroenen/tradfri/device/Scene.java:44-47 | the activation payload reads back as "on" with this scene's id |
| Scene.Scene.constructor | src/main/java/nl/stijngroenen/tradfri/device/Scene.java:18-30 | holds the given fields |
| Scene.Scene.GetName | src/main/java/nl/stijngroenen/tradfri/device/Scene.java:32-34 | definition, no contract of its own: the scene's name |
| Scene.Scene.GetInstanceId | src/main/java/nl/stijngroenen/tradfri/device/Scene.java:36-38 | definition, no contract of its own: the scene's id; `Scene.ActivationPayload` states that activation sends it |
| Scene.Scene.GetCreationDate | src/main/java/nl/stijngroenen/tradfri/device/Scene.java:40-42 | definition, no contract of its own: the scene's creation date |
| Scene.Scene.Activate | src/main/java/nl/stijngroenen/tradfri/device/Scene.java:44-47 | exactly one PUT of the activation payload to the owning group's URI, and nothing else changes |
| Scene.ActivationTargetsGroup | src/main/java/nl/stijngroenen/tradfri/device/Scene.java:45 | activation addresses `GROUPS/<group id>`, not a scene path |
| Gateway.IsGeneratedIdentity | src/main/java/nl/stijngroenen/tradfri/device/Gateway.java:78 | definition, no contract of its own: 16 alphanumeric characters; `Gateway.Gateway.Connect` states that the identity sent has this form |
| Gateway.HasLights | src/main/java/nl/stijngroenen/tradfri/device/Gateway.java:174 | definition, no contract of its own: a non-null, non-empty light array; `LightFirst` states its role |
| Gateway.HasPlugs | src/main/java/nl/stijngroenen/tradfri/device/Gateway.java:176 | definition, no contract of its own: a non-null, non-empty plug array; `PlugSecond` states its role |
| Gateway.ModelName | src/main/java/nl/stijngroenen/tradfri/device/Gateway.java:178-180 | definition, no contract of its own: the model name, null where it or the information block is null; `ByModelName` states its role |
| Gateway.Classify | src/main/java/nl/stijngroenen/tradfri/device/Gateway.java:172-184 | definition, no contract of its own: the ordered rule list of `getDevice`; `LightFirst`, `PlugSecond`, `ByModelName` and `ClassifyKeepsHeader` state it |
| Gateway.ClassifyKeepsHeader | src/main/java/nl/stijngroenen/tradfri/device/Gateway.java:174-183 | every classified device keeps the response's common fields |
| Gateway.LightFirst | src/main/java/nl/stijngroenen/tradfri/device/Gateway.java:174-175 | a device is a light exactly when its light array is non-empty; the light is the first element |
| Gateway.PlugSecond | src/main/java/nl/stijngroenen/tradfri/device/Gateway.java:176-177 | a device is a plug exactly when it has no lights and a non-empty plug array |
| Gateway.ByModelName | src/main/java/nl/stijngroenen/tradfri/device/Gateway.java:178-183 | with neither array, the model name decides between remote, motion sensor and generic; a null name is a null dereference |
| Gateway.RemoveFirstAt | src/main/java/nl/stijngroenen/tradfri/device/Gateway.java:317-319 | removal drops exactly the first occurrence of the handler |
| Gateway.RemoveFirstAbsent | src/main/java/nl/stijngroenen/tradfri/device/Gateway.java:317-319 | removing a handler that is not registered changes nothing |
| Gateway.RemoveFirstMultiset | src/main/java/nl/stijngroenen/tradfri/device/Gateway.java:317-319 | removal takes away one occurrence and nothing else |
| Gateway.AddThenRemove | src/main/java/nl/stijngroenen/tradfri/device/Gateway.java:307-319 | adding an unregistered handler and then removing it restores the list |
| Gateway.FindSuperGroup | src/main/java/nl/stijngroenen/tradfri/device/Gateway.java:254-258 | a found position is within the list |
| Gateway.FindSuperGroupFound | src/main/java/nl/stijngroenen/tradfri/device/Gateway.java:254-258 | position `i` is found exactly when it is the first name equal to "SuperGroup" and every earlier name is non-null |
| Gateway.FindSuperGroupMissing | src/main/java/nl/stijngroenen/tradfri/device/Gateway.java:257 | "SuperGroup doesn't exist." exactly when every name is non-null and none matches |
| Gateway.FindSuperGroupNull | src/main/java/nl/stijngroenen/tradfri/device/Gateway.java:256 | a null dereference exactly when a null name comes before any match |
| Gateway.RemoveFirst | src/main/java/nl/stijngroenen/tradfri/device/Gateway.java:317-319 | definition, no contract of its own: `List.remove(Object)`; `RemoveFirstAt`, `RemoveFirstAbsent`, `RemoveFirstMultiset` and `AddThenRemove` state it |
| Gateway.StateNames | src/main/java/nl/stijngroenen/tradfri/device/Gateway.java:255-256 | definition, no contract of its own: the names of the group listing; `Gateway.Gateway.GetSuperGroup` states the search over them |
| Gateway.GroupNames | src/main/java/nl/stijngroenen/tradfri/device/Gateway.java:255-256 | definition, no contract of its own: the names of the group objects; the same search |
| Gateway.CollectSpec | src/main/java/nl/stijngroenen/tradfri/device/Gateway.java:193-204 | a fetch loop gives one value per result, in order; otherwise the error of the first result that fails |
| Gateway.CollectPrefixFailure | src/main/java/nl/stijngroenen/tradfri/device/Gateway.java:197-200 | once an iteration fails, the later ones are never reached |
| Gateway.CollectFailAt | src/main/java/nl/stijngroenen/tradfri/device/Gateway.java:197-200 | a failing iteration after successful ones ends the loop with its error |
| Gateway.CollectSnoc | src/main/java/nl/stijngroenen/tradfri/device/Gateway.java:197-200 | a successful iteration appends its value |
| Gateway.Collect | src/main/java/nl/stijngroenen/tradfri/device/Gateway.java:196-199 | definition, no contract of its own: the in-order, first-failure-wins fetch loop; `CollectSpec`, `CollectPrefixFailure`, `CollectFailAt` and `CollectSnoc` state it |
| Gateway.GatewayObserver.constructor | src/main/java/nl/stijngroenen/tradfri/device/Gateway.java:276 | the observer holds the gateway and its client |
| Gateway.Gateway.constructor | src/main/java/nl/stijngroenen/tradfri/device/Gateway.java:64-68 | sets the process-wide gateway address; a new client with no credentials and no history; no observer and no handlers |
| Gateway.Gateway.SetCredentials | src/main/java/nl/stijngroenen/tradfri/device/Gateway.java:107-109 | installs the credentials in the client and sends nothing |
| Gateway.Gateway.SetIdentityAndKey | src/main/java/nl/stijngroenen/tradfri/device/Gateway.java:118-121 | installs the identity and key as credentials |
| Gateway.Gateway.GetCredentials | src/main/java/nl/stijngroenen/tradfri/device/Gateway.java:129-131 | definition, no contract of its own: the client's credentials; `SetCredentials` and `ConnectWith` state what it reads afterwards |
| Gateway.Gateway.GetTimeout | src/main/java/nl/stijngroenen/tradfri/device/Gateway.java:139-141 | definition, no contract of its own: the client's timeout; `SetTimeout` states what it reads afterwards |
| Gateway.Gateway.SetTimeout | src/main/java/nl/stijngroenen/tradfri/device/Gateway.java:149-151 | sets the client's timeout and nothing else |
| Gateway.Gateway.Connect | src/main/java/nl/stijngroenen/tradfri/device/Gateway.java:77-87 | one authentication request for a 16-character alphanumeric identity, sent under the temporary identity and the security code; no answer leaves the temporary credentials installed and returns null; otherwise the new identity and key are installed and returned |
| Gateway.Gateway.ConnectWith | src/main/java/nl/stijngroenen/tradfri/device/Gateway.java:96-99 | installs and returns exactly the given credentials |
| Gateway.Gateway.GetDeviceIds | src/main/java/nl/stijngroenen/tradfri/device/Gateway.java:159-161 | definition, no contract of its own: the id list under `DEVICES`; `GetDevices` states the null case and the listing |
| Gateway.Gateway.GetGroupIds | src/main/java/nl/stijngroenen/tradfri/device/Gateway.java:212-214 | definition, no contract of its own: the id list under `GROUPS`; `GetGroups` and `GetSuperGroup` state its use |
| Gateway.Gateway.GetDevice | src/main/java/nl/stijngroenen/tradfri/device/Gateway.java:170-185 | null when the gateway gives no answer; otherwise the classified device, or exactly the classification's failure (a null information block or model name) |
| Gateway.Gateway.DeviceResults | src/main/java/nl/stijngroenen/tradfri/device/Gateway.java:196-199 | one result per id |
| Gateway.Gateway.DeviceResultsAt | src/main/java/nl/stijngroenen/tradfri/device/Gateway.java:196-199 | the result at position `i` is `getDevice` of the `i`-th id |
| Gateway.Gateway.DevicesForSpec | src/main/java/nl/stijngroenen/tradfri/device/Gateway.java:193-204 | one device per id, in order, exactly when every fetch succeeds; otherwise the first failing fetch's error |
| Gateway.Gateway.DevicesFor | src/main/java/nl/stijngroenen/tradfri/device/Gateway.java:193-204 | definition, no contract of its own: the listing of `getDevices`; `DevicesForSpec`, `FetchDevices` and `GetDevices` state it |
| Gateway.Gateway.FetchDevices | src/main/java/nl/stijngroenen/tradfri/device/Gateway.java:196-199 | the loop computes exactly the in-order, first-failure device listing |
| Gateway.Gateway.GetDevices | src/main/java/nl/stijngroenen/tradfri/device/Gateway.java:193-204 | null when the id list is null; otherwise the device listing |
| Gateway.Gateway.GetGroup | src/main/java/nl/stijngroenen/tradfri/device/Gateway.java:240-247 | a null answer is dereferenced and fails; otherwise a fresh group with an empty queue, built from the response and its members' listing |
| Gateway.Gateway.GroupStateFor | src/main/java/nl/stijngroenen/tradfri/device/Gateway.java:240-247 | definition, no contract of its own: the group `getGroup` builds, or its failure; `Gateway.Gateway.GetGroup` and `GroupsForSpec` state it |
| Gateway.Gateway.Describes | src/main/java/nl/stijngroenen/tradfri/device/Gateway.java:246 | definition, no contract of its own: a group object built from a listed group; `GetGroup` and `DescribeAppend` state it |
| Gateway.Gateway.AllDescribe | src/main/java/nl/stijngroenen/tradfri/device/Gateway.java:230 | definition, no contract of its own: a list of group objects built one per listed group; `FetchGroups` and `GetGroups` state it |
| Gateway.Gateway.GroupResults | src/main/java/nl/stijngroenen/tradfri/device/Gateway.java:225-228 | one result per id |
| Gateway.Gateway.GroupResultsAt | src/main/java/nl/stijngroenen/tradfri/device/Gateway.java:225-228 | the result at position `i` is `getGroup` of the `i`-th id |
| Gateway.Gateway.GroupsForSpec | src/main/java/nl/stijngroenen/tradfri/device/Gateway.java:222-231 | one group per id, in order, exactly when every fetch succeeds; otherwise the first failing fetch's error |
| Gateway.Gateway.GroupsFor | src/main/java/nl/stijngroenen/tradfri/device/Gateway.java:222-231 | definition, no contract of its own: the listing of `getGroups`; `GroupsForSpec`, `FetchGroups` and `GetGroups` state it |
| Gateway.Gateway.DescribeAppend | src/main/java/nl/stijngroenen/tradfri/device/Gateway.java:227 | appending a matching group keeps the listing in step with its specification |
| Gateway.Gateway.FetchGroups | src/main/java/nl/stijngroenen/tradfri/device/Gateway.java:225-228 | the loop yields fresh groups with empty queues, matching the group listing element for element, or its first failure |
| Gateway.Gateway.GetGroups | src/main/java/nl/stijngroenen/tradfri/device/Gateway.java:222-231 | null when the id list is null; otherwise the group listing |
| Gateway.Gateway.GetSuperGroup | src/main/java/nl/stijngroenen/tradfri/device/Gateway.java:254-258 | a null group list is a null dereference; otherwise the group at the first "SuperGroup" position, or that search's failure |
| Gateway.Gateway.EnableObserve | src/main/java/nl/stijngroenen/tradfri/device/Gateway.java:275-278 | creates the observer only on first use; an existing one is reused |
| Gateway.Gateway.DisableObserve | src/main/java/nl/stijngroenen/tradfri/device/Gateway.java:286-289 | without an observer the answer is false |
| Gateway.GatewayObserver.Start | src/main/java/nl/stijngroenen/tradfri/device/Gateway.java:277 | definition, no contract of its own: the observer's start is left open (see "Left out") |
| Gateway.GatewayObserver.Stop | src/main/java/nl/stijngroenen/tradfri/device/Gateway.java:288 | definition, no contract of its own: the observer's stop is left open (see "Left out") |
| Gateway.Gateway.GetEventHandlers | src/main/java/nl/stijngroenen/tradfri/device/Gateway.java:297-299 | definition, no contract of its own: the handler list; `AddEventHandler` and `RemoveEventHandler` state what it reads afterwards |
| Gateway.Gateway.AddEventHandler | src/main/java/nl/stijngroenen/tradfri/device/Gateway.java:307-309 | the handler is appended to the list |
| Gateway.Gateway.RemoveEventHandler | src/main/java/nl/stijngroenen/tradfri/device/Gateway.java:317-319 | the first occurrence of the handler is removed from the list |

## Left out

- The CoAP client, its DTLS session and its JSON mapping are not part of this model. Every answer comes from `Transport.GatewayBehaviour`, an oracle over the request history, the credentials and the request.
- Transport.CoapClient.GetGroup: a group payload that Jackson cannot read is taken to give null, as the client does for any response it cannot handle. The client's own exception handling is not part of this model.
- The client's default timeout is a parameter of the gateway behaviour. Its value is not modelled.
- A request timeout, a lost datagram and a DTLS handshake failure each appear only as a null answer.
- `RandomStringUtils.randomAlphanumeric(16)` is a nondeterministic choice of a 16-character alphanumeric identity. Its randomness is not modelled.
- Gateway.GatewayObserver.Start and Stop: the observer's internals (its CoAP observe relations and its event dispatch) are not part of this model. Whether starting or stopping succeeds is left unconstrained.
- The `EventHandler` class hierarchy is not part of this model. Handlers are compared by identity, as `List.remove` does for classes that do not override `equals`.
- `getScenes` (src/main/java/nl/stijngroenen/tradfri/device/Gateway.java:265-267) delegates to `Group.getScenes`, which is not in the group source. It is left out.
- The device classes (`Device`, `Light`, `Plug`, `Remote`, `MotionSensor`) and `DeviceResponse`, `DeviceInfo`, `LightProperties` and `PlugProperties` are not part of this model. A device carries its common fields and, for a light or a plug, its first property element as JSON. The device objects do not hold the client.
- Devices.DeviceResponse is taken as already decoded: how its keys are read is not modelled.
- AuthenticateRequest and AuthenticateResponse are reduced to the identity sent and the preshared key received. Their key names are not modelled.
- The gateway address is a static field in the source. Here it is the shared `ApiEndpoint.Endpoint` object, which every gateway and group holds. A second gateway constructed in the same process overwrites it, as in the source.
- The lists and arrays that getters return are values here. Aliasing through a returned `List` (for example `getEventHandlers` followed by a `clear`) is not modelled.
- Null arguments from callers are not modelled; each of these parameters is non-null here:
  - the address of `new Gateway(ip)`. A null address would make every URI `coaps://null:5684/...`.
  - the security code of `connect(String)`. A null code would install `Credentials("Client_identity", null)`.
  - the identity of `setCredentials(String, String)`.
  - the argument of `connect(Credentials)`.
  - the handler of `addEventHandler` and `removeEventHandler`. A null handler would be added to or removed from the list like any other.
- Codec.FlagFromJson, Codec.Int32FromJson, Codec.Int64FromJson, Codec.StringFromJson: the JSON model has only whole numbers, so Jackson's truncation of a fractional number read as an `Integer` or `Long` is not modelled.
- Codec.Int32FromJson and Codec.Int64FromJson read trimmed text of the form an optional '-' followed by one or more digits, leading zeros included. A leading '+', which Jackson may accept, is a failure here.
- Codec.FlagFromJson, Codec.Int32FromJson, Codec.Int64FromJson, Codec.StringFromJson follow Jackson's default coercion settings. Other mapper configurations are not part of this model. A JSON boolean read as an `Integer` or `Long` is a failure here.
- `JsonNode.elements()` on an object node gives its field values in Jackson. Here only an array node has elements.
- `JsonNode.asInt()` on a text node parses the text in Jackson. Here it gives 0, as it does for every node that is not a number or a boolean.
- Jackson also derives property names from the not-annotated accessors (`isActive` and `getDeviceIds`). Those extra JSON properties are not modelled.
- The group getters (`getName`, `getInstanceId`, `getCreationDate`, `getDevices`, `getOn`, `getBrightness`, `getColourHex`) read the constant fields of the snapshot and carry no contract of their own. The same holds for the scene getters.
- Gateway.Gateway.DeviceResults and Gateway.Gateway.GroupResults state only their length in their own contract. Their element-wise meaning is stated by `DeviceResultsAt` and `GroupResultsAt`.
- ApiEndpoint.NoSlash, Codec.IsTrueText, Codec.IsFalseText, Codec.IsNullText, JavaLang.IsBlank, JavaLang.AllBlank, Gateway.IsAlphanumeric, Gateway.Passes, Gateway.PassesBefore, Group.FieldOf, Group.LastOf, Group.NoneOf, Group.Get, Group.Written, JavaLang.IsDigit, JavaLang.AllDigits and the `Wrappers` members are auxiliary definitions with no contract of their own and no source operation of their own. They exist to state the contracts of the rows above.
