# Lithium inbound event router and message classifier, in Dafny

This project models the inbound path of the Lithium bot SDK for the Wire
messenger.

- `MessageResourceBase.handleMessage` is the event router. It takes one
  backend event and, depending on its kind, makes an ordered series of calls
  on the bot's `WireClient`, on the bot author's handler and on the client
  repository. A new encrypted message is decrypted, decoded, reported to
  `onEvent`, classified, and acknowledged with a delivery receipt when the
  classifier says so. A member join tops up the bot's prekeys before the
  handler hears of the new members. A member leave or a conversation delete
  cleans up the bot's state when the bot itself is gone.
- `GenericMessageProcessor.process` is the classifier. It picks the first
  that applies of: an edit with text, a plain text without link preview, an
  operational transform (OT), or media (image, audio, video, other
  attachment). It fires at most one handler callback with a typed message
  record and reports whether a receipt is owed. `initAsset` fills an asset
  message from the wire metadata and upload data.

Layout:

- `wrappers.dfy`: the `Option` type.
- `messages.dfy` (module `Messages`): the decrypted envelope (`GenericMessage`
  and its parts) as values.
- `models.dfy` (module `Models`): the typed message records handed to the
  handler. `MessageAssetBase` is a class, because `initAsset` fills its fields
  by setters.
- `generic_message_processor.dfy` (module `Server`): the classifier.
  - `Classify` is the pure specification of the decision tree.
  - `GenericMessageProcessor.Process` is the imperative method. It reassigns
    its `text` and `asset` locals as the Java code does and is proved to
    agree with `Classify`.
  - `InitAsset` mutates a `MessageAssetBase` in place.
- `processor_properties.dfy` (module `ProcessorProperties`): what the
  decision tree promises.
- `message_resource_base.dfy` (module `Resources`): the router.
  - Every call on the client, the handler or the repository is an `Effect`.
  - `MessageResourceBase.HandleMessage` appends the effects to its `log`
    field and removes the bot's id from the payload's `userIds` in place.
  - `HandleTrace` is the specification: the effects of one event and how the
    call ends, normally or by an escaping exception.
  - What the client answers is an input (the `WireClient` value): its bot id,
    the decrypted bytes or a decryption failure, the available prekey ids,
    and whether a receipt fails. The protobuf decoder is an input too
    (`parseFrom`; `None` means a malformed envelope).
- `resource_properties.dfy` (module `ResourceProperties`): what the router
  promises.

Java `int` arithmetic is explicit:

- `size()` saturates at the largest `int` (`JavaSize`).
- `8 * size()` keeps the low 32 bits of the product, read as signed
  (`RequiredPrekeys`).
- `max + 1` wraps past the largest `int` (`NextPrekeyId`).

`ArrayList.remove(Object)` drops the first occurrence only (`Remove`).
`Collections.max` on an empty list throws `NoSuchElementException` (`Max`
returns `None`, and the router ends with `Thrown(NoSuchElement)`).

Behaviour of the code worth knowing:

- Plain text is dispatched when its content field is present (`hasContent`),
  even if that content is the empty string.
- Every typed message record carries the bot's own device id
  (`client.getDeviceId()`) as its client id, not the sender's client id.
- An edit whose text has no content field yields the empty string, which is
  protobuf's default for an absent string.
- When no prekey id remains after the last-resort id 65535 is removed,
  `Collections.max` throws and the exception escapes `handleMessage`
  (`Thrown(NoSuchElement)`). No explicit "inventory exhausted" error and no
  fallback offset exist in the code. `onMemberJoin` is then not called.
- Only one copy of 65535 is removed. A second copy would count as
  inventory, and it could become the maximum.

## Model

| member | source | states |
|---|---|---|
| Messages.OtTypeOrdinal | src/main/java/com/wire/bots/sdk/server/GenericMessageProcessor.java:89 | `ordinal()` of a wire OT type is a valid position in the declared order of the wire enum, and that position holds the type |
| Server.Classify | src/main/java/com/wire/bots/sdk/server/GenericMessageProcessor.java:38-169 | if a callback fires, it is `onOT` exactly when no receipt is owed; a receipt without a callback is owed only for an asset with original metadata |
| Server.ClassifyAsset | src/main/java/com/wire/bots/sdk/server/GenericMessageProcessor.java:110-165 | every asset with original metadata owes a receipt, whether or not its callback fired |
| Server.InitAsset | src/main/java/com/wire/bots/sdk/server/GenericMessageProcessor.java:171-183 | mime type, size and name are always copied; asset key, token, encryption key and digest are copied from the upload data when it is present, and left as they were otherwise |
| Server.NewAssetMessage | src/main/java/com/wire/bots/sdk/server/GenericMessageProcessor.java:115-117 | a fresh asset message after `initAsset` holds exactly `AssetFieldsOf(asset, original)`, with the header it was built with |
| Server.GenericMessageProcessor.constructor | src/main/java/com/wire/bots/sdk/server/GenericMessageProcessor.java:33-36 | the processor keeps the conversation and device ids of the client it is built with |
| Server.GenericMessageProcessor.Process | src/main/java/com/wire/bots/sdk/server/GenericMessageProcessor.java:38-169 | the callback fired and the value returned are those of `Classify` for the same envelope, sender, conversation and device |
| Server.GenericMessageProcessor.ProcessAsset | src/main/java/com/wire/bots/sdk/server/GenericMessageProcessor.java:110-165 | the media branch fires the callback and returns the value of `ClassifyAsset` |
| ProcessorProperties.EditWins | src/main/java/com/wire/bots/sdk/server/GenericMessageProcessor.java:68-75 | an edit with text fires `onEditText` with the replacing message id and the edit's content and owes a receipt; the rest of the envelope does not matter |
| ProcessorProperties.EphemeralTextOverrides | src/main/java/com/wire/bots/sdk/server/GenericMessageProcessor.java:57-60 | when the ephemeral wrapper has text, the top-level text has no influence on the outcome |
| ProcessorProperties.EphemeralAssetOverrides | src/main/java/com/wire/bots/sdk/server/GenericMessageProcessor.java:57-64 | when the ephemeral wrapper has an asset, the top-level asset has no influence on the outcome |
| ProcessorProperties.PlainTextDispatch | src/main/java/com/wire/bots/sdk/server/GenericMessageProcessor.java:78-84 | `onText` fires if and only if there is no edit with text and the effective text has content and no link preview; it then carries that content and owes a receipt |
| ProcessorProperties.OperationalTransformOwesNoReceipt | src/main/java/com/wire/bots/sdk/server/GenericMessageProcessor.java:87-102 | an OT not preceded by edit or text fires `onOT` with the operation at the same ordinal, the offset, and text and length only when present, and owes no receipt |
| ProcessorProperties.OperationMapsByPosition | src/main/java/com/wire/bots/sdk/server/GenericMessageProcessor.java:89 | mapping by ordinal sends each wire operation to the domain operation at the same position of the domain enumeration |
| ProcessorProperties.InitAssetFields | src/main/java/com/wire/bots/sdk/server/GenericMessageProcessor.java:171-183 | the fields after `initAsset` on a fresh message: key, encryption key and digest set if and only if uploaded, token if and only if uploaded with a token, each equal to its upload field |
| ProcessorProperties.ImageAlwaysDispatched | src/main/java/com/wire/bots/sdk/server/GenericMessageProcessor.java:114-126 | an image fires `onImage` with its height, width, tag and asset fields, uploaded or not, and owes a receipt |
| ProcessorProperties.GatedMediaDispatch | src/main/java/com/wire/bots/sdk/server/GenericMessageProcessor.java:127-164 | audio, then video, then attachment: the callback fires if and only if the asset key is set and non-empty, carrying the header, the asset fields and the duration (and for video height and width), and a receipt is owed either way |
| ProcessorProperties.ProcessedIff | src/main/java/com/wire/bots/sdk/server/GenericMessageProcessor.java:38-169 | a receipt is owed if and only if there is an edit with text, a plain text, or, with no OT, an asset with original metadata |
| ProcessorProperties.NoMatchNoCallback | src/main/java/com/wire/bots/sdk/server/GenericMessageProcessor.java:107-110 | an envelope matching no branch, or an asset without original metadata, fires nothing and owes no receipt |
| ProcessorProperties.AudioWithoutUploadExample | src/main/java/com/wire/bots/sdk/server/GenericMessageProcessor.java:127-139 | audio with metadata only: `onAudio` is not called and a receipt is owed |
| ProcessorProperties.ImageWithoutUploadExample | src/main/java/com/wire/bots/sdk/server/GenericMessageProcessor.java:114-126 | an image with metadata only fires `onImage` with no asset key |
| ProcessorProperties.EditBeatsEphemeralTextExample | src/main/java/com/wire/bots/sdk/server/GenericMessageProcessor.java:56-75 | an edit and an ephemeral text together fire only `onEditText` |
| Resources.JavaSize | src/main/java/com/wire/bots/sdk/server/resources/MessageResourceBase.java:50 | `size()` is the element count, saturated at the largest `int` |
| Resources.IndexOf | src/main/java/com/wire/bots/sdk/server/resources/MessageResourceBase.java:53 | the position of the first occurrence of the id |
| Resources.Remove | src/main/java/com/wire/bots/sdk/server/resources/MessageResourceBase.java:53 | removing an absent id changes nothing; removing a present one shortens the list by one |
| Resources.RemoveTakesOneCopy | src/main/java/com/wire/bots/sdk/server/resources/MessageResourceBase.java:53 | removal takes away exactly one copy of the id, if there is one, and no other element |
| Resources.RemoveSplicesAtIndexOf | src/main/java/com/wire/bots/sdk/server/resources/MessageResourceBase.java:53 | removal is the splice at the first occurrence, keeping the order of the rest |
| Resources.Max | src/main/java/com/wire/bots/sdk/server/resources/MessageResourceBase.java:55 | the maximum is absent (Java throws) if and only if the list is empty; otherwise it is an element and no element exceeds it |
| Resources.HandleTrace | src/main/java/com/wire/bots/sdk/server/resources/MessageResourceBase.java:24-106 | in this model, only a new message and a member join can throw, and only a member join throws `NoSuchElementException`; an unknown event kind makes no call |
| Resources.MessageResourceBase.constructor | src/main/java/com/wire/bots/sdk/server/resources/MessageResourceBase.java:18-22 | a new router has made no call |
| Resources.MessageResourceBase.HandleMessage | src/main/java/com/wire/bots/sdk/server/resources/MessageResourceBase.java:24-106 | the calls appended to the log and the outcome are those of `HandleTrace`; for member join and leave the payload's ids lose the bot's id, and otherwise they are unchanged |
| Resources.MessageResourceBase.HandleOtrMessageAdd | src/main/java/com/wire/bots/sdk/server/resources/MessageResourceBase.java:27-40 | the message case appends the calls of `MessageAddTrace` and ends as it does |
| Resources.MessageResourceBase.HandleMemberJoin | src/main/java/com/wire/bots/sdk/server/resources/MessageResourceBase.java:41-62 | the bot's id leaves the payload; `onNewConversation` is appended if it was there, then the calls for the other members |
| Resources.MessageResourceBase.AnnounceJoinedMembers | src/main/java/com/wire/bots/sdk/server/resources/MessageResourceBase.java:50-61 | the prekey query, the top-up and the announcement are appended as `AnnounceJoin` says, and handling ends as it says |
| Resources.MessageResourceBase.TopUpPrekeys | src/main/java/com/wire/bots/sdk/server/resources/MessageResourceBase.java:52-59 | the generation and upload calls are appended as `TopUp` says, and handling ends as it says |
| Resources.MessageResourceBase.HandleMemberLeave | src/main/java/com/wire/bots/sdk/server/resources/MessageResourceBase.java:64-78 | the bot's id leaves the payload, and the calls of `MemberLeaveTrace` are appended |
| Resources.MessageResourceBase.SendDelivery | src/main/java/com/wire/bots/sdk/server/resources/MessageResourceBase.java:110 | the receipt attempt is appended, and the call throws exactly when the client's receipt fails |
| Resources.MessageResourceBase.SendDeliveryReceipt | src/main/java/com/wire/bots/sdk/server/resources/MessageResourceBase.java:108-114 | the receipt attempt is appended and nothing is reported, whether or not it failed |
| ResourceProperties.MessageAddSequence | src/main/java/com/wire/bots/sdk/server/resources/MessageResourceBase.java:30-38 | decrypt first, then `onEvent` unconditionally, then the classifier's callback once if one fired, then the receipt once, last, if and only if `process` returned true, and nothing else; handling completes |
| ResourceProperties.DecryptOrParseFailureStopsFirst | src/main/java/com/wire/bots/sdk/server/resources/MessageResourceBase.java:30-31 | a decryption or decoding failure escapes right after the decryption call, before `onEvent`, classification and receipt |
| ResourceProperties.DeliveryFailureSwallowed | src/main/java/com/wire/bots/sdk/server/resources/MessageResourceBase.java:108-114 | whether the receipt fails changes neither the calls nor the outcome of any event |
| ResourceProperties.RequiredPrekeysPerMember | src/main/java/com/wire/bots/sdk/server/resources/MessageResourceBase.java:50 | eight prekeys per remaining member while the product fits in an `int` |
| ResourceProperties.RequiredPrekeysWraps | src/main/java/com/wire/bots/sdk/server/resources/MessageResourceBase.java:50-51 | the product wraps: negative at 2^28 members and zero at 2^29, so no prekeys are checked |
| Resources.TopUp | src/main/java/com/wire/bots/sdk/server/resources/MessageResourceBase.java:52-59 | the only exception is `NoSuchElementException`, thrown exactly when too few ids remain and none is left, before any key is made; two calls (generate, upload) exactly when it completes with too few ids, none otherwise |
| Resources.RequiredPrekeys | src/main/java/com/wire/bots/sdk/server/resources/MessageResourceBase.java:50 | `8 * size()`: exactly eight per member while the product fits in an `int`, always a multiple of eight; its value for every count is fixed by `RequiredIsWrappedProduct` |
| Resources.NextPrekeyId | src/main/java/com/wire/bots/sdk/server/resources/MessageResourceBase.java:56 | `max + 1`: the successor modulo 2^32, above `max` unless `max` is the largest `int`; its value for every id is fixed by `NextPrekeyIdIsWrappedSuccessor` |
| ResourceProperties.RequiredIsWrappedProduct | src/main/java/com/wire/bots/sdk/server/resources/MessageResourceBase.java:50 | for every member count, the required count is `8 * size()` reduced to 32 bits and read as a signed `int` |
| ResourceProperties.NextPrekeyIdIsWrappedSuccessor | src/main/java/com/wire/bots/sdk/server/resources/MessageResourceBase.java:56 | for every id, the first new id is `max + 1` reduced to the signed 32-bit range |
| ResourceProperties.SentinelRemoved | src/main/java/com/wire/bots/sdk/server/resources/MessageResourceBase.java:53 | one copy of 65535 is removed, if any, and every other id keeps its count |
| ResourceProperties.NothingLeftIffOnlySentinel | src/main/java/com/wire/bots/sdk/server/resources/MessageResourceBase.java:53-55 | no id remains if and only if the client reported none or only 65535 |
| ResourceProperties.TopUpWhenShort | src/main/java/com/wire/bots/sdk/server/resources/MessageResourceBase.java:54-57 | too few remaining ids: exactly `required` keys from max + 1 are generated and then uploaded; without wrap-around every new id lies above every remaining one |
| ResourceProperties.NoTopUpWhenEnough | src/main/java/com/wire/bots/sdk/server/resources/MessageResourceBase.java:54 | enough remaining ids: nothing is generated or uploaded |
| ResourceProperties.EmptyInventoryThrows | src/main/java/com/wire/bots/sdk/server/resources/MessageResourceBase.java:55 | too few ids and none but 65535: `Collections.max` throws before any key is generated |
| ResourceProperties.AnnounceJoinCalls | src/main/java/com/wire/bots/sdk/server/resources/MessageResourceBase.java:50-61 | the calls for the other members are the prekey calls and at most their announcement |
| ResourceProperties.BotJoinStartsConversation | src/main/java/com/wire/bots/sdk/server/resources/MessageResourceBase.java:46-48 | `onNewConversation` is called if and only if the bot's id is in the joined set, and then first |
| ResourceProperties.JoinOfBotAloneAnnouncesNobody | src/main/java/com/wire/bots/sdk/server/resources/MessageResourceBase.java:50-51 | with nobody but the bot joining, no prekey query and no `onMemberJoin` |
| ResourceProperties.AnnounceJoinOfOthers | src/main/java/com/wire/bots/sdk/server/resources/MessageResourceBase.java:50-61 | with others joining (fewer than 2^28 of them), the prekeys are queried first, and the others are announced, last, if and only if the top-up did not throw |
| ResourceProperties.JoinOfOthersAnnouncesThem | src/main/java/com/wire/bots/sdk/server/resources/MessageResourceBase.java:46-61 | a member join naming others (fewer than 2^28 of them) announces exactly the others, last, unless the top-up threw; an announced set is non-empty and never holds the bot |
| ResourceProperties.MemberLeaveCleanupAndAnnounce | src/main/java/com/wire/bots/sdk/server/resources/MessageResourceBase.java:69-77 | bot leaving: `removeClient`, `onBotRemoved`, `purgeBot` first and in that order, otherwise none of them; `onMemberLeave` is called if and only if others left, with those others only |
| ResourceProperties.ConversationDeleteCleansUp | src/main/java/com/wire/bots/sdk/server/resources/MessageResourceBase.java:80-88 | a delete runs the three cleanup steps in order, whatever the payload |
| ResourceProperties.ConnectionAcceptedOnlyWhenPending | src/main/java/com/wire/bots/sdk/server/resources/MessageResourceBase.java:91-95 | a connection is accepted if and only if its status is "pending"; nothing else happens |
| ResourceProperties.ConversationCreateStartsConversation | src/main/java/com/wire/bots/sdk/server/resources/MessageResourceBase.java:97-99 | a created conversation calls `onNewConversation` only |
| ResourceProperties.TopUpExample | src/main/java/com/wire/bots/sdk/server/resources/MessageResourceBase.java:52-59 | ids [1, 2, 65535] and 16 required: 16 keys from id 3 are generated and uploaded |
| ResourceProperties.MemberJoinExample | src/main/java/com/wire/bots/sdk/server/resources/MessageResourceBase.java:41-62 | bot and two others joining with two ordinary prekeys: new conversation, query, 16 keys from 3 generated and uploaded, then the two others announced |
| ResourceProperties.BotOnlyLeaveExample | src/main/java/com/wire/bots/sdk/server/resources/MessageResourceBase.java:64-78 | only the bot leaving: the cleanup and no `onMemberLeave` |
| ResourceProperties.UnknownEventExample | src/main/java/com/wire/bots/sdk/server/resources/MessageResourceBase.java:102-104 | an unknown kind makes no call and completes |
| ResourceProperties.SentinelOnlyJoinExample | src/main/java/com/wire/bots/sdk/server/resources/MessageResourceBase.java:50-60 | only 65535 available and one member joining: the query, then `NoSuchElementException`, and no announcement |

## Left out

- Decryption (the CryptoBox session) and protobuf decoding are inputs: the client's `decrypted` answer and the `parseFrom` function.
- `WireClient` has no logic of its own. Its answers are inputs, and the calls the router makes on it are recorded effects. Key generation and upload are recorded by their arguments. The generated key material is not modelled.
- Handler callback bodies, `onEvent`, and the repository are not modelled. Their calls are recorded as effects, and they are assumed not to throw. Only decryption, decoding, `Collections.max` and `sendDelivery` failures are modelled.
- Logging (`Logger.info`, `Logger.warning`) has no observable effect and is left out.
- Concurrency and the thread-safety claim of `WireClient` are out of scope, since the model is sequential.
- Null payloads and the `NullPointerException`s they would cause are not modelled. Missing protobuf fields are `None`.
- Conversion of protobuf `ByteString`s to byte arrays is the identity on `seq<bv8>`.
- The payload's `userIds` is modelled as a set. Its Java collection type is not part of this model. A list holding the bot's id twice would keep the second copy.
- The handler receives the payload's `userIds` collection itself, and the model records its value at the time of the call. Aliasing, meaning later mutation of that collection by the handler, is not modelled.
- The wire and domain OT enums are not part of this model. Each is modelled with two constants, insert and delete, declared in the same order.
- The constructors of the typed message records (`TextMessage`, `ImageMessage` and the others) are datatype values, not objects. Only the asset base class, whose fields `initAsset` sets, is a class.
- ProcessorProperties.OperationMapsByPosition: the wire and domain OT enumerations are not part of this model, so it states only the lookup by position; that equal positions carry equal names is assumed, and the `ArrayIndexOutOfBoundsException` that `values()[ordinal()]` would throw if the domain enumeration were shorter is not modelled.
- Server.ClassifyAsset: its own contract states only that a receipt is owed. The callback each media kind fires, and the record it carries, are stated by `ImageAlwaysDispatched` and `GatedMediaDispatch`.
- Resources.Remove: its own contract states presence and length only. The contents are stated by `RemoveTakesOneCopy` and `RemoveSplicesAtIndexOf`.
