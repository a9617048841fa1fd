/** The typed messages the classifier hands to the bot's handler
    (`com.wire.bots.sdk.models`), and the domain enumeration of
    operational-transform operations. */
module Models {
  import opened Wrappers
  import opened Messages

  /** The domain operation enumeration, in declaration order. */
  datatype Operation = Insert | Delete

  /** `Operation.values()`: the domain constants in declaration order. */
  const Operations: seq<Operation> := [Insert, Delete]

  /** The fields every typed message shares: its id, the bot's conversation
      and device, and the sending user. */
  datatype MessageHeader = MessageHeader(messageId: string, conversationId: string, clientId: string, userId: string)

  datatype TextMessage = TextMessage(header: MessageHeader, text: string)

  datatype OTMessage = OTMessage(header: MessageHeader, operation: Operation, offset: int, text: Option<string>, length: Option<int>)

  /** The state of a `MessageAssetBase` once the classifier has filled it in. */
  datatype AssetFields = AssetFields(
    mimeType: string,
    size: int,
    name: Option<string>,
    assetKey: Option<string>,
    assetToken: Option<string>,
    otrKey: Option<Bytes>,
    sha256: Option<Bytes>)

  datatype ImageMessage = ImageMessage(header: MessageHeader, asset: AssetFields, height: int, width: int, tag: Option<string>)

  datatype AudioMessage = AudioMessage(header: MessageHeader, asset: AssetFields, duration: int)

  datatype VideoMessage = VideoMessage(header: MessageHeader, asset: AssetFields, duration: int, height: int, width: int)

  datatype AttachmentMessage = AttachmentMessage(header: MessageHeader, asset: AssetFields)

  /** The mutable base of every asset message: created empty, then filled in
      field by field through its setters. */
  class MessageAssetBase {
    const header: MessageHeader
    var mimeType: string
    var size: int
    var name: Option<string>
    var assetKey: Option<string>
    var assetToken: Option<string>
    var otrKey: Option<Bytes>
    var sha256: Option<Bytes>

    /** A new message has its header and no asset data yet. */
    constructor (header: MessageHeader)
      ensures this.header == header
      ensures Fields() == AssetFields("", 0, None, None, None, None, None)
    {
      this.header := header;
      mimeType, size, name := "", 0, None;
      assetKey, assetToken, otrKey, sha256 := None, None, None, None;
    }

    /** The current value of the asset fields. */
    function Fields(): AssetFields
      reads this
    {
      AssetFields(mimeType, size, name, assetKey, assetToken, otrKey, sha256)
    }
  }
}
