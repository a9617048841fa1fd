/** The decrypted generic-message envelope (`Messages.GenericMessage` and the
    records it nests), as the protocol-buffer codec hands it to the classifier.
    An optional field is an `Option`; a field read with a plain getter is the
    value that getter returns. Decoding itself is not part of this model. */
module Messages {
  import opened Wrappers

  type Bytes = seq<bv8>

  /** A link preview attached to a text. Only whether the list is empty matters here. */
  datatype LinkPreview = LinkPreview(url: string)

  /** `Messages.Text`: the content is an optional field. */
  datatype Text = Text(content: Option<string>, linkPreview: seq<LinkPreview>)

  datatype ImageMetaData = ImageMetaData(height: int, width: int, tag: Option<string>)

  datatype AudioMetaData = AudioMetaData(durationInMillis: int)

  datatype VideoMetaData = VideoMetaData(durationInMillis: int, height: int, width: int)

  /** `Asset.Original`: the metadata known before the upload. */
  datatype Original = Original(
    mimeType: string,
    size: int,
    name: Option<string>,
    image: Option<ImageMetaData>,
    audio: Option<AudioMetaData>,
    video: Option<VideoMetaData>)

  /** `Asset.RemoteData`: where the uploaded, encrypted blob lives. */
  datatype RemoteData = RemoteData(assetId: string, assetToken: Option<string>, otrKey: Bytes, sha256: Bytes)

  datatype Asset = Asset(original: Option<Original>, uploaded: Option<RemoteData>)

  /** A self-expiring wrapper around a text or an asset. */
  datatype Ephemeral = Ephemeral(expireAfterMillis: int, text: Option<Text>, asset: Option<Asset>)

  /** `Messages.MessageEdit`: replaces the message `replacingMessageId` with new text. */
  datatype MessageEdit = MessageEdit(replacingMessageId: string, text: Option<Text>)

  /** The wire enumeration of operational-transform operations, in declaration order. */
  datatype OtType = OtInsert | OtDelete

  /** `OtType.values()`: the wire constants in declaration order. */
  const OtTypes: seq<OtType> := [OtInsert, OtDelete]

  /** `ordinal()`: the position of a wire constant in its declaration order. */
  function OtTypeOrdinal(t: OtType): (i: nat)
    ensures i < |OtTypes| && OtTypes[i] == t
  {
    match t
    case OtInsert => 0
    case OtDelete => 1
  }

  /** `Messages.OT`: one live-editing operation. */
  datatype OT = OT(otType: OtType, offset: int, text: Option<string>, length: Option<int>)

  /** `Messages.GenericMessage`. Each variant the classifier looks at is tested
      independently, so every combination of present fields is representable;
      an envelope that carries only variants the classifier ignores has all of
      them `None`. */
  datatype GenericMessage = GenericMessage(
    messageId: string,
    text: Option<Text>,
    asset: Option<Asset>,
    ephemeral: Option<Ephemeral>,
    edited: Option<MessageEdit>,
    ot: Option<OT>)
}
