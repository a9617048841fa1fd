/** The generic-message classifier (`GenericMessageProcessor`): turns one
    decrypted envelope into at most one handler callback, carrying a typed
    message, and says whether a delivery receipt is owed.

    `Classify` is the specification: the first-match decision tree as one
    expression. `GenericMessageProcessor.Process` is the imperative procedure
    that reassigns its locals and fills in message objects field by field; its
    postcondition ties it to `Classify`, and the lemmas below state what the
    decision tree promises. */
module Server {
  import opened Wrappers
  import opened Messages
  import opened Models

  /** The handler callback a classification fires, with the message it passes. */
  datatype Callback =
    | OnEditText(text: TextMessage)
    | OnText(text: TextMessage)
    | OnOT(ot: OTMessage)
    | OnImage(image: ImageMessage)
    | OnAudio(audio: AudioMessage)
    | OnVideo(video: VideoMessage)
    | OnAttachment(attachment: AttachmentMessage)

  /** What one call of the classifier does: the callback it fires, if any, and
      whether the message counts as processed (a delivery receipt is owed). */
  datatype Classification = Classification(fired: Option<Callback>, processed: bool)

  /** The envelope carries an edit, and that edit carries text. */
  predicate HasEditText(g: GenericMessage) {
    g.edited.Some? && g.edited.value.text.Some?
  }

  /** The text the classifier looks at: an ephemeral wrapper's text replaces the top-level one. */
  function EffectiveText(g: GenericMessage): Option<Text> {
    if g.ephemeral.Some? && g.ephemeral.value.text.Some? then g.ephemeral.value.text else g.text
  }

  /** The asset the classifier looks at: an ephemeral wrapper's asset replaces the top-level one. */
  function EffectiveAsset(g: GenericMessage): Option<Asset> {
    if g.ephemeral.Some? && g.ephemeral.value.asset.Some? then g.ephemeral.value.asset else g.asset
  }

  /** A text that is dispatched as plain text: present, with content, and without link previews. */
  predicate IsPlainText(t: Option<Text>) {
    t.Some? && t.value.content.Some? && t.value.linkPreview == []
  }

  /** An asset that is dispatched as media: present and carrying its original metadata. */
  predicate HasOriginal(a: Option<Asset>) {
    a.Some? && a.value.original.Some?
  }

  /** The asset key is set and not empty: the upload has completed. */
  predicate HasAssetKey(f: AssetFields) {
    f.assetKey.Some? && f.assetKey.value != ""
  }

  /** The domain operation at the same position as the wire operation. */
  function OperationOf(t: OtType): Operation {
    Operations[OtTypeOrdinal(t)]
  }

  /** The asset fields a fresh asset message holds after `InitAsset`. */
  function AssetFieldsOf(asset: Asset, original: Original): AssetFields {
    if asset.uploaded.Some? then
      var up := asset.uploaded.value;
      AssetFields(original.mimeType, original.size, original.name,
                  Some(up.assetId), up.assetToken, Some(up.otrKey), Some(up.sha256))
    else
      AssetFields(original.mimeType, original.size, original.name, None, None, None, None)
  }

  /** The media branch of the decision tree: image, then audio, then video, then attachment. */
  function ClassifyAsset(header: MessageHeader, asset: Asset): (c: Classification)
    requires asset.original.Some?
    ensures c.processed
  {
    var original := asset.original.value;
    var f := AssetFieldsOf(asset, original);
    if original.image.Some? then
      var image := original.image.value;
      Classification(Some(OnImage(ImageMessage(header, f, image.height, image.width, image.tag))), true)
    else if original.audio.Some? then
      var audio := original.audio.value;
      Classification(if HasAssetKey(f) then Some(OnAudio(AudioMessage(header, f, audio.durationInMillis))) else None, true)
    else if original.video.Some? then
      var video := original.video.value;
      Classification(if HasAssetKey(f) then Some(OnVideo(VideoMessage(header, f, video.durationInMillis, video.height, video.width))) else None, true)
    else
      Classification(if HasAssetKey(f) then Some(OnAttachment(AttachmentMessage(header, f))) else None, true)
  }

  /** The classification of envelope `g` from user `userId`, received by the
      bot's device `deviceId` in conversation `convId`: the first of edit, plain
      text, operational transform and media that applies. */
  function Classify(userId: string, g: GenericMessage, convId: string, deviceId: string): (c: Classification)
    // when a callback fires, it is `onOT` exactly when no receipt is owed
    ensures c.fired.Some? ==> (c.processed <==> !c.fired.value.OnOT?)
    // a receipt without a callback is owed only for an asset with original metadata
    ensures c.processed && c.fired.None? ==> HasOriginal(EffectiveAsset(g))
  {
    var header := MessageHeader(g.messageId, convId, deviceId, userId);
    if HasEditText(g) then
      var edited := g.edited.value;
      var msg := TextMessage(MessageHeader(edited.replacingMessageId, convId, deviceId, userId),
                             edited.text.value.content.GetOr(""));
      Classification(Some(OnEditText(msg)), true)
    else if IsPlainText(EffectiveText(g)) then
      Classification(Some(OnText(TextMessage(header, EffectiveText(g).value.content.value))), true)
    else if g.ot.Some? then
      var ot := g.ot.value;
      Classification(Some(OnOT(OTMessage(header, OperationOf(ot.otType), ot.offset, ot.text, ot.length))), false)
    else if HasOriginal(EffectiveAsset(g)) then
      ClassifyAsset(header, EffectiveAsset(g).value)
    else
      Classification(None, false)
  }

  /** Copies the original metadata into `msg`, and the upload data only when
      the asset has been uploaded; otherwise those fields keep their values. */
  method InitAsset(asset: Asset, original: Original, msg: MessageAssetBase)
    modifies msg
    ensures msg.mimeType == original.mimeType && msg.size == original.size && msg.name == original.name
    ensures asset.uploaded.Some? ==>
      var up := asset.uploaded.value;
      && msg.assetKey == Some(up.assetId) && msg.assetToken == up.assetToken
      && msg.otrKey == Some(up.otrKey) && msg.sha256 == Some(up.sha256)
    ensures asset.uploaded.None? ==>
      && msg.assetKey == old(msg.assetKey) && msg.assetToken == old(msg.assetToken)
      && msg.otrKey == old(msg.otrKey) && msg.sha256 == old(msg.sha256)
  {
    msg.mimeType := original.mimeType;
    msg.size := original.size;
    msg.name := if original.name.Some? then original.name else None;
    if asset.uploaded.Some? {
      var uploaded := asset.uploaded.value;
      msg.assetKey := Some(uploaded.assetId);
      msg.assetToken := if uploaded.assetToken.Some? then uploaded.assetToken else None;
      msg.otrKey := Some(uploaded.otrKey);
      msg.sha256 := Some(uploaded.sha256);
    }
  }

  /** Fills a fresh asset message: the result is exactly `AssetFieldsOf`. */
  method NewAssetMessage(header: MessageHeader, asset: Asset, original: Original) returns (msg: MessageAssetBase)
    ensures msg.header == header && msg.Fields() == AssetFieldsOf(asset, original)
  {
    msg := new MessageAssetBase(header);
    InitAsset(asset, original, msg);
  }

  /** The classifier bound to one bot's client: it reads the conversation and
      device ids from it. */
  class GenericMessageProcessor {
    const conversationId: string
    const deviceId: string

    constructor (conversationId: string, deviceId: string)
      ensures this.conversationId == conversationId && this.deviceId == deviceId
    {
      this.conversationId := conversationId;
      this.deviceId := deviceId;
    }

    /** Classifies `generic`, sent by `userId`: returns the callback fired, if
        any, and whether a delivery receipt is owed. */
    method Process(userId: string, generic: GenericMessage) returns (fired: Option<Callback>, processed: bool)
      ensures Classification(fired, processed) == Classify(userId, generic, conversationId, deviceId)
    {
      var messageId := generic.messageId;
      var convId := conversationId;
      var clientId := deviceId;

      var text: Option<Text> := None;
      var asset: Option<Asset> := None;
      if generic.text.Some? {
        text := generic.text;
      }
      if generic.asset.Some? {
        asset := generic.asset;
      }
      if generic.ephemeral.Some? {
        if generic.ephemeral.value.text.Some? {
          text := generic.ephemeral.value.text;
        }
        if generic.ephemeral.value.asset.Some? {
          asset := generic.ephemeral.value.asset;
        }
      }

      if generic.edited.Some? && generic.edited.value.text.Some? {
        var edited := generic.edited.value;
        var msg := TextMessage(MessageHeader(edited.replacingMessageId, convId, clientId, userId),
                               edited.text.value.content.GetOr(""));
        return Some(OnEditText(msg)), true;
      }

      if text.Some? && text.value.content.Some? && text.value.linkPreview == [] {
        var msg := TextMessage(MessageHeader(messageId, convId, clientId, userId), text.value.content.value);
        return Some(OnText(msg)), true;
      }

      if generic.ot.Some? {
        var ot := generic.ot.value;
        var operation := Operations[OtTypeOrdinal(ot.otType)];
        var otMessage := OTMessage(MessageHeader(messageId, convId, clientId, userId), operation, ot.offset, None, None);
        if ot.text.Some? {
          otMessage := otMessage.(text := ot.text);
        }
        if ot.length.Some? {
          otMessage := otMessage.(length := ot.length);
        }
        return Some(OnOT(otMessage)), false;
      }

      if asset.Some? {
        if asset.value.original.Some? {
          fired, processed := ProcessAsset(MessageHeader(messageId, convId, clientId, userId), asset.value);
          return;
        }
      }

      return None, false;
    }

    /** The media branch of `Process`, for an asset with original metadata. */
    method ProcessAsset(header: MessageHeader, asset: Asset) returns (fired: Option<Callback>, processed: bool)
      requires asset.original.Some?
      ensures Classification(fired, processed) == ClassifyAsset(header, asset)
    {
      var original := asset.original.value;
      var msg := NewAssetMessage(header, asset, original);
      if original.image.Some? {
        var image := original.image.value;
        return Some(OnImage(ImageMessage(header, msg.Fields(), image.height, image.width, image.tag))), true;
      }
      fired := None;
      if original.audio.Some? {
        if msg.assetKey.Some? && msg.assetKey.value != "" {
          fired := Some(OnAudio(AudioMessage(header, msg.Fields(), original.audio.value.durationInMillis)));
        }
        return fired, true;
      }
      if original.video.Some? {
        var video := original.video.value;
        if msg.assetKey.Some? && msg.assetKey.value != "" {
          fired := Some(OnVideo(VideoMessage(header, msg.Fields(), video.durationInMillis, video.height, video.width)));
        }
        return fired, true;
      }
      // otherwise it is a generic file attachment
      if msg.assetKey.Some? && msg.assetKey.value != "" {
        fired := Some(OnAttachment(AttachmentMessage(header, msg.Fields())));
      }
      return fired, true;
    }
  }
}
