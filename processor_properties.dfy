/** What the classifier's decision tree promises, stated over `Classify` (and
    therefore over every run of `GenericMessageProcessor.Process`). */
module ProcessorProperties {
  import opened Wrappers
  import opened Messages
  import opened Models
  import opened Server

  /** An edit carrying text beats every other variant: it fires `onEditText`
      with the replacing message id and the edit's content, owes a receipt, and
      nothing else in the envelope (not even its own message id) matters. */
  lemma EditWins(userId: string, g: GenericMessage, h: GenericMessage, convId: string, deviceId: string)
    requires HasEditText(g) && h.edited == g.edited
    ensures
      var edited := g.edited.value;
      Classify(userId, g, convId, deviceId) ==
        Classification(Some(OnEditText(TextMessage(MessageHeader(edited.replacingMessageId, convId, deviceId, userId),
                                                   edited.text.value.content.GetOr("")))), true)
    ensures Classify(userId, h, convId, deviceId) == Classify(userId, g, convId, deviceId)
  {
  }

  /** An ephemeral wrapper's text hides the top-level text entirely. */
  lemma EphemeralTextOverrides(userId: string, g: GenericMessage, t: Option<Text>, convId: string, deviceId: string)
    requires g.ephemeral.Some? && g.ephemeral.value.text.Some?
    ensures Classify(userId, g.(text := t), convId, deviceId) == Classify(userId, g, convId, deviceId)
  {
  }

  /** An ephemeral wrapper's asset hides the top-level asset entirely. */
  lemma EphemeralAssetOverrides(userId: string, g: GenericMessage, a: Option<Asset>, convId: string, deviceId: string)
    requires g.ephemeral.Some? && g.ephemeral.value.asset.Some?
    ensures Classify(userId, g.(asset := a), convId, deviceId) == Classify(userId, g, convId, deviceId)
  {
  }

  /** `onText` fires exactly when there is no edit with text and the effective
      text has content and no link preview; it then carries that content and
      owes a receipt, ahead of any operational transform or asset. */
  lemma PlainTextDispatch(userId: string, g: GenericMessage, convId: string, deviceId: string)
    ensures
      var c := Classify(userId, g, convId, deviceId);
      c.fired.Some? && c.fired.value.OnText? <==> !HasEditText(g) && IsPlainText(EffectiveText(g))
    ensures !HasEditText(g) && IsPlainText(EffectiveText(g)) ==>
      Classify(userId, g, convId, deviceId) ==
        Classification(Some(OnText(TextMessage(MessageHeader(g.messageId, convId, deviceId, userId),
                                               EffectiveText(g).value.content.value))), true)
  {
  }

  /** An operational transform that is not preceded by an edit or a plain text
      fires `onOT` with the operation at the same position, the offset, and the
      optional text and length as present on the wire, and owes no receipt. */
  lemma OperationalTransformOwesNoReceipt(userId: string, g: GenericMessage, convId: string, deviceId: string)
    requires !HasEditText(g) && !IsPlainText(EffectiveText(g)) && g.ot.Some?
    ensures
      var ot := g.ot.value;
      Classify(userId, g, convId, deviceId) ==
        Classification(Some(OnOT(OTMessage(MessageHeader(g.messageId, convId, deviceId, userId),
                                           OperationOf(ot.otType), ot.offset, ot.text, ot.length))), false)
  {
  }

  /** A wire operation maps to the domain operation at the same position of
      the domain enumeration. Both enumerations are declared here with insert
      and delete, in that order; that their real declarations agree is an
      assumption of this model. */
  lemma OperationMapsByPosition()
    ensures forall i :: 0 <= i < |OtTypes| ==> OperationOf(OtTypes[i]) == Operations[i]
  {
  }

  /** `initAsset` always copies mime type, size and name; the asset key, token,
      encryption key and digest are set only when upload data is present. */
  lemma InitAssetFields(asset: Asset, original: Original)
    ensures
      var f := AssetFieldsOf(asset, original);
      && f.mimeType == original.mimeType && f.size == original.size && f.name == original.name
      && (f.assetKey.Some? <==> asset.uploaded.Some?)
      && (f.otrKey.Some? <==> asset.uploaded.Some?)
      && (f.sha256.Some? <==> asset.uploaded.Some?)
      && (f.assetToken.Some? <==> asset.uploaded.Some? && asset.uploaded.value.assetToken.Some?)
    ensures asset.uploaded.Some? ==>
      var up := asset.uploaded.value;
      var f := AssetFieldsOf(asset, original);
      f.assetKey == Some(up.assetId) && f.assetToken == up.assetToken && f.otrKey == Some(up.otrKey) && f.sha256 == Some(up.sha256)
  {
  }

  /** An asset with original image metadata fires `onImage`, whether or not
      it has been uploaded, and owes a receipt. */
  lemma ImageAlwaysDispatched(userId: string, g: GenericMessage, convId: string, deviceId: string)
    requires !HasEditText(g) && !IsPlainText(EffectiveText(g)) && g.ot.None?
    requires HasOriginal(EffectiveAsset(g)) && EffectiveAsset(g).value.original.value.image.Some?
    ensures
      var asset := EffectiveAsset(g).value;
      var original := asset.original.value;
      var image := original.image.value;
      Classify(userId, g, convId, deviceId) ==
        Classification(Some(OnImage(ImageMessage(MessageHeader(g.messageId, convId, deviceId, userId),
                                                 AssetFieldsOf(asset, original), image.height, image.width, image.tag))), true)
  {
  }

  /** Audio, video and other attachments (in that order of precedence) fire
      their callback, with the header, the asset fields and the kind's own
      metadata, only when the asset key is set and not empty, and owe a
      receipt either way. */
  lemma GatedMediaDispatch(userId: string, g: GenericMessage, convId: string, deviceId: string)
    requires !HasEditText(g) && !IsPlainText(EffectiveText(g)) && g.ot.None?
    requires HasOriginal(EffectiveAsset(g)) && EffectiveAsset(g).value.original.value.image.None?
    ensures
      var asset := EffectiveAsset(g).value;
      var original := asset.original.value;
      var c := Classify(userId, g, convId, deviceId);
      && c.processed
      && (c.fired.Some? <==> HasAssetKey(AssetFieldsOf(asset, original)))
      && (c.fired.Some? ==>
            if original.audio.Some? then c.fired.value.OnAudio?
            else if original.video.Some? then c.fired.value.OnVideo?
            else c.fired.value.OnAttachment?)
    ensures
      var asset := EffectiveAsset(g).value;
      var original := asset.original.value;
      var header := MessageHeader(g.messageId, convId, deviceId, userId);
      var f := AssetFieldsOf(asset, original);
      var c := Classify(userId, g, convId, deviceId);
      var expected :=
        if original.audio.Some? then OnAudio(AudioMessage(header, f, original.audio.value.durationInMillis))
        else if original.video.Some? then
          OnVideo(VideoMessage(header, f, original.video.value.durationInMillis, original.video.value.height, original.video.value.width))
        else OnAttachment(AttachmentMessage(header, f));
      c.fired.Some? ==> c.fired.value == expected
  {
  }

  /** A receipt is owed exactly for an edit with text, a plain text, or media
      with original metadata when no operational transform comes first. */
  lemma ProcessedIff(userId: string, g: GenericMessage, convId: string, deviceId: string)
    ensures Classify(userId, g, convId, deviceId).processed <==>
      HasEditText(g) || IsPlainText(EffectiveText(g)) || (g.ot.None? && HasOriginal(EffectiveAsset(g)))
  {
  }

  /** An envelope that matches no branch (including an asset without original
      metadata) fires nothing and owes no receipt. */
  lemma NoMatchNoCallback(userId: string, g: GenericMessage, convId: string, deviceId: string)
    requires !HasEditText(g) && !IsPlainText(EffectiveText(g)) && g.ot.None? && !HasOriginal(EffectiveAsset(g))
    ensures Classify(userId, g, convId, deviceId) == Classification(None, false)
  {
  }

  /** An audio asset with metadata only: `onAudio` is not called, yet a receipt is owed. */
  lemma AudioWithoutUploadExample(userId: string, convId: string, deviceId: string)
    ensures
      var original := Original("audio/mp3", 100, None, None, Some(AudioMetaData(0)), None);
      var g := GenericMessage("m1", None, Some(Asset(Some(original), None)), None, None, None);
      Classify(userId, g, convId, deviceId) == Classification(None, true)
  {
  }

  /** An image with metadata only: `onImage` is called, with no asset key. */
  lemma ImageWithoutUploadExample(userId: string, convId: string, deviceId: string)
    ensures
      var original := Original("image/png", 100, None, Some(ImageMetaData(100, 200, None)), None, None);
      var g := GenericMessage("m1", None, Some(Asset(Some(original), None)), None, None, None);
      var c := Classify(userId, g, convId, deviceId);
      c.processed && c.fired.Some? && c.fired.value.OnImage? && c.fired.value.image.asset.assetKey.None?
  {
  }

  /** An edit and an ephemeral text in one envelope: the edit callback fires, the text one does not. */
  lemma EditBeatsEphemeralTextExample(userId: string, convId: string, deviceId: string)
    ensures
      var edit := MessageEdit("m0", Some(Text(Some("fixed"), [])));
      var eph := Ephemeral(5000, Some(Text(Some("hello"), [])), None);
      var g := GenericMessage("m1", None, None, Some(eph), Some(edit), None);
      Classify(userId, g, convId, deviceId) ==
        Classification(Some(OnEditText(TextMessage(MessageHeader("m0", convId, deviceId, userId), "fixed"))), true)
  {
  }
}
