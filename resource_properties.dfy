/** What the event router promises, stated over `HandleTrace` and its parts
    (and therefore over every run of `MessageResourceBase.HandleMessage`). */
module ResourceProperties {
  import opened Wrappers
  import opened Messages
  import Server
  import opened Resources

  /** A new message that decrypts and decodes: the decryption comes first, the
      envelope is reported to `onEvent` next, unconditionally; after it come at
      most the one callback the classifier fired and, exactly when the
      classifier says it is owed, a receipt for the envelope's id, last.
      Handling completes. */
  lemma MessageAddSequence(from: UserId, sender: string, cipher: string, userIds: set<UserId>,
                           connection: Connection, client: WireClient,
                           parseFrom: Bytes -> Option<GenericMessage>)
    requires client.decrypted.Some? && parseFrom(client.decrypted.value).Some?
    ensures
      var g := parseFrom(client.decrypted.value).value;
      var c := Server.Classify(from, g, client.conversationId, client.deviceId);
      var t := HandleTrace(OtrMessageAdd, from, sender, cipher, userIds, connection, client, parseFrom);
      && t.outcome == Completed
      && |t.effects| == 2 + (if c.fired.Some? then 1 else 0) + (if c.processed then 1 else 0)
      && t.effects[0] == Decrypt(from, sender, cipher)
      && t.effects[1] == OnEvent(from, g)
      && (c.fired.Some? ==> |t.effects| >= 3 && t.effects[2] == Fired(c.fired.value))
      && (c.processed <==> SendDelivery(g.messageId) in t.effects)
      && (c.processed ==> t.effects[|t.effects| - 1] == SendDelivery(g.messageId))
      && (forall i :: 2 <= i < |t.effects| ==>
            (t.effects[i].Fired? && c.fired == Some(t.effects[i].callback)) || t.effects[i] == SendDelivery(g.messageId))
  {
  }

  /** A decryption or decoding failure ends handling right after the
      decryption call: no `onEvent`, no classification, no receipt. */
  lemma DecryptOrParseFailureStopsFirst(from: UserId, sender: string, cipher: string, userIds: set<UserId>,
                                        connection: Connection, client: WireClient,
                                        parseFrom: Bytes -> Option<GenericMessage>)
    requires client.decrypted.None? || parseFrom(client.decrypted.value).None?
    ensures HandleTrace(OtrMessageAdd, from, sender, cipher, userIds, connection, client, parseFrom) ==
      Trace([Decrypt(from, sender, cipher)], Thrown(if client.decrypted.None? then DecryptionError else MalformedEnvelope))
  {
  }

  /** Whether the delivery receipt fails changes neither the calls made nor
      how handling ends, for every kind of event. This holds by construction,
      since `HandleTrace` never reads `deliveryFails`; that the failure is
      caught is proved by `SendDeliveryReceipt`'s contract, which
      `HandleOtrMessageAdd` relies on. */
  lemma DeliveryFailureSwallowed(eventType: string, from: UserId, sender: string, cipher: string, userIds: set<UserId>,
                                 connection: Connection, client: WireClient,
                                 parseFrom: Bytes -> Option<GenericMessage>, fails: bool)
    ensures HandleTrace(eventType, from, sender, cipher, userIds, connection, client.(deliveryFails := fails), parseFrom) ==
            HandleTrace(eventType, from, sender, cipher, userIds, connection, client, parseFrom)
  {
  }

  /** `8 * size()` is eight prekeys per remaining member until the product
      leaves the `int` range. */
  lemma RequiredPrekeysPerMember(n: nat)
    requires n < 0x1000_0000
    ensures RequiredPrekeys(n) == 8 * n
  {
  }

  /** For every member count, the required count is `8 * size()` reduced to
      its low 32 bits and read as a signed `int`. */
  lemma RequiredIsWrappedProduct(n: nat)
    ensures
      var p := (8 * JavaSize(n)) % 0x1_0000_0000;
      RequiredPrekeys(n) == if p < 0x8000_0000 then p else p - 0x1_0000_0000
  {
  }

  /** Past 2^28 - 1 members the product wraps: it is negative at 2^28 members
      and zero at 2^29, so no prekeys are fetched and no join is announced. */
  lemma RequiredPrekeysWraps()
    ensures RequiredPrekeys(0x1000_0000) == -0x8000_0000
    ensures RequiredPrekeys(0x2000_0000) == 0
  {
  }

  /** For every id, the first generated id is `max + 1` reduced to the
      signed 32-bit range, as Java `int` addition gives. */
  lemma NextPrekeyIdIsWrappedSuccessor(last: Int32)
    ensures NextPrekeyId(last) == (last + 1 + 0x8000_0000) % 0x1_0000_0000 - 0x8000_0000
  {
  }

  /** Removing the sentinel takes away one copy of id 65535, if there is one,
      and keeps every copy of every other id. */
  lemma SentinelRemoved(available: seq<Int32>)
    ensures
      var remaining := Remove(available, LastPrekeyId);
      && multiset(remaining)[LastPrekeyId] == (if LastPrekeyId in available then multiset(available)[LastPrekeyId] - 1 else 0)
      && (forall id: Int32 :: id != LastPrekeyId ==> multiset(remaining)[id] == multiset(available)[id])
  {
    RemoveTakesOneCopy(available, LastPrekeyId);
  }

  /** No id is left once the sentinel is removed exactly when the client
      reported no id or the sentinel alone. */
  lemma {:induction false} NothingLeftIffOnlySentinel(available: seq<Int32>)
    ensures Remove(available, LastPrekeyId) == [] <==> available == [] || available == [LastPrekeyId]
  {
    if available != [] && available[0] != LastPrekeyId {
      assert Remove(available, LastPrekeyId)[0] == available[0];
    }
  }

  /** Fewer remaining ids than required, and some left: exactly `required`
      keys are generated, starting right after the largest remaining id, and
      then uploaded; unless that id is the largest `int`, every new id lies
      above every remaining one. */
  lemma TopUpWhenShort(available: seq<Int32>, required: Int32)
    requires JavaSize(|Remove(available, LastPrekeyId)|) < required
    requires Remove(available, LastPrekeyId) != []
    ensures
      var remaining := Remove(available, LastPrekeyId);
      var last := Max(remaining).value;
      && TopUp(available, required) ==
           Trace([NewPreKeys(NextPrekeyId(last), required), UploadPreKeys(NextPrekeyId(last), required)], Completed)
      && (last < 0x7fff_ffff ==> forall id :: id in remaining ==> id < NextPrekeyId(last))
  {
  }

  /** Enough remaining ids: nothing is generated or uploaded. */
  lemma NoTopUpWhenEnough(available: seq<Int32>, required: Int32)
    requires JavaSize(|Remove(available, LastPrekeyId)|) >= required
    ensures TopUp(available, required) == Trace([], Completed)
  {
  }

  /** Fewer ids than required and none left but the sentinel: taking the
      maximum of an empty list throws. */
  lemma EmptyInventoryThrows(available: seq<Int32>, required: Int32)
    requires required > 0
    requires available == [] || available == [LastPrekeyId]
    ensures TopUp(available, required) == Trace([], Thrown(NoSuchElement))
  {
    NothingLeftIffOnlySentinel(available);
  }

  /** The calls made for the other members are prekey calls and at most
      their announcement, never `onNewConversation`. */
  lemma AnnounceJoinCalls(rest: set<UserId>, client: WireClient)
    ensures forall e :: e in AnnounceJoin(rest, client).effects ==>
      e == GetAvailablePrekeys || e.NewPreKeys? || e.UploadPreKeys? || e == OnMemberJoin(rest)
  {
    var required := RequiredPrekeys(|rest|);
    if required > 0 {
      var topUp := TopUp(client.availablePrekeys, required);
      assert forall e :: e in topUp.effects ==> e.NewPreKeys? || e.UploadPreKeys?;
    }
  }

  /** A member join names the bot exactly when `onNewConversation` is
      called, and then it is the first call. */
  lemma BotJoinStartsConversation(userIds: set<UserId>, client: WireClient)
    ensures
      var t := MemberJoinTrace(userIds, client);
      && (OnNewConversation in t.effects <==> client.id in userIds)
      && (client.id in userIds ==> t.effects[0] == OnNewConversation)
  {
    var announce := AnnounceJoin(userIds - {client.id}, client);
    AnnounceJoinCalls(userIds - {client.id}, client);
    assert OnNewConversation !in announce.effects;
  }

  /** A member join naming nobody but the bot asks for no prekeys and
      announces nobody. */
  lemma JoinOfBotAloneAnnouncesNobody(userIds: set<UserId>, client: WireClient)
    requires userIds <= {client.id}
    ensures MemberJoinTrace(userIds, client) == Trace(BotJoined(userIds, client.id), Completed)
  {
    assert userIds - {client.id} == {};
  }

  /** Others to announce (fewer than 2^28): the prekeys are queried first,
      and the others are announced, last, exactly when the top-up did not
      throw. */
  lemma AnnounceJoinOfOthers(rest: set<UserId>, client: WireClient)
    requires 0 < |rest| < 0x1000_0000
    ensures
      var a := AnnounceJoin(rest, client);
      && a.effects != [] && a.effects[0] == GetAvailablePrekeys
      && (a.outcome == Completed <==> OnMemberJoin(rest) in a.effects)
      && (a.outcome == Completed ==> a.effects[|a.effects| - 1] == OnMemberJoin(rest))
      && (a.outcome.Thrown? ==> a.outcome.error == NoSuchElement)
  {
    RequiredPrekeysPerMember(|rest|);
    var topUp := TopUp(client.availablePrekeys, RequiredPrekeys(|rest|));
    assert OnMemberJoin(rest) !in topUp.effects;
  }

  /** A member join naming others (fewer than 2^28): the prekeys are queried,
      and `onMemberJoin` is called last, with the other members, exactly when
      the top-up did not throw. Any `onMemberJoin` call names a non-empty set
      without the bot. */
  lemma JoinOfOthersAnnouncesThem(userIds: set<UserId>, client: WireClient)
    requires userIds - {client.id} != {} && |userIds - {client.id}| < 0x1000_0000
    ensures
      var rest := userIds - {client.id};
      var t := MemberJoinTrace(userIds, client);
      && GetAvailablePrekeys in t.effects
      && (t.outcome == Completed <==> OnMemberJoin(rest) in t.effects)
      && (t.outcome == Completed ==> t.effects[|t.effects| - 1] == OnMemberJoin(rest))
      && (forall e :: e in t.effects && e.OnMemberJoin? ==> e.userIds == rest && client.id !in e.userIds && e.userIds != {})
  {
    var rest := userIds - {client.id};
    var joined := BotJoined(userIds, client.id);
    var announce := AnnounceJoin(rest, client);
    assert |rest| > 0;
    AnnounceJoinOfOthers(rest, client);
    AnnounceJoinCalls(rest, client);
    assert MemberJoinTrace(userIds, client) == Trace(joined + announce.effects, announce.outcome);
    assert forall e :: e in joined ==> e == OnNewConversation;
    assert GetAvailablePrekeys in announce.effects;
  }

  /** A member leave naming the bot runs the three cleanup steps first and in
      order; one not naming it runs none of them. `onMemberLeave` is called
      exactly when others left, with those others, never the bot. */
  lemma MemberLeaveCleanupAndAnnounce(userIds: set<UserId>, client: WireClient)
    ensures
      var rest := userIds - {client.id};
      var t := MemberLeaveTrace(userIds, client);
      && t.outcome == Completed
      && (client.id in userIds ==> |t.effects| >= 3 && t.effects[..3] == Cleanup(client.id))
      && (client.id !in userIds ==> forall e :: e in t.effects ==> !e.RemoveClient? && !e.OnBotRemoved? && !e.PurgeBot?)
      && (OnMemberLeave(rest) in t.effects <==> rest != {})
      && (forall e :: e in t.effects && e.OnMemberLeave? ==> e.userIds == rest && client.id !in e.userIds && e.userIds != {})
  {
  }

  /** Deleting the conversation runs the three cleanup steps, in order,
      whatever the payload says. */
  lemma ConversationDeleteCleansUp(from: UserId, sender: string, cipher: string, userIds: set<UserId>,
                                   connection: Connection, client: WireClient,
                                   parseFrom: Bytes -> Option<GenericMessage>)
    ensures HandleTrace(ConversationDelete, from, sender, cipher, userIds, connection, client, parseFrom) ==
            Trace([RemoveClient(client.id), OnBotRemoved(client.id), PurgeBot(client.id)], Completed)
  {
  }

  /** A connection request is accepted exactly when its status is "pending". */
  lemma ConnectionAcceptedOnlyWhenPending(from: UserId, sender: string, cipher: string, userIds: set<UserId>,
                                          connection: Connection, client: WireClient,
                                          parseFrom: Bytes -> Option<GenericMessage>)
    ensures
      var t := HandleTrace(UserConnection, from, sender, cipher, userIds, connection, client, parseFrom);
      && t.outcome == Completed
      && (AcceptConnection(connection.to) in t.effects <==> connection.status == Pending)
      && |t.effects| <= 1
  {
  }

  /** A created conversation is reported to `onNewConversation` and nothing else happens. */
  lemma ConversationCreateStartsConversation(from: UserId, sender: string, cipher: string, userIds: set<UserId>,
                                             connection: Connection, client: WireClient,
                                             parseFrom: Bytes -> Option<GenericMessage>)
    ensures HandleTrace(ConversationCreate, from, sender, cipher, userIds, connection, client, parseFrom) ==
            Trace([OnNewConversation], Completed)
  {
  }

  /** Two ordinary prekeys besides the sentinel and sixteen required: sixteen
      keys from id 3 are generated and uploaded. */
  lemma TopUpExample()
    ensures TopUp([1, 2, 65535], 16) == Trace([NewPreKeys(3, 16), UploadPreKeys(3, 16)], Completed)
  {
    assert Remove([1, 2, 65535], LastPrekeyId) == [1, 2];
    assert Max([1, 2]) == Some(2);
  }

  /** Flattens short literal call lists for `MemberJoinExample`. */
  lemma ConcatCalls(a: Effect, b: Effect, c: Effect, d: Effect)
    ensures [a] + [b, c] + [d] == [a, b, c, d]
    ensures [a] + [b, c, d] == [a, b, c, d]
  {
  }

  /** A member join with the bot and two others, and two ordinary prekeys
      besides the sentinel: sixteen keys from id 3 are generated and uploaded
      before the two others are announced. */
  lemma MemberJoinExample()
    ensures
      var client := WireClient("bot", "conv", "device", None, [1, 2, 65535], false);
      MemberJoinTrace({"bot", "ann", "joe"}, client) ==
        Trace([OnNewConversation, GetAvailablePrekeys, NewPreKeys(3, 16), UploadPreKeys(3, 16), OnMemberJoin({"ann", "joe"})], Completed)
  {
    var client := WireClient("bot", "conv", "device", None, [1, 2, 65535], false);
    var rest: set<UserId> := {"bot", "ann", "joe"} - {"bot"};
    assert rest == {"ann", "joe"};
    assert |rest| == 2;
    assert RequiredPrekeys(|rest|) == 16;
    TopUpExample();
    var announce := AnnounceJoin(rest, client);
    var calls := [GetAvailablePrekeys, NewPreKeys(3, 16), UploadPreKeys(3, 16), OnMemberJoin(rest)];
    assert announce.effects == [GetAvailablePrekeys] + [NewPreKeys(3, 16), UploadPreKeys(3, 16)] + [OnMemberJoin(rest)];
    ConcatCalls(GetAvailablePrekeys, NewPreKeys(3, 16), UploadPreKeys(3, 16), OnMemberJoin(rest));
    assert BotJoined({"bot", "ann", "joe"}, "bot") == [OnNewConversation];
    ConcatCalls(OnNewConversation, GetAvailablePrekeys, NewPreKeys(3, 16), UploadPreKeys(3, 16));
    assert [OnNewConversation] + calls == [OnNewConversation, GetAvailablePrekeys, NewPreKeys(3, 16), UploadPreKeys(3, 16)] + [OnMemberJoin(rest)];
  }

  /** A member leave naming only the bot: cleanup, and no `onMemberLeave`. */
  lemma BotOnlyLeaveExample()
    ensures
      var client := WireClient("bot", "conv", "device", None, [], false);
      MemberLeaveTrace({"bot"}, client) == Trace([RemoveClient("bot"), OnBotRemoved("bot"), PurgeBot("bot")], Completed)
  {
    assert {"bot"} - {"bot"} == {};
  }

  /** An event of an unknown kind makes no call and raises nothing. */
  lemma UnknownEventExample(from: UserId, sender: string, cipher: string, userIds: set<UserId>,
                            connection: Connection, client: WireClient,
                            parseFrom: Bytes -> Option<GenericMessage>)
    ensures HandleTrace("call.state", from, sender, cipher, userIds, connection, client, parseFrom) == Trace([], Completed)
  {
  }

  /** Only the sentinel left and one other member joining: the top-up throws
      before anyone is announced. */
  lemma SentinelOnlyJoinExample()
    ensures
      var client := WireClient("bot", "conv", "device", None, [65535], false);
      MemberJoinTrace({"ann"}, client) == Trace([GetAvailablePrekeys], Thrown(NoSuchElement))
  {
    assert {"ann"} - {"bot"} == {"ann"};
  }
}
