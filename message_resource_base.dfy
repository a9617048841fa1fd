/** The event router (`MessageResourceBase.handleMessage`): interprets one
    inbound backend event and makes an ordered sequence of calls on the bot's
    client, its handler and the client repository.

    Those calls are recorded as `Effect`s appended to `log`. What the client
    answers (the bot id, the decrypted bytes or a decryption failure, the
    available prekey ids, whether a delivery receipt fails) is an input, and so
    is the envelope codec. `HandleTrace` is the specification: the calls one
    event produces and how the call ends. */
module Resources {
  import opened Wrappers
  import opened Messages
  import Server

  type UserId = string

  /** A Java `int`. */
  type Int32 = x: int | -0x8000_0000 <= x < 0x8000_0000

  /** The id of the last-resort prekey, which is never counted as inventory. */
  const LastPrekeyId: Int32 := 65535

  const OtrMessageAdd: string := "conversation.otr-message-add"
  const MemberJoin: string := "conversation.member-join"
  const MemberLeave: string := "conversation.member-leave"
  const ConversationDelete: string := "conversation.delete"
  const UserConnection: string := "user.connection"
  const ConversationCreate: string := "conversation.create"
  const Pending: string := "pending"

  /** `Collection.size()`: the element count, which saturates at the largest `int`. */
  function JavaSize(n: nat): (r: Int32)
    ensures 0 <= r <= n
    ensures r == n || r == 0x7fff_ffff
  {
    if n < 0x8000_0000 then n else 0x7fff_ffff
  }

  /** `indexOf`: the position of the first occurrence of `x` in `s`. */
  function IndexOf(s: seq<Int32>, x: Int32): (i: nat)
    requires x in s
    ensures i < |s| && s[i] == x && x !in s[..i]
  {
    if s[0] == x then 0
    else
      var j := IndexOf(s[1..], x);
      assert s[..j + 1] == [s[0]] + s[1..][..j];
      j + 1
  }

  /** `ArrayList.remove(Object)`: drops the first occurrence of `x`, if there
      is one, and keeps the rest in order. */
  function Remove(s: seq<Int32>, x: Int32): (r: seq<Int32>)
    ensures x !in s ==> r == s
    ensures |r| == if x in s then |s| - 1 else |s|
  {
    if s == [] then []
    else if s[0] == x then s[1..]
    else [s[0]] + Remove(s[1..], x)
  }

  /** `Remove` takes away one copy of `x`, if there is one, and no other element. */
  lemma {:induction false} RemoveTakesOneCopy(s: seq<Int32>, x: Int32)
    ensures multiset(Remove(s, x)) == multiset(s) - multiset{x}
  {
    if s != [] {
      assert s == [s[0]] + s[1..];
      if s[0] != x {
        RemoveTakesOneCopy(s[1..], x);
      }
    }
  }

  /** `Remove` is the splice at the first occurrence that `ArrayList` performs:
      everything before and after the index of `x` stays, in order. */
  lemma {:induction false} RemoveSplicesAtIndexOf(s: seq<Int32>, x: Int32)
    requires x in s
    ensures Remove(s, x) == s[..IndexOf(s, x)] + s[IndexOf(s, x) + 1..]
  {
    if s[0] != x {
      RemoveSplicesAtIndexOf(s[1..], x);
      var j := IndexOf(s[1..], x);
      assert s[..j + 1] == [s[0]] + s[1..][..j];
      assert s[j + 2..] == s[1..][j + 1..];
    }
  }

  /** `Collections.max`: the largest element, or `None` where Java throws
      `NoSuchElementException` because the list is empty. */
  function Max(s: seq<Int32>): (r: Option<Int32>)
    ensures r.None? <==> s == []
    ensures r.Some? ==> r.value in s && forall x :: x in s ==> x <= r.value
  {
    if s == [] then None
    else
      var rest := Max(s[1..]);
      assert forall x :: x in s ==> x == s[0] || x in s[1..];
      if rest.Some? && rest.value > s[0] then rest else Some(s[0])
  }

  /** One call on the client, the handler or the repository. */
  datatype Effect =
    | Decrypt(userId: UserId, clientId: string, cipher: string)   // client.decrypt
    | OnEvent(userId: UserId, generic: GenericMessage)            // handler.onEvent
    | Fired(callback: Server.Callback)                            // the handler callback the classifier fired
    | SendDelivery(messageId: string)                             // client.sendDelivery, attempted
    | OnNewConversation                                           // handler.onNewConversation
    | GetAvailablePrekeys                                         // client.getAvailablePrekeys
    | NewPreKeys(from: Int32, count: Int32)                       // client.newPreKeys
    | UploadPreKeys(from: Int32, count: Int32)                    // client.uploadPreKeys of the keys newPreKeys(from, count) made
    | OnMemberJoin(userIds: set<UserId>)                          // handler.onMemberJoin
    | RemoveClient(botId: UserId)                                 // repo.removeClient
    | OnBotRemoved(botId: UserId)                                 // handler.onBotRemoved
    | PurgeBot(botId: UserId)                                     // repo.purgeBot
    | OnMemberLeave(userIds: set<UserId>)                         // handler.onMemberLeave
    | AcceptConnection(userId: UserId)                            // client.acceptConnection

  /** The exceptions `handleMessage` lets escape. */
  datatype Error = DecryptionError | MalformedEnvelope | NoSuchElement

  /** How a call of `handleMessage` ends. */
  datatype Outcome = Completed | Thrown(error: Error)

  /** The calls one event produces, in order, and how handling ends. */
  datatype Trace = Trace(effects: seq<Effect>, outcome: Outcome)

  /** What the bot's client answers when the router asks it. */
  datatype WireClient = WireClient(
    id: UserId,
    conversationId: string,
    deviceId: string,
    decrypted: Option<Bytes>,          // None: decrypt throws
    availablePrekeys: seq<Int32>,
    deliveryFails: bool)

  /** The connection record of a legacy connection event. */
  datatype Connection = Connection(status: string, to: UserId)

  /** The payload of an inbound event. The router removes the bot's own id from `userIds` in place. */
  class InboundData {
    var sender: string
    var text: string
    var userIds: set<UserId>

    constructor (sender: string, text: string, userIds: set<UserId>)
      ensures this.sender == sender && this.text == text && this.userIds == userIds
    {
      this.sender, this.text, this.userIds := sender, text, userIds;
    }
  }

  datatype InboundMessage = InboundMessage(eventType: string, from: UserId, data: InboundData, connection: Connection)

  /** Regroups the log so that `HandleMessage` can join the two halves `HandleMemberJoin` states. */
  lemma AppendAssociative(a: seq<Effect>, b: seq<Effect>, c: seq<Effect>)
    ensures a + b + c == a + (b + c)
  {
  }

  /** The three cleanup steps when the bot leaves a conversation, in order. */
  function Cleanup(botId: UserId): seq<Effect> {
    [RemoveClient(botId), OnBotRemoved(botId), PurgeBot(botId)]
  }

  /** The prekey count wanted for `members` other members: `8 * size()` in
      Java `int` arithmetic, that is, the low 32 bits of the product read as a
      signed number. */
  function RequiredPrekeys(members: nat): (r: Int32)
    // exact while the product fits in an `int`; a multiple of eight always
    ensures members < 0x1000_0000 ==> r == 8 * members
    ensures r % 8 == 0
  {
    var size := JavaSize(members);
    var product := size + size + size + size + size + size + size + size;  // eight per member, below 2^34
    var low :=
      if product < 0x1_0000_0000 then product
      else if product < 0x2_0000_0000 then product - 0x1_0000_0000
      else if product < 0x3_0000_0000 then product - 0x2_0000_0000
      else product - 0x3_0000_0000;
    if low < 0x8000_0000 then low else low - 0x1_0000_0000
  }

  /** The id the generated prekeys start at: `max + 1` in Java `int`
      arithmetic, which wraps past the largest `int`. */
  function NextPrekeyId(last: Int32): (r: Int32)
    // the successor of `last` modulo 2^32, above it unless `last` is the largest `int`
    ensures r - last == 1 || r - last == -0xffff_ffff
    ensures r > last <==> last < 0x7fff_ffff
  {
    if last == 0x7fff_ffff then -0x8000_0000 else last + 1
  }

  /** A new message: decrypt, decode, report the envelope, classify, and send a
      receipt when the classifier says it is owed. */
  function MessageAddTrace(from: UserId, sender: string, cipher: string, client: WireClient,
                           parseFrom: Bytes -> Option<GenericMessage>): Trace
  {
    var decrypt := Decrypt(from, sender, cipher);
    if client.decrypted.None? then Trace([decrypt], Thrown(DecryptionError))
    else
      var generic := parseFrom(client.decrypted.value);
      if generic.None? then Trace([decrypt], Thrown(MalformedEnvelope))
      else
        var g := generic.value;
        var c := Server.Classify(from, g, client.conversationId, client.deviceId);
        Trace([decrypt, OnEvent(from, g)]
              + (if c.fired.Some? then [Fired(c.fired.value)] else [])
              + (if c.processed then [SendDelivery(g.messageId)] else []),
              Completed)
  }

  /** The prekey top-up once the available ids are known: generate and upload
      `required` keys past the largest non-sentinel id when fewer remain. */
  function TopUp(available: seq<Int32>, required: Int32): (t: Trace)
    // the only exception is the one `Collections.max` throws, and it comes before any key is made
    ensures t.outcome == Completed || t.outcome == Thrown(NoSuchElement)
    ensures t.outcome.Thrown? <==> JavaSize(|Remove(available, LastPrekeyId)|) < required && Remove(available, LastPrekeyId) == []
    ensures t.outcome.Thrown? ==> t.effects == []
    // keys are generated and uploaded exactly when too few remain
    ensures |t.effects| == (if t.outcome == Completed && JavaSize(|Remove(available, LastPrekeyId)|) < required then 2 else 0)
    ensures |t.effects| == 2 ==> t.effects[0].NewPreKeys? && t.effects[1].UploadPreKeys?
  {
    var remaining := Remove(available, LastPrekeyId);
    if JavaSize(|remaining|) < required then
      match Max(remaining)
      case None => Trace([], Thrown(NoSuchElement))
      case Some(last) =>
        Trace([NewPreKeys(NextPrekeyId(last), required), UploadPreKeys(NextPrekeyId(last), required)], Completed)
    else
      Trace([], Completed)
  }

  /** Users joined: the bot's own arrival starts a conversation; the other
      members are announced after topping up the prekeys they will need. */
  function MemberJoinTrace(userIds: set<UserId>, client: WireClient): Trace {
    var announce := AnnounceJoin(userIds - {client.id}, client);
    Trace(BotJoined(userIds, client.id) + announce.effects, announce.outcome)
  }

  /** The call a member join makes when it names the bot itself. */
  function BotJoined(userIds: set<UserId>, botId: UserId): seq<Effect> {
    if botId in userIds then [OnNewConversation] else []
  }

  /** The part of a member join that concerns the members other than the bot. */
  function AnnounceJoin(rest: set<UserId>, client: WireClient): Trace {
    var required := RequiredPrekeys(|rest|);
    if required > 0 then
      var topUp := TopUp(client.availablePrekeys, required);
      Trace([GetAvailablePrekeys] + topUp.effects + (if topUp.outcome.Thrown? then [] else [OnMemberJoin(rest)]),
            topUp.outcome)
    else
      Trace([], Completed)
  }

  /** Users left: the bot's own removal runs the cleanup; other members are announced. */
  function MemberLeaveTrace(userIds: set<UserId>, client: WireClient): Trace {
    var botId := client.id;
    var rest := userIds - {botId};
    Trace((if botId in userIds then Cleanup(botId) else [])
          + (if rest != {} then [OnMemberLeave(rest)] else []),
          Completed)
  }

  /** The calls `handleMessage` makes for an event of kind `eventType` and how it ends. */
  function HandleTrace(eventType: string, from: UserId, sender: string, cipher: string, userIds: set<UserId>,
                       connection: Connection, client: WireClient,
                       parseFrom: Bytes -> Option<GenericMessage>): (t: Trace)
    // only the message path and the member-join top-up can throw
    ensures t.outcome.Thrown? ==> eventType == OtrMessageAdd || eventType == MemberJoin
    ensures t.outcome == Thrown(NoSuchElement) ==> eventType == MemberJoin
    // an event of any kind this router does not know makes no call at all
    ensures eventType !in {OtrMessageAdd, MemberJoin, MemberLeave, ConversationDelete, UserConnection, ConversationCreate} ==>
      t == Trace([], Completed)
  {
    if eventType == OtrMessageAdd then MessageAddTrace(from, sender, cipher, client, parseFrom)
    else if eventType == MemberJoin then MemberJoinTrace(userIds, client)
    else if eventType == MemberLeave then MemberLeaveTrace(userIds, client)
    else if eventType == ConversationDelete then Trace(Cleanup(client.id), Completed)
    else if eventType == UserConnection then
      Trace(if connection.status == Pending then [AcceptConnection(connection.to)] else [], Completed)
    else if eventType == ConversationCreate then Trace([OnNewConversation], Completed)
    else Trace([], Completed)
  }

  /** The router, with the calls it has made so far. */
  class MessageResourceBase {
    /** Every call made on the client, the handler and the repository, in order. */
    var log: seq<Effect>

    constructor ()
      ensures log == []
    {
      log := [];
    }

    /** Handles one inbound event: appends its calls to `log`, removes the
        bot's id from a membership payload, and reports how handling ended. */
    method HandleMessage(inbound: InboundMessage, client: WireClient, parseFrom: Bytes -> Option<GenericMessage>)
      returns (outcome: Outcome)
      modifies this`log, inbound.data`userIds
      ensures
        var t := HandleTrace(inbound.eventType, inbound.from, inbound.data.sender, inbound.data.text,
                             old(inbound.data.userIds), inbound.connection, client, parseFrom);
        log == old(log) + t.effects && outcome == t.outcome
      ensures inbound.data.userIds ==
        if inbound.eventType == MemberJoin || inbound.eventType == MemberLeave then old(inbound.data.userIds) - {client.id}
        else old(inbound.data.userIds)
    {
      if inbound.eventType == OtrMessageAdd {
        outcome := HandleOtrMessageAdd(inbound.from, inbound.data, client, parseFrom);
      } else if inbound.eventType == MemberJoin {
        ghost var before := inbound.data.userIds;
        outcome := HandleMemberJoin(inbound.data, client);
        AppendAssociative(old(log), BotJoined(before, client.id), AnnounceJoin(inbound.data.userIds, client).effects);
      } else if inbound.eventType == MemberLeave {
        HandleMemberLeave(inbound.data, client);
        outcome := Completed;
      } else if inbound.eventType == ConversationDelete {
        var botId := client.id;
        log := log + [RemoveClient(botId)];
        log := log + [OnBotRemoved(botId)];
        log := log + [PurgeBot(botId)];
        outcome := Completed;
      } else if inbound.eventType == UserConnection {
        if inbound.connection.status == Pending {
          log := log + [AcceptConnection(inbound.connection.to)];
        }
        outcome := Completed;
      } else if inbound.eventType == ConversationCreate {
        log := log + [OnNewConversation];
        outcome := Completed;
      } else {
        // an unknown event kind is only logged as a warning
        outcome := Completed;
      }
    }

    /** The `conversation.otr-message-add` case. */
    method HandleOtrMessageAdd(from: UserId, data: InboundData, client: WireClient,
                               parseFrom: Bytes -> Option<GenericMessage>) returns (outcome: Outcome)
      modifies this`log
      ensures
        var t := MessageAddTrace(from, data.sender, data.text, client, parseFrom);
        log == old(log) + t.effects && outcome == t.outcome
    {
      var processor := new Server.GenericMessageProcessor(client.conversationId, client.deviceId);
      log := log + [Decrypt(from, data.sender, data.text)];
      if client.decrypted.None? {
        return Thrown(DecryptionError);
      }
      var genericMessage := parseFrom(client.decrypted.value);
      if genericMessage.None? {
        return Thrown(MalformedEnvelope);
      }
      var generic := genericMessage.value;
      log := log + [OnEvent(from, generic)];
      var fired, processed := processor.Process(from, generic);
      if fired.Some? {
        log := log + [Fired(fired.value)];
      }
      if processed {
        SendDeliveryReceipt(client, generic.messageId);
      }
      return Completed;
    }

    /** The `conversation.member-join` case: the bot's own arrival, then the
        other members (together, `MemberJoinTrace`). */
    method HandleMemberJoin(data: InboundData, client: WireClient) returns (outcome: Outcome)
      modifies this`log, data`userIds
      ensures data.userIds == old(data.userIds) - {client.id}
      ensures
        var announce := AnnounceJoin(data.userIds, client);
        && log == old(log) + BotJoined(old(data.userIds), client.id) + announce.effects
        && outcome == announce.outcome
    {
      var botId := client.id;
      var botAdded := botId in data.userIds;
      data.userIds := data.userIds - {botId};
      if botAdded {
        log := log + [OnNewConversation];
      }
      outcome := AnnounceJoinedMembers(data.userIds, client);
    }

    /** After the bot's own id is removed: tops up the prekeys for, and then
        announces, the members that remain, if any. */
    method AnnounceJoinedMembers(rest: set<UserId>, client: WireClient) returns (outcome: Outcome)
      modifies this`log
      ensures
        var t := AnnounceJoin(rest, client);
        log == old(log) + t.effects && outcome == t.outcome
    {
      var minAvailable := RequiredPrekeys(|rest|);
      if minAvailable > 0 {
        log := log + [GetAvailablePrekeys];
        outcome := TopUpPrekeys(client, minAvailable);
        if outcome.Thrown? {
          return;
        }
        log := log + [OnMemberJoin(rest)];
      }
      return Completed;
    }

    /** Tops up the prekeys when fewer than `minAvailable` non-sentinel ones remain. */
    method TopUpPrekeys(client: WireClient, minAvailable: Int32) returns (outcome: Outcome)
      modifies this`log
      ensures
        var t := TopUp(client.availablePrekeys, minAvailable);
        log == old(log) + t.effects && outcome == t.outcome
    {
      var availablePrekeys := client.availablePrekeys;
      availablePrekeys := Remove(availablePrekeys, LastPrekeyId);
      if JavaSize(|availablePrekeys|) < minAvailable {
        var lastKeyOffset := Max(availablePrekeys);
        if lastKeyOffset.None? {
          return Thrown(NoSuchElement);
        }
        var from := NextPrekeyId(lastKeyOffset.value);
        log := log + [NewPreKeys(from, minAvailable), UploadPreKeys(from, minAvailable)];
      }
      return Completed;
    }

    /** The `conversation.member-leave` case; it never throws. */
    method HandleMemberLeave(data: InboundData, client: WireClient)
      modifies this`log, data`userIds
      ensures log == old(log) + MemberLeaveTrace(old(data.userIds), client).effects
      ensures data.userIds == old(data.userIds) - {client.id}
    {
      var botId := client.id;
      var botRemoved := botId in data.userIds;
      data.userIds := data.userIds - {botId};
      if botRemoved {
        log := log + [RemoveClient(botId)];
        log := log + [OnBotRemoved(botId)];
        log := log + [PurgeBot(botId)];
      }
      if data.userIds != {} {
        log := log + [OnMemberLeave(data.userIds)];
      }
    }

    /** `client.sendDelivery`: records the attempt and reports whether it threw. */
    method SendDelivery(client: WireClient, messageId: string) returns (threw: bool)
      modifies this`log
      ensures log == old(log) + [Effect.SendDelivery(messageId)]
      ensures threw == client.deliveryFails
    {
      log := log + [Effect.SendDelivery(messageId)];
      threw := client.deliveryFails;
    }

    /** Sends a delivery receipt; a failure is caught (and logged) and never
        reaches the caller, which is why this method reports nothing. */
    method SendDeliveryReceipt(client: WireClient, messageId: string)
      modifies this`log
      ensures log == old(log) + [Effect.SendDelivery(messageId)]
    {
      var threw := SendDelivery(client, messageId);
      if threw {
        // caught: the warning is logged and handling carries on
      }
    }
  }
}
