/**
 * Payload construction for both handlers: the visible notification block and
 * the machine-readable data block. The platform delivery hints (Android
 * channel, priority and vibration; APNs sound and badge) are fixed literals
 * copied into every payload and are not part of this model.
 */
module Payloads {
  import opened Values

  /** A value of the data block: a string, a number, or `null`. */
  datatype DataValue = Text(s: string) | Number(n: int) | NullValue

  datatype Notification = Notification(title: string, body: Field, sound: string)

  datatype Payload = Payload(notification: Notification, data: map<string, DataValue>)

  const ClickAction := "FLUTTER_NOTIFICATION_CLICK"
  const DefaultSound := "default"
  const ChatMessageType := "chat_message"
  const ChatRoutePrefix := "/chat/"

  /** The keys of the chat data block. */
  const ChatDataKeys: set<string> :=
    {"type", "communityId", "messageId", "senderId", "senderName",
     "messageType", "timestamp", "navigation", "clickAction"}

  /** `messageType = 'text'`: the destructuring default replaces an absent field only. */
  function MessageTypeOf(f: Field): Field
  {
    if f.Undefined? then Str("text") else f
  }

  /** A record field as a data-block value (an absent one is written as `null`). */
  function FieldValue(f: Field): DataValue
  {
    if f.Str? then Text(f.s) else NullValue
  }

  /**
   * `timestamp?.toMillis?.() || Date.now().toString()`: the message's epoch
   * milliseconds when it has a timestamp whose value is truthy, otherwise the
   * current time as text. `millis` is the result of `toMillis()`, absent when
   * the record holds no timestamp; `now` is the clock reading.
   */
  function TimestampValue(millis: Option<int>, now: string): DataValue
  {
    if millis.Some? && millis.value != 0 then Number(millis.value) else Text(now)
  }

  /** The chat notification payload built from a validated message and its community's name. */
  function ChatPayload(communityId: string, messageId: string, senderId: string, senderName: string,
                       communityName: Field, content: Field, messageType: Field,
                       millis: Option<int>, now: string): (p: Payload)
    ensures p.data.Keys == ChatDataKeys
  {
    var kind := MessageTypeOf(messageType);
    Payload(
      Notification(senderName + " in " + Render(communityName),
                   if kind == Str("text") then content else Str("Sent a " + Render(kind)),
                   DefaultSound),
      map["type" := Text(ChatMessageType),
          "communityId" := Text(communityId),
          "messageId" := Text(messageId),
          "senderId" := Text(senderId),
          "senderName" := Text(senderName),
          "messageType" := FieldValue(kind),
          "timestamp" := TimestampValue(millis, now),
          "navigation" := Text(ChatRoutePrefix + communityId),
          "clickAction" := Text(ClickAction)])
  }

  /** The community id a client reads back from a `/chat/<id>` navigation route. */
  function RouteCommunity(route: string): Option<string>
  {
    if |ChatRoutePrefix| <= |route| && route[..|ChatRoutePrefix|] == ChatRoutePrefix
    then Some(route[|ChatRoutePrefix|..])
    else None
  }

  /**
   * The chat payload: title "<sender> in <community>", the content as body for
   * a text message (also when the type is absent), "Sent a <type>" otherwise,
   * and a data block tagged as a chat message that routes to the community's chat.
   */
  lemma ChatPayloadContents(communityId: string, messageId: string, senderId: string, senderName: string,
                            communityName: Field, content: Field, messageType: Field,
                            millis: Option<int>, now: string)
    ensures var p := ChatPayload(communityId, messageId, senderId, senderName, communityName,
                                 content, messageType, millis, now);
      && p.notification.title == senderName + " in " + Render(communityName)
      && p.notification.sound == "default"
      && ((messageType.Undefined? || messageType == Str("text")) ==> p.notification.body == content)
      && (!(messageType.Undefined? || messageType == Str("text")) ==>
            p.notification.body.Str? && p.notification.body.s == "Sent a " + Render(messageType))
      && p.data["type"] == Text("chat_message")
      && p.data["clickAction"] == Text("FLUTTER_NOTIFICATION_CLICK")
      && p.data["communityId"] == Text(communityId)
      && p.data["messageId"] == Text(messageId)
      && p.data["senderId"] == Text(senderId)
      && p.data["senderName"] == Text(senderName)
      && p.data["messageType"] ==
           (if messageType.Undefined? then Text("text")
            else if messageType.Str? then Text(messageType.s)
            else NullValue)
      && p.data["timestamp"] ==
           (if millis.Some? && millis.value != 0 then Number(millis.value) else Text(now))
      && p.data["navigation"].Text?
      && RouteCommunity(p.data["navigation"].s) == Some(communityId)
  {
  }

  /**
   * Every value of the chat data block is a string exactly when the message
   * has no timestamp (or one at the epoch) and its type is not `null`.
   */
  lemma ChatDataStringsOnly(communityId: string, messageId: string, senderId: string, senderName: string,
                            communityName: Field, content: Field, messageType: Field,
                            millis: Option<int>, now: string)
    ensures var p := ChatPayload(communityId, messageId, senderId, senderName, communityName,
                                 content, messageType, millis, now);
      (forall k :: k in p.data ==> p.data[k].Text?) <==>
        (millis.None? || millis.value == 0) && !messageType.Null?
  {
    var p := ChatPayload(communityId, messageId, senderId, senderName, communityName,
                         content, messageType, millis, now);
    assert "timestamp" in p.data && "messageType" in p.data;
  }

  /**
   * `{...notificationData, clickAction: 'FLUTTER_NOTIFICATION_CLICK'}`: the
   * caller's data (none when absent) with `clickAction` forced.
   */
  function CallData(supplied: Option<map<string, string>>): (d: map<string, DataValue>)
    ensures supplied.None? ==> d.Keys == {"clickAction"}
    ensures supplied.Some? ==> d.Keys == supplied.value.Keys + {"clickAction"}
    ensures d["clickAction"] == Text(ClickAction)
    ensures supplied.Some? ==>
      forall k :: k in supplied.value && k != "clickAction" ==> d[k] == Text(supplied.value[k])
  {
    var m := if supplied.Some? then supplied.value else map[];
    map k | k in m.Keys + {"clickAction"} :: if k == "clickAction" then Text(ClickAction) else Text(m[k])
  }

  /** The call-path payload: the caller's title and body over the call data block. */
  function CallPayload(title: string, body: string, supplied: Option<map<string, string>>): (p: Payload)
    ensures p.notification.title == title
    ensures p.notification.body == Str(body)
    ensures p.notification.sound == "default"
    ensures p.data == CallData(supplied)
  {
    Payload(Notification(title, Str(body), DefaultSound), CallData(supplied))
  }
}
