/**
 * End-to-end scenarios of the trigger handler, proved by the verifier, on a small community: a message from
 * u1 to the members u1, u2 and u3, where u1 is the sender and only u2 has a
 * usable device token.
 */
module Scenarios {
  import opened Values
  import opened Audience
  import opened TokenLookup
  import opened Payloads
  import opened Dispatch
  import opened Handlers

  function Message(): MessageData
  {
    MessageData(Str("c1"), Str("u1"), Str("Al"), Str("hi"), Str("text"), None)
  }

  function Circle(): map<string, Community>
  {
    map["c1" := Community(Str("Circle"), Some(["u1", "u2", "u3"]))]
  }

  function Users(): map<string, Field>
  {
    map["u1" := Str("token-u1"), "u2" := Str("token-u2"), "u3" := Null]
  }

  /** The chat payload of the example message. */
  function CirclePayload(now: string): Payload
  {
    ChatPayload("c1", "m1", "u1", "Al", Str("Circle"), Str("hi"), Str("text"), None, now)
  }

  /** The sender is left out and u3 has no token, so only u2's token remains. */
  lemma CircleTokens()
    ensures Tokens(Users(), Recipients(MembersOf(Circle()["c1"]), "u1")) == ["token-u2"]
  {
    var members: seq<string> := ["u1", "u2", "u3"];
    assert MembersOf(Circle()["c1"]) == members;
    assert members[1..] == ["u2", "u3"];
    RecipientsWithoutSender(["u2", "u3"], "u1");
    assert Recipients(members, "u1") == ["u2", "u3"];
    var audience: seq<string> := ["u2", "u3"];
    assert audience[..1] == ["u2"];
    assert ["u2"][..0] == [];
    assert QueryTokens(Users(), ["u2"]) == [Str("token-u2")];
    assert QueryTokens(Users(), audience) == [Str("token-u2")];
    assert [Str("token-u2")][..0] == [];
  }

  /** The handler plans one send, to u2's token, of the example payload. */
  lemma CirclePlan(now: string)
    ensures ChatPlan(Message(), "m1", Circle(), Users(), now) == Ok(Fanout(["token-u2"], CirclePayload(now)))
  {
    CircleTokens();
  }

  /** The example payload's visible part. */
  lemma CircleNotification(now: string)
    ensures CirclePayload(now).notification == Notification("Al in Circle", Str("hi"), "default")
  {
  }

  /**
   * A fan-out to one token: that one send is attempted; the fan-out throws
   * exactly when it does, and otherwise delivers it exactly when it is accepted.
   */
  lemma OneSend(respond: (nat, Addressed) -> SendResult, f: Fanout)
    requires |f.tokens| == 1
    ensures Attempted(respond, 0, Some(f)) == [Addressed(f.tokens[0], f.payload)]
    ensures var m := Addressed(f.tokens[0], f.payload);
      && (respond(0, m).Thrown? ==> FanoutOutcome(respond, 0, [m]) == SendThrew(respond(0, m).message))
      && (!respond(0, m).Thrown? ==>
            FirstThrow(respond, 0, [m]).None? &&
            |Delivered(Outcomes(respond, 0, [m]))| == (if respond(0, m).Accepted? then 1 else 0))
  {
    var m := Addressed(f.tokens[0], f.payload);
    var ms := Addresses(f.tokens, f.payload);
    assert ms == [m];
    if respond(0, m).Thrown? {
      StopsAt(respond, 0, f, 0);
      assert ms[..1] == ms;
    } else {
      var results := Outcomes(respond, 0, ms);
      assert results == [Caught(respond(0, m))];
      assert results[..0] == [];
      SettlesAll(respond, 0, f, results);
    }
  }

  /** One send, to u2's token, titled "Al in Circle" with body "hi"; it succeeds and one recipient is recorded. */
  method OnlyOneTokenHolder() returns (r: TriggerResult, sent: seq<Addressed>, written: Option<nat>)
    ensures sent == [Addressed("token-u2", CirclePayload("1700000000000"))]
    ensures sent[0].payload.notification.title == "Al in Circle"
    ensures sent[0].payload.notification.body == Str("hi")
    ensures r == Recorded(1) && written == Some(1)
  {
    var now := "1700000000000";
    CirclePlan(now);
    CircleNotification(now);
    var snap := new MessageRecord(Message());
    var provider := new PushProvider((i: nat, m: Addressed) => Accepted("msg-1"));
    r := SendChatNotification(snap, "m1", Circle(), Users(), provider, now, 0, None);
    OneSend(provider.respond, Fanout(["token-u2"], CirclePayload(now)));
    sent, written := provider.sent, snap.notificationRecipients;
  }

  /** The same scenario with u2's send rejected: the handler still completes and records zero recipients. */
  method OnlySendFails() returns (r: TriggerResult, sent: seq<Addressed>, written: Option<nat>)
    ensures sent == [Addressed("token-u2", CirclePayload("1700000000000"))]
    ensures r == Recorded(0) && written == Some(0)
  {
    var now := "1700000000000";
    CirclePlan(now);
    var snap := new MessageRecord(Message());
    var provider := new PushProvider((i: nat, m: Addressed) => Rejected("registration-token-not-registered"));
    r := SendChatNotification(snap, "m1", Circle(), Users(), provider, now, 0, None);
    OneSend(provider.respond, Fanout(["token-u2"], CirclePayload(now)));
    assert provider.respond(0, Addressed("token-u2", CirclePayload(now))).Rejected?;
    sent, written := provider.sent, snap.notificationRecipients;
  }

  /**
   * The same scenario with u2's send throwing before it settles: the handler fails
   * with that error after the one attempt and writes nothing back.
   */
  method OnlySendThrows() returns (r: TriggerResult, sent: seq<Addressed>, written: Option<nat>)
    ensures sent == [Addressed("token-u2", CirclePayload("1700000000000"))]
    ensures r == Failed("invalid-payload") && written == None
  {
    var now := "1700000000000";
    CirclePlan(now);
    var snap := new MessageRecord(Message());
    var provider := new PushProvider((i: nat, m: Addressed) => Thrown("invalid-payload"));
    r := SendChatNotification(snap, "m1", Circle(), Users(), provider, now, 0, None);
    OneSend(provider.respond, Fanout(["token-u2"], CirclePayload(now)));
    sent, written := provider.sent, snap.notificationRecipients;
  }
}
