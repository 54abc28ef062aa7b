/**
 * The two entry points: the handler the message store triggers for every new
 * chat message, and the handler an authenticated caller invokes directly.
 */
module Handlers {
  import opened Values
  import opened Audience
  import opened TokenLookup
  import opened Payloads
  import opened Dispatch

  // ---------------------------------------------------------------------------
  // Store-triggered handler (`sendChatNotification`)
  // ---------------------------------------------------------------------------

  /**
   * The fields of a new message record the handler reads. `timestampMillis` is
   * what the record's `timestamp.toMillis()` gives, absent when it has none.
   */
  datatype MessageData = MessageData(
    communityId: Field,
    senderId: Field,
    senderName: Field,
    content: Field,
    messageType: Field,
    timestampMillis: Option<int>)

  /**
   * The message record in the store. The handler reads `data` and may write the
   * three delivery fields, which are absent (None) until that write.
   */
  class MessageRecord {
    const data: MessageData
    var notificationSent: Option<bool>
    var notificationSentAt: Option<int>
    var notificationRecipients: Option<nat>

    constructor (data: MessageData)
      ensures this.data == data
      ensures notificationSent == None && notificationSentAt == None && notificationRecipients == None
    {
      this.data := data;
      notificationSent, notificationSentAt, notificationRecipients := None, None, None;
    }

    /** `snap.ref.update({notificationSent, notificationSentAt, notificationRecipients})` */
    method Update(sentAt: int, recipients: nat)
      modifies this
      ensures notificationSent == Some(true)
      ensures notificationSentAt == Some(sentAt)
      ensures notificationRecipients == Some(recipients)
    {
      notificationSent, notificationSentAt, notificationRecipients := Some(true), Some(sentAt), Some(recipients);
    }
  }

  /** Why the handler returned `null` before sending anything. */
  datatype Abort = MissingFields | CommunityNotFound | NoRecipients | NoTokens

  /** How the handler ends: `null`, `{success: true, recipients}`, or a thrown error. */
  datatype TriggerResult = Aborted(reason: Abort) | Recorded(recipients: nat) | Failed(message: string)

  predicate HasRequiredFields(m: MessageData)
  {
    Truthy(m.communityId) && Truthy(m.senderId) && Truthy(m.senderName)
  }

  /**
   * Everything the handler decides before its first send: each early return in
   * turn, or the tokens to send to and the chat payload.
   */
  function ChatPlan(m: MessageData, messageId: string, communities: map<string, Community>,
                    users: UserStore, now: string): (r: Result<Fanout, Abort>)
    ensures r == Err(MissingFields) <==> !HasRequiredFields(m)
    ensures r == Err(CommunityNotFound) <==> HasRequiredFields(m) && m.communityId.s !in communities
    ensures HasRequiredFields(m) && m.communityId.s in communities && communities[m.communityId.s].members.None?
            ==> r == Err(NoRecipients)
    ensures r == Err(NoRecipients) <==>
      HasRequiredFields(m) && m.communityId.s in communities &&
      (forall x :: x in MembersOf(communities[m.communityId.s]) ==> x == m.senderId.s)
    ensures r == Err(NoTokens) <==>
      HasRequiredFields(m) && m.communityId.s in communities &&
      var audience := Recipients(MembersOf(communities[m.communityId.s]), m.senderId.s);
      audience != [] && Tokens(users, audience) == []
    ensures r.Ok? ==>
      && HasRequiredFields(m) && m.communityId.s in communities
      && var audience := Recipients(MembersOf(communities[m.communityId.s]), m.senderId.s);
      && audience != []
      && r.value.tokens == Tokens(users, audience)
      && r.value.tokens != []
      && |r.value.tokens| <= |audience| <= |MembersOf(communities[m.communityId.s])|
      && (forall t :: t in r.value.tokens ==> t != "")
      && r.value.payload == ChatPayload(m.communityId.s, messageId, m.senderId.s, m.senderName.s,
                                        communities[m.communityId.s].name, m.content, m.messageType,
                                        m.timestampMillis, now)
  {
    if !HasRequiredFields(m) then Err(MissingFields)
    else if m.communityId.s !in communities then Err(CommunityNotFound)
    else
      var community := communities[m.communityId.s];
      var audience := Recipients(MembersOf(community), m.senderId.s);
      if audience == [] then Err(NoRecipients)
      else
        assert audience[0] in audience;
        var tokens := Tokens(users, audience);
        if tokens == [] then Err(NoTokens)
        else
          Ok(Fanout(tokens, ChatPayload(m.communityId.s, messageId, m.senderId.s, m.senderName.s,
                                        community.name, m.content, m.messageType, m.timestampMillis, now)))
  }

  /**
   * How the trigger handler ends when the provider settles the attempts from
   * `start` on by `respond`, and the write-back fails with `writeError` if given.
   */
  function TriggerOutcome(m: MessageData, messageId: string, communities: map<string, Community>,
                          users: UserStore, now: string, respond: (nat, Addressed) -> SendResult,
                          start: nat, writeError: Option<string>): (r: TriggerResult)
    ensures var plan := ChatPlan(m, messageId, communities, users, now);
      && (r.Aborted? <==> plan.Err?)
      && (r.Aborted? ==> r.reason == plan.error)
      && (r.Recorded? <==>
            plan.Ok? && writeError.None? &&
            FirstThrow(respond, start, Addresses(plan.value.tokens, plan.value.payload)).None?)
      && (r.Recorded? ==>
            var results := Outcomes(respond, start, Addresses(plan.value.tokens, plan.value.payload));
            r.recipients == |plan.value.tokens| - |FailedSends(results)| &&
            r.recipients <= |plan.value.tokens|)
      && (r.Failed? && plan.Ok? &&
          FirstThrow(respond, start, Addresses(plan.value.tokens, plan.value.payload)).None? ==>
            writeError == Some(r.message))
      && (plan.Ok? && FanoutOutcome(respond, start, Addresses(plan.value.tokens, plan.value.payload)).SendThrew? ==>
            r == Failed(FanoutOutcome(respond, start, Addresses(plan.value.tokens, plan.value.payload)).message))
  {
    var plan := ChatPlan(m, messageId, communities, users, now);
    match plan
    case Err(reason) => Aborted(reason)
    case Ok(f) =>
      match FanoutOutcome(respond, start, Addresses(f.tokens, f.payload))
      case SendThrew(message) => Failed(message)
      case Settled(results) =>
        DeliveredCount(results);
        if writeError.Some? then Failed(writeError.value) else Recorded(|Delivered(results)|)
  }

  /**
   * `sendChatNotification`: validate, resolve audience and tokens, send once
   * per token, then write the delivery metadata back onto the message. The
   * store's time for the write is `serverTime`; `writeError` is the store's
   * error if that write fails. A send that throws, or a failed write, is
   * rethrown by the handler.
   */
  method SendChatNotification(snap: MessageRecord, messageId: string, communities: map<string, Community>,
                              users: UserStore, provider: PushProvider, now: string, serverTime: int,
                              writeError: Option<string>)
    returns (r: TriggerResult)
    modifies snap, provider
    ensures r == TriggerOutcome(snap.data, messageId, communities, users, now, provider.respond,
                                |old(provider.sent)|, writeError)
    ensures provider.sent == old(provider.sent) +
      Attempted(provider.respond, |old(provider.sent)|, ChatPlan(snap.data, messageId, communities, users, now).ToOption())
    ensures r.Recorded? ==>
      snap.notificationSent == Some(true) &&
      snap.notificationSentAt == Some(serverTime) &&
      snap.notificationRecipients == Some(r.recipients)
    ensures !r.Recorded? ==> unchanged(snap)
  {
    var plan := ChatPlan(snap.data, messageId, communities, users, now);
    if plan.Err? {
      return Aborted(plan.error);
    }
    var outcome := SendAll(provider, plan.value);
    if outcome.SendThrew? {
      return Failed(outcome.message);
    }
    if writeError.Some? {
      return Failed(writeError.value);
    }
    var successfulSends := |Delivered(outcome.results)|;
    snap.Update(serverTime, successfulSends);
    r := Recorded(successfulSends);
  }

  // ---------------------------------------------------------------------------
  // Direct-call handler (`sendNotificationToUsers`)
  // ---------------------------------------------------------------------------

  /** The `userIds` argument: falsy, some other non-array value, or an array of ids. */
  datatype UserIdsArg = NoUserIds | NotAnArray | UserIds(ids: seq<string>)

  /** The call's `data` argument; `data` is the caller's own data map, if any. */
  datatype CallRequest = CallRequest(userIds: UserIdsArg, title: Field, body: Field,
                                     data: Option<map<string, string>>)

  datatype ErrorCode = Unauthenticated | InvalidArgument | Internal

  /** `functions.https.HttpsError(code, message)` */
  datatype HttpsError = HttpsError(code: ErrorCode, message: string)

  /** `{success: false, message: 'No FCM tokens found'}` or `{success: true, recipients, totalTokens}`. */
  datatype CallReply = NoTokensFound | Sent(recipients: nat, totalTokens: nat)

  /** The call either returns a reply or throws an error to the caller. */
  datatype CallResult = Returned(reply: CallReply) | Raised(error: HttpsError)

  const NotAuthenticated := "User must be authenticated"
  const BadUserIds := "userIds must be a non-empty array"
  const MissingText := "title and body are required"

  /** The arguments of a call that passed every check. */
  datatype CheckedCall = CheckedCall(userIds: seq<string>, title: string, body: string,
                                     data: Option<map<string, string>>)

  /**
   * The checks at the top of the call handler, in order: authentication, then
   * `userIds`, then title and body. Each failure is the error the handler throws there.
   */
  function CheckCall(authenticated: bool, req: CallRequest): (r: Result<CheckedCall, HttpsError>)
    ensures !authenticated ==> r == Err(HttpsError(Unauthenticated, NotAuthenticated))
    ensures authenticated && !(req.userIds.UserIds? && req.userIds.ids != []) ==>
      r == Err(HttpsError(InvalidArgument, BadUserIds))
    ensures authenticated && req.userIds.UserIds? && req.userIds.ids != [] &&
            !(Truthy(req.title) && Truthy(req.body)) ==>
      r == Err(HttpsError(InvalidArgument, MissingText))
    ensures r.Ok? <==>
      authenticated && req.userIds.UserIds? && req.userIds.ids != [] && Truthy(req.title) && Truthy(req.body)
    ensures r.Err? && r.error.code == InvalidArgument ==> authenticated
    ensures r.Ok? ==> r.value == CheckedCall(req.userIds.ids, req.title.s, req.body.s, req.data)
  {
    if !authenticated then Err(HttpsError(Unauthenticated, NotAuthenticated))
    else if !req.userIds.UserIds? || req.userIds.ids == [] then Err(HttpsError(InvalidArgument, BadUserIds))
    else if !Truthy(req.title) || !Truthy(req.body) then Err(HttpsError(InvalidArgument, MissingText))
    else Ok(CheckedCall(req.userIds.ids, req.title.s, req.body.s, req.data))
  }

  /**
   * The catch block: whatever was thrown reaches the caller as an `internal`
   * error carrying the original message.
   */
  function Rewrap(e: HttpsError): HttpsError
  {
    HttpsError(Internal, e.message)
  }

  /** The sends a checked call leads to: None when no requested user has a usable token. */
  function CallPlan(c: CheckedCall, users: UserStore): (plan: Option<Fanout>)
    ensures plan.None? <==> Tokens(users, c.userIds) == []
    ensures plan.Some? ==> plan.value.tokens == Tokens(users, c.userIds) && |plan.value.tokens| <= |c.userIds|
    ensures plan.Some? ==> plan.value.payload == CallPayload(c.title, c.body, c.data)
  {
    var tokens := Tokens(users, c.userIds);
    if tokens == [] then None else Some(Fanout(tokens, CallPayload(c.title, c.body, c.data)))
  }

  /**
   * How a call ends when the provider settles the attempts from `start` on by `respond`.
   */
  function CallOutcome(authenticated: bool, req: CallRequest, users: UserStore,
                       respond: (nat, Addressed) -> SendResult, start: nat): (out: CallResult)
    ensures out.Raised? ==> out.error.code == Internal
    ensures CheckCall(authenticated, req).Err? ==>
      out == Raised(HttpsError(Internal, CheckCall(authenticated, req).error.message))
    ensures !authenticated ==> out == Raised(HttpsError(Internal, NotAuthenticated))
    ensures out == Returned(NoTokensFound) <==>
      CheckCall(authenticated, req).Ok? && Tokens(users, CheckCall(authenticated, req).value.userIds) == []
    ensures CheckCall(authenticated, req).Ok? && CallPlan(CheckCall(authenticated, req).value, users).Some? ==>
      var f := CallPlan(CheckCall(authenticated, req).value, users).value;
      var ms := Addresses(f.tokens, f.payload);
      && (out.Raised? <==> FirstThrow(respond, start, ms).Some?)
      && (out.Raised? ==> exists k :: 0 <= k < |ms| && respond(start + k, ms[k]) == Thrown(out.error.message))
      && (FanoutOutcome(respond, start, ms).SendThrew? ==>
            out == Raised(HttpsError(Internal, FanoutOutcome(respond, start, ms).message)))
      && (out.Returned? ==>
            && out.reply.Sent?
            && out.reply.totalTokens == |f.tokens| > 0
            && out.reply.recipients == |f.tokens| - |FailedSends(Outcomes(respond, start, ms))|
            && out.reply.recipients <= out.reply.totalTokens)
  {
    match CheckCall(authenticated, req)
    case Err(e) => Raised(Rewrap(e))
    case Ok(c) =>
      match CallPlan(c, users)
      case None => Returned(NoTokensFound)
      case Some(f) =>
        match FanoutOutcome(respond, start, Addresses(f.tokens, f.payload))
        case SendThrew(message) => Raised(HttpsError(Internal, message))
        case Settled(results) =>
          DeliveredCount(results);
          Returned(Sent(|Delivered(results)|, |f.tokens|))
  }

  /**
   * `sendNotificationToUsers`: check the caller and the arguments, resolve the
   * tokens, send once per token and report the counts; every thrown error is
   * re-thrown as `internal`.
   */
  method SendNotificationToUsers(authenticated: bool, req: CallRequest, users: UserStore, provider: PushProvider)
    returns (out: CallResult)
    modifies provider
    ensures out == CallOutcome(authenticated, req, users, provider.respond, |old(provider.sent)|)
    ensures provider.sent == old(provider.sent) +
      if CheckCall(authenticated, req).Err? then []
      else Attempted(provider.respond, |old(provider.sent)|, CallPlan(CheckCall(authenticated, req).value, users))
  {
    var checked := CheckCall(authenticated, req);
    if checked.Err? {
      return Raised(Rewrap(checked.error));
    }
    var plan := CallPlan(checked.value, users);
    if plan.None? {
      return Returned(NoTokensFound);
    }
    var outcome := SendAll(provider, plan.value);
    if outcome.SendThrew? {
      return Raised(HttpsError(Internal, outcome.message));
    }
    out := Returned(Sent(|Delivered(outcome.results)|, |plan.value.tokens|));
  }
}
