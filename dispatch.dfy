/**
 * The dispatcher shared by both handlers: one send per token, each failure
 * caught on its own, and the number of sends that did not fail.
 */
module Dispatch {
  import opened Values
  import opened Payloads

  /** One addressed message handed to the push provider (`{token, ...payload}`). */
  datatype Addressed = Addressed(token: string, payload: Payload)

  /**
   * What one call of `messaging.send` comes to: a promise that resolves to the
   * provider's message name, a promise that rejects with a delivery error, or
   * an error thrown synchronously before any promise exists (as when the
   * message fails the client library's own validation).
   */
  datatype SendResult = Accepted(name: string) | Rejected(reason: string) | Thrown(message: string)

  /** Tokens to send to and the payload they all receive. */
  datatype Fanout = Fanout(tokens: seq<string>, payload: Payload)

  /**
   * The push provider. `sent` records every send attempted, in order, and
   * `respond(i, m)` is how the provider settles the i-th attempt, to `m`.
   */
  class PushProvider {
    var sent: seq<Addressed>
    const respond: (nat, Addressed) -> SendResult

    constructor (respond: (nat, Addressed) -> SendResult)
      ensures sent == [] && this.respond == respond
    {
      sent := [];
      this.respond := respond;
    }

    /** `messaging.send(message)` */
    method Send(m: Addressed) returns (r: SendResult)
      modifies this
      ensures sent == old(sent) + [m]
      ensures r == respond(|old(sent)|, m)
    {
      r := respond(|sent|, m);
      sent := sent + [m];
    }
  }

  /** `.catch(error => null)`: a rejected send becomes `null`; it cannot catch a synchronous throw. */
  function Caught(r: SendResult): Option<string>
    requires !r.Thrown?
  {
    match r
    case Accepted(name) => Some(name)
    case Rejected(_) => None
  }

  /** `tokens.map(token => ({token, ...payload}))`: one addressed message per token. */
  function Addresses(tokens: seq<string>, payload: Payload): (ms: seq<Addressed>)
    ensures |ms| == |tokens|
    ensures forall i :: 0 <= i < |ms| ==> ms[i].token == tokens[i] && ms[i].payload == payload
  {
    seq(|tokens|, i requires 0 <= i < |tokens| => Addressed(tokens[i], payload))
  }

  /**
   * The position of the first of the messages `ms` whose send throws, when the
   * sends are attempt `start` onwards; None when none throws.
   */
  function FirstThrow(respond: (nat, Addressed) -> SendResult, start: nat, ms: seq<Addressed>): (k: Option<nat>)
    ensures k.Some? ==> k.value < |ms| && respond(start + k.value, ms[k.value]).Thrown?
    ensures k.Some? ==> forall j :: 0 <= j < k.value ==> !respond(start + j, ms[j]).Thrown?
    ensures k.None? ==> forall j :: 0 <= j < |ms| ==> !respond(start + j, ms[j]).Thrown?
  {
    FirstThrowFrom(respond, start, ms, 0)
  }

  function FirstThrowFrom(respond: (nat, Addressed) -> SendResult, start: nat, ms: seq<Addressed>, i: nat): (k: Option<nat>)
    requires i <= |ms|
    requires forall j :: 0 <= j < i ==> !respond(start + j, ms[j]).Thrown?
    ensures k.Some? ==> i <= k.value < |ms| && respond(start + k.value, ms[k.value]).Thrown?
    ensures k.Some? ==> forall j :: 0 <= j < k.value ==> !respond(start + j, ms[j]).Thrown?
    ensures k.None? ==> forall j :: 0 <= j < |ms| ==> !respond(start + j, ms[j]).Thrown?
    decreases |ms| - i
  {
    if i == |ms| then None
    else if respond(start + i, ms[i]).Thrown? then Some(i)
    else FirstThrowFrom(respond, start, ms, i + 1)
  }

  /** The results array `Promise.all` yields when no send throws. */
  function Outcomes(respond: (nat, Addressed) -> SendResult, start: nat, ms: seq<Addressed>): (rs: seq<Option<string>>)
    requires FirstThrow(respond, start, ms).None?
    ensures |rs| == |ms|
  {
    seq(|ms|, i requires 0 <= i < |ms| => Caught(respond(start + i, ms[i])))
  }

  /** How the fan-out ends: every send settled with these results, or one threw this message. */
  datatype FanoutResult = Settled(results: seq<Option<string>>) | SendThrew(message: string)

  /**
   * The fan-out over the messages `ms`: the settled results, or the message of
   * the first send that throws, which stops `tokens.map` there.
   */
  function FanoutOutcome(respond: (nat, Addressed) -> SendResult, start: nat, ms: seq<Addressed>): (r: FanoutResult)
    ensures r.Settled? <==> forall j :: 0 <= j < |ms| ==> !respond(start + j, ms[j]).Thrown?
    ensures r.Settled? ==>
      |r.results| == |ms| &&
      forall j :: 0 <= j < |ms| ==> r.results[j] == Caught(respond(start + j, ms[j]))
    ensures r.SendThrew? ==> exists k :: 0 <= k < |ms| && respond(start + k, ms[k]) == Thrown(r.message)
  {
    match FirstThrow(respond, start, ms)
    case Some(k) => SendThrew(respond(start + k, ms[k]).message)
    case None => Settled(Outcomes(respond, start, ms))
  }

  /**
   * The sends a plan leads to: one per token, up to and including the first one
   * that throws; none without a plan.
   */
  function Attempted(respond: (nat, Addressed) -> SendResult, start: nat, plan: Option<Fanout>): (sent: seq<Addressed>)
    ensures plan.None? ==> sent == []
    ensures plan.Some? && FirstThrow(respond, start, Addresses(plan.value.tokens, plan.value.payload)).None? ==>
      sent == Addresses(plan.value.tokens, plan.value.payload)
    ensures plan.Some? && FirstThrow(respond, start, Addresses(plan.value.tokens, plan.value.payload)).Some? ==>
      sent == Addresses(plan.value.tokens, plan.value.payload)[..FirstThrow(respond, start, Addresses(plan.value.tokens, plan.value.payload)).value + 1]
    ensures plan.Some? ==> |sent| <= |plan.value.tokens|
  {
    if plan.None? then []
    else
      var ms := Addresses(plan.value.tokens, plan.value.payload);
      match FirstThrow(respond, start, ms)
      case Some(k) => ms[..k + 1]
      case None => ms
  }

  /** `results.filter(result => result !== null)`: the sends that did not fail. */
  function Delivered(results: seq<Option<string>>): (ok: seq<string>)
    ensures |ok| <= |results|
  {
    if results == [] then []
    else
      var last := results[|results| - 1];
      Delivered(results[..|results| - 1]) + (if last.Some? then [last.value] else [])
  }

  /** The positions of the failed sends. */
  ghost function FailedSends(results: seq<Option<string>>): set<nat>
  {
    set i: nat | i < |results| && results[i].None?
  }

  /** With N sends of which K failed, N - K are counted as successful. */
  lemma {:induction false} DeliveredCount(results: seq<Option<string>>)
    ensures |Delivered(results)| == |results| - |FailedSends(results)|
  {
    if results == [] {
      assert FailedSends(results) == {};
    } else {
      var n := |results| - 1;
      var prefix := results[..n];
      DeliveredCount(prefix);
      if results[n].None? {
        assert FailedSends(results) == FailedSends(prefix) + {n};
      } else {
        assert FailedSends(results) == FailedSends(prefix);
      }
    }
  }

  /** Every send that was accepted appears among the delivered results, and nothing else does. */
  lemma {:induction false} DeliveredExactly(results: seq<Option<string>>, name: string)
    ensures name in Delivered(results) <==> Some(name) in results
  {
    if results != [] {
      var n := |results| - 1;
      DeliveredExactly(results[..n], name);
      assert results == results[..n] + [results[n]];
    }
  }

  /** A fan-out whose send at position i throws, after none before it did, stops there with that send's error. */
  lemma StopsAt(respond: (nat, Addressed) -> SendResult, start: nat, f: Fanout, i: nat)
    requires var ms := Addresses(f.tokens, f.payload);
      i < |ms| && respond(start + i, ms[i]).Thrown? &&
      forall j :: 0 <= j < i ==> !respond(start + j, ms[j]).Thrown?
    ensures var ms := Addresses(f.tokens, f.payload);
      && Attempted(respond, start, Some(f)) == ms[..i + 1]
      && FanoutOutcome(respond, start, ms) == SendThrew(respond(start + i, ms[i]).message)
  {
  }

  /** A fan-out in which no send throws attempts every message and settles with every caught result. */
  lemma SettlesAll(respond: (nat, Addressed) -> SendResult, start: nat, f: Fanout, results: seq<Option<string>>)
    requires var ms := Addresses(f.tokens, f.payload);
      |results| == |ms| &&
      forall j :: 0 <= j < |ms| ==>
        !respond(start + j, ms[j]).Thrown? && results[j] == Caught(respond(start + j, ms[j]))
    ensures var ms := Addresses(f.tokens, f.payload);
      && Attempted(respond, start, Some(f)) == ms
      && FanoutOutcome(respond, start, ms) == Settled(results)
  {
  }

  /**
   * `tokens.map(token => messaging.send(...).catch(...))` then `Promise.all`:
   * sends the payload once to every token, in order, whatever the earlier sends
   * settled to, unless a send throws, which ends the fan-out at that token.
   */
  method SendAll(provider: PushProvider, f: Fanout) returns (outcome: FanoutResult)
    modifies provider
    ensures provider.sent == old(provider.sent) + Attempted(provider.respond, |old(provider.sent)|, Some(f))
    ensures outcome == FanoutOutcome(provider.respond, |old(provider.sent)|, Addresses(f.tokens, f.payload))
  {
    ghost var start := |provider.sent|;
    var ms := Addresses(f.tokens, f.payload);
    var results := [];
    var i := 0;
    while i < |ms|
      invariant 0 <= i <= |ms|
      invariant provider.sent == old(provider.sent) + ms[..i]
      invariant |results| == i
      invariant forall j :: 0 <= j < i ==> !provider.respond(start + j, ms[j]).Thrown?
      invariant forall j :: 0 <= j < i ==> results[j] == Caught(provider.respond(start + j, ms[j]))
    {
      var r := provider.Send(ms[i]);
      assert ms[..i + 1] == ms[..i] + [ms[i]];
      if r.Thrown? {
        StopsAt(provider.respond, start, f, i);
        return SendThrew(r.message);
      }
      results := results + [Caught(r)];
      i := i + 1;
    }
    assert ms[..i] == ms;
    SettlesAll(provider.respond, start, f, results);
    outcome := Settled(results);
  }
}
