/** The module-level state of msManager.js (the correlation table `handlers`,
    the subscription registry `bus` and the `stats` counters) as a value, and
    each public operation as a step function on it. The classes in module
    Manager are proved to follow these functions; the lemmas below state what
    the source promises about them, one call at a time and over whole runs. */
module Semantics {
  import opened Protocol

  datatype Stats = Stats(
    received: nat,
    sent: nat,
    notSent: nat,
    errorNoRmid: nat,
    errorNoSubscribers: nat)

  datatype State = State(
    handlers: map<string, CallbackId>,
    bus: map<string, seq<HandlerId>>,
    stats: Stats)

  /** The new state together with the effects emitted, in order. */
  datatype Step = Step(state: State, effects: seq<Effect>)

  /** The state when the module is loaded: both tables empty, counters zero. */
  const Init := State(map[], map[], Stats(0, 0, 0, 0, 0))

  /** Every subscriber list is non-empty. */
  predicate BusNonEmpty(bus: map<string, seq<HandlerId>>) {
    forall t :: t in bus ==> |bus[t]| > 0
  }

  /** `subscribe(type, cb)`: create the list on first use, then append. */
  function Subscribe(s: State, t: string, h: HandlerId): State {
    var list := if t in s.bus then s.bus[t] else [];
    s.(bus := s.bus[t := list + [h]])
  }

  /** `send(to).for(..).with(..).done(cb)` once the builder is complete:
      register the callback under the new id, issue the send, then account
      for how the transport settled it. */
  function Done(s: State, out: Outbound, cb: Option<CallbackId>, outcome: SendOutcome): Step {
    var handlers := if cb.Some? then s.handlers[out.mid := cb.value] else s.handlers;
    match outcome
    case Sent =>
      Step(s.(handlers := handlers, stats := s.stats.(sent := s.stats.sent + 1)),
           [SendMessage(out)])
    case Failed(err) =>
      Step(s.(handlers := handlers, stats := s.stats.(notSent := s.stats.notSent + 1)),
           [SendMessage(out)] + (if cb.Some? then [InvokeCallback(cb.value, [err])] else [LogError]))
  }

  /** The arguments a pending callback receives for each reply role. */
  function ResolveArgs(m: Envelope): seq<Value> {
    if m.typ == TypReply then [Null, m.bdy]
    else if m.typ == TypReplyErr then [m.bdy]
    else [Error(NoSubscribersRegistered)]
  }

  /** One CallHandler per subscriber, in registration order (the forEach). */
  function Fanout(hs: seq<HandlerId>, m: Envelope): seq<Effect> {
    seq(|hs|, i requires 0 <= i < |hs| => CallHandler(hs[i], m.bdy, m))
  }

  /** Whether bus dispatch for `m` reaches the subscriber call (and so
      attaches the reply helpers to the message). */
  predicate Dispatches(bus: map<string, seq<HandlerId>>, m: Envelope) {
    !IsReplyRole(m.typ) && m.typ in bus && |bus[m.typ]| > 0
  }

  /** The bus part of the router, reached by every type that is not a reply role. */
  function BusDispatch(bus: map<string, seq<HandlerId>>, m: Envelope): seq<Effect> {
    if m.typ !in bus then [SendReply(m.mid, TypReplyErr, Error(UnrecognizedType(m.typ)))]
    else if |bus[m.typ]| == 0 then [SendReply(m.mid, TypReplyErr, Error(NoSubscribersForType(m.typ)))]
    else Fanout(bus[m.typ], m)
  }

  /** The `hydra.on('message')` callback. */
  function Route(s: State, m: Envelope): Step {
    var s1 := s.(stats := s.stats.(received := s.stats.received + 1));
    if IsReplyRole(m.typ) then
      if !HasRmid(m) then Step(s1, [LogError])
      else if m.rmid.value !in s1.handlers then Step(s1, [Crash])
      else Step(s1.(handlers := s1.handlers - {m.rmid.value}),
                [InvokeCallback(s1.handlers[m.rmid.value], ResolveArgs(m))])
    else
      var pong := if m.typ == TypPing then [SendReply(m.mid, TypPong, EmptyObject)] else [];
      Step(s1, pong + BusDispatch(s1.bus, m))
  }

  // ---------------------------------------------------------------------------
  // Runs of public operations

  datatype Op =
    | OpSubscribe(typ: string, h: HandlerId)
    | OpSend(out: Outbound, cb: Option<CallbackId>, outcome: SendOutcome)
    | OpDeliver(msg: Envelope)

  function Apply(s: State, op: Op): Step {
    match op
    case OpSubscribe(t, h) => Step(Subscribe(s, t, h), [])
    case OpSend(out, cb, outcome) => Done(s, out, cb, outcome)
    case OpDeliver(m) => Route(s, m)
  }

  /** The state after performing `ops` in order. */
  function Run(s: State, ops: seq<Op>): State
    decreases |ops|
  {
    if ops == [] then s else Run(Apply(s, ops[0]).state, ops[1..])
  }

  function CountDelivers(ops: seq<Op>): nat {
    if ops == [] then 0 else (if ops[0].OpDeliver? then 1 else 0) + CountDelivers(ops[1..])
  }

  function CountSends(ops: seq<Op>): nat {
    if ops == [] then 0 else (if ops[0].OpSend? then 1 else 0) + CountSends(ops[1..])
  }

  /** The ids under which the sends in `ops` registered a callback. */
  function RegisteredMids(ops: seq<Op>): set<string> {
    if ops == [] then {}
    else (if ops[0].OpSend? && ops[0].cb.Some? then {ops[0].out.mid} else {}) + RegisteredMids(ops[1..])
  }

  // ---------------------------------------------------------------------------
  // Subscription registry

  lemma SubscribeAppends(s: State, t: string, h: HandlerId)
    ensures var s' := Subscribe(s, t, h);
      && t in s'.bus
      && s'.bus[t] == (if t in s.bus then s.bus[t] else []) + [h]
      && s'.bus.Keys == s.bus.Keys + {t}
      && (forall u :: u in s.bus && u != t ==> s'.bus[u] == s.bus[u])
      && s'.handlers == s.handlers
      && s'.stats == s.stats
  {
  }

  /** Lists are created only right before a push and never shrink. */
  lemma ApplyKeepsBusNonEmpty(s: State, op: Op)
    requires BusNonEmpty(s.bus)
    ensures BusNonEmpty(Apply(s, op).state.bus)
  {
  }

  lemma {:induction false} RunKeepsBusNonEmpty(s: State, ops: seq<Op>)
    requires BusNonEmpty(s.bus)
    ensures BusNonEmpty(Run(s, ops).bus)
    decreases |ops|
  {
    if ops != [] {
      ApplyKeepsBusNonEmpty(s, ops[0]);
      RunKeepsBusNonEmpty(Apply(s, ops[0]).state, ops[1..]);
    }
  }

  /** Through the public operations the empty-list branch of the router is
      dead: no message ever gets the "no subscribers for the type" reply. */
  lemma {:induction false} EmptyListBranchUnreachable(ops: seq<Op>, m: Envelope)
    ensures forall e :: e in Route(Run(Init, ops), m).effects ==>
      e != SendReply(m.mid, TypReplyErr, Error(NoSubscribersForType(m.typ)))
  {
    RunKeepsBusNonEmpty(Init, ops);
  }

  // ---------------------------------------------------------------------------
  // Outbound requests

  /** `done(cb)` registers before it sends; `done()` leaves the table alone.
      A success raises only the sent counter; a failure raises only the
      not-sent counter, hands the error to the callback once, and leaves the
      entry in the table. */
  lemma DoneRegistersThenSends(s: State, out: Outbound, cb: Option<CallbackId>, outcome: SendOutcome)
    ensures var r := Done(s, out, cb, outcome);
      && r.state.handlers == (if cb.Some? then s.handlers[out.mid := cb.value] else s.handlers)
      && r.state.bus == s.bus
      && r.effects[0] == SendMessage(out)
      && r.state.stats.received == s.stats.received
      && r.state.stats.errorNoRmid == s.stats.errorNoRmid
      && r.state.stats.errorNoSubscribers == s.stats.errorNoSubscribers
      && (outcome.Sent? ==>
            && r.effects == [SendMessage(out)]
            && r.state.stats.sent == s.stats.sent + 1
            && r.state.stats.notSent == s.stats.notSent)
      && (outcome.Failed? ==>
            && r.state.stats.sent == s.stats.sent
            && r.state.stats.notSent == s.stats.notSent + 1
            && |r.effects| == 2
            && (cb.Some? ==> r.effects[1] == InvokeCallback(cb.value, [outcome.err]) && out.mid in r.state.handlers)
            && (cb.None? ==> r.effects[1] == LogError))
  {
  }

  // ---------------------------------------------------------------------------
  // Inbound router

  /** Every routed message raises the received counter by exactly one, and
      no other counter moves, whichever branch is taken. */
  lemma RouteCountsOnce(s: State, m: Envelope)
    ensures Route(s, m).state.stats == s.stats.(received := s.stats.received + 1)
  {
  }

  /** A reply-role envelope whose rmid is pending resolves that callback once,
      with the role's arguments, removes exactly that key and calls no
      subscriber. */
  lemma RouteResolvesPending(s: State, m: Envelope)
    requires IsReplyRole(m.typ) && HasRmid(m) && m.rmid.value in s.handlers
    ensures var r := Route(s, m);
      && r.effects == [InvokeCallback(s.handlers[m.rmid.value], ResolveArgs(m))]
      && r.state.handlers == s.handlers - {m.rmid.value}
      && r.state.bus == s.bus
      && (m.typ == TypReply ==> ResolveArgs(m) == [Null, m.bdy])
      && (m.typ == TypReplyErr ==> ResolveArgs(m) == [m.bdy])
      && (m.typ == TypNoSubscribers ==> ResolveArgs(m) == [Error(NoSubscribersRegistered)])
  {
  }

  /** Without an rmid a reply-role envelope only logs: no table changes, no
      bus dispatch. */
  lemma RouteReplyWithoutRmid(s: State, m: Envelope)
    requires IsReplyRole(m.typ) && !HasRmid(m)
    ensures Route(s, m) == Step(s.(stats := s.stats.(received := s.stats.received + 1)), [LogError])
  {
  }

  /** With an rmid that nothing is pending under, the router calls
      `undefined` and throws. */
  lemma RouteUnknownRmidCrashes(s: State, m: Envelope)
    requires IsReplyRole(m.typ) && HasRmid(m) && m.rmid.value !in s.handlers
    ensures Route(s, m) == Step(s.(stats := s.stats.(received := s.stats.received + 1)), [Crash])
  {
  }

  /** A subscribed type reaches each of its handlers once, in registration
      order, with the message body; a ping sends its pong first. */
  lemma RouteFansOut(s: State, m: Envelope)
    requires Dispatches(s.bus, m)
    ensures var r := Route(s, m); var hs := s.bus[m.typ]; var k := if m.typ == TypPing then 1 else 0;
      && |r.effects| == k + |hs|
      && (m.typ == TypPing ==> r.effects[0] == SendReply(m.mid, TypPong, EmptyObject))
      && (forall i :: 0 <= i < |hs| ==> r.effects[k + i] == CallHandler(hs[i], m.bdy, m))
      && r.state.handlers == s.handlers
      && r.state.bus == s.bus
  {
  }

  /** A type nobody subscribed to, ping and pong included, gets exactly one
      reply_err; ping additionally gets its pong before it. */
  lemma RouteUnrecognized(s: State, m: Envelope)
    requires !IsReplyRole(m.typ) && m.typ !in s.bus
    ensures var err := SendReply(m.mid, TypReplyErr, Error(UnrecognizedType(m.typ)));
      && Route(s, m).effects == (if m.typ == TypPing then [SendReply(m.mid, TypPong, EmptyObject), err] else [err])
      && Route(s, m).state.handlers == s.handlers
      && Route(s, m).state.bus == s.bus
  {
  }

  /** A request sent with a callback and answered once resolves the callback
      exactly once and leaves no entry under its id; a second identical
      answer finds nothing pending and crashes the router. */
  lemma SendThenReply(s: State, out: Outbound, cb: CallbackId, m: Envelope)
    requires m.typ == TypReply && m.rmid == Some(out.mid) && out.mid != ""
    ensures var s1 := Done(s, out, Some(cb), Sent).state;
      var r := Route(s1, m);
      && r.effects == [InvokeCallback(cb, [Null, m.bdy])]
      && r.state.handlers == s.handlers - {out.mid}
      && Route(r.state, m).effects == [Crash]
  {
  }

  /** A subscriber added last is called last. */
  lemma SubscribeThenRoute(s: State, t: string, h: HandlerId, m: Envelope)
    requires m.typ == t && !IsReplyRole(t)
    ensures var r := Route(Subscribe(s, t, h), m);
      |r.effects| > 0 && r.effects[|r.effects| - 1] == CallHandler(h, m.bdy, m)
  {
  }

  // ---------------------------------------------------------------------------
  // Whole runs

  /** received counts the deliveries, sent plus not-sent counts the sends,
      and the two error counters are never raised. */
  lemma {:induction false} RunCounts(s: State, ops: seq<Op>)
    ensures var t := Run(s, ops).stats;
      && t.received == s.stats.received + CountDelivers(ops)
      && t.sent + t.notSent == s.stats.sent + s.stats.notSent + CountSends(ops)
      && t.errorNoRmid == s.stats.errorNoRmid
      && t.errorNoSubscribers == s.stats.errorNoSubscribers
    decreases |ops|
  {
    if ops != [] {
      RunCounts(Apply(s, ops[0]).state, ops[1..]);
    }
  }

  /** An entry in the correlation table exists only because a `done(cb)`
      put it there. */
  lemma {:induction false} RunHandlersFromSends(s: State, ops: seq<Op>)
    ensures Run(s, ops).handlers.Keys <= s.handlers.Keys + RegisteredMids(ops)
    decreases |ops|
  {
    if ops != [] {
      var s1 := Apply(s, ops[0]).state;
      assert s1.handlers.Keys <= s.handlers.Keys + RegisteredMids(ops[..1]);
      RunHandlersFromSends(s1, ops[1..]);
      assert RegisteredMids(ops) == RegisteredMids(ops[..1]) + RegisteredMids(ops[1..]);
    }
  }

  /** Subscriptions are never removed: every registered list only grows by
      appending. */
  lemma {:induction false} RunBusOnlyGrows(s: State, ops: seq<Op>)
    ensures var b := Run(s, ops).bus;
      forall t :: t in s.bus ==> t in b && s.bus[t] <= b[t]
    decreases |ops|
  {
    if ops != [] {
      var s1 := Apply(s, ops[0]).state;
      assert forall t :: t in s.bus ==> t in s1.bus && s.bus[t] <= s1.bus[t];
      RunBusOnlyGrows(s1, ops[1..]);
    }
  }
}
