# ms-manager: correlation and dispatch core

This project models the core of `msManager.js`, the module of ms-manager that
sits on top of the hydra micro-service transport. The module owns three pieces
of shared mutable state:

- the correlation table `handlers`, which maps a message id (`mid`) to the
  completion callback of a pending request;
- the subscription registry `bus`, which maps a message type to the ordered
  list of its subscriber handlers;
- the `stats` counters.

It offers three entry points:

- the outbound request builder: `send(to)`, then `.for(type)`, `.with(body)`,
  `.done(cb)`;
- `subscribe(type, cb)`;
- the inbound router, the `hydra.on('message')` callback. It resolves a pending
  callback for `reply`, `reply_err` and `no_subscribers` envelopes. Every other
  type, including `ping` after its `pong`, goes to bus dispatch.

Transport calls are not performed. Each operation returns the sequence of
`Effect`s it asks for: `SendMessage`, `SendReply`, `InvokeCallback`,
`CallHandler`, `LogError`, and `Crash` for a `TypeError` that escapes the
router.

Files:

- `protocol.dfy`: JavaScript values with their truthiness, inbound envelopes
  `{mid, typ, rmid?, bdy}`, outbound requests, send outcomes and effects.
- `semantics.dfy`: the module state as a value, with one step function per
  operation (`Subscribe`, `Done`, `Route`) and runs of operations (`Run`). It
  also holds the lemmas about them, for single calls and for whole runs.
- `manager.dfy`: the imperative form. `MsManager` holds the tables and counters
  as fields. `Builder` is the object `send` returns, whose fields `for` and
  `with` overwrite. `Inbound` is the inbound message object that the router
  extends with `reply`/`replyErr` (the `Object.assign`). `Subscribe`, `Route`
  and `Builder.Done` are proved to follow the step function of the same name;
  the other methods' contracts state their result directly.
  `AdvertiseSubscribers` is the `forEach` over a subscriber list.

Behaviour of the code that the model keeps:

- A reply-role envelope whose `rmid` has no pending entry calls `undefined`
  and throws (`Crash`), so a duplicate reply crashes the router
  (`Semantics.SendThenReply`).
- A failed send hands the error to the callback but leaves `handlers[mid]` in
  place.
- `nb_message_error_no_rmid` and `nb_message_error_no_subscribers` are never
  incremented (`Semantics.RunCounts`).
- The empty-list `reply_err` branch raises no counter, and that branch cannot
  be reached through the public operations
  (`Semantics.EmptyListBranchUnreachable`).
- After its `pong`, a `ping` also goes to bus dispatch, so an unsubscribed
  `ping` also gets an "unrecognized type" `reply_err`. A `pong` is dispatched
  like any application type.

## Model

| member | source | states |
|---|---|---|
| `Manager.MsManager.constructor` | msManager.js:24-33 | both tables start empty and all five counters start at zero; the bus invariant holds |
| `Manager.MsManager.Send` | msManager.js:81-85 | `send(to)` returns a fresh builder for `to`, bound to this manager's state, with type `ping` and body `null` |
| `Manager.Builder.constructor` | msManager.js:82-85 | the builder starts with the target, type `ping` and body `null` |
| `Manager.Builder.For` | msManager.js:86-91 | a truthy type overwrites the builder's type and a falsy one leaves it; the body is untouched; the same builder is returned |
| `Manager.Builder.With` | msManager.js:92-97 | a truthy body overwrites the builder's body and a falsy one leaves it; the type is untouched; the same builder is returned |
| `Manager.Builder.Done` | msManager.js:98-126 | the new tables, counters and effects are exactly those of `Semantics.Done` on the builder's accumulated message; the bus invariant is preserved |
| `Manager.MsManager.Subscribe` | msManager.js:139-146 | `bus[t]` becomes the old list (or the empty list) with `h` appended; every other list, the correlation table and all counters are unchanged; the bus invariant is preserved |
| `Manager.MsManager.Route` | msManager.js:169-304 | the new state and effects are exactly those of `Semantics.Route`; the message gets its reply helpers exactly when bus dispatch reaches a non-empty list; the bus invariant is preserved, and while it holds no "no subscribers for the type" reply is emitted |
| `Manager.AdvertiseSubscribers` | msManager.js:289-293 | one `CallHandler` per handler, in list order, each with the message body and the message |
| `Manager.Inbound.Reply` | msManager.js:256-267 | sends one `reply` correlated to this message's id; the body is the argument if truthy and `{}` otherwise, so it is never falsy; a failed send adds exactly one logged error |
| `Manager.Inbound.ReplyErr` | msManager.js:272-283 | sends one `reply_err` correlated to this message's id; the body is the argument if truthy and the default error otherwise; a failed send adds exactly one logged error |
| `Semantics.SubscribeAppends` | msManager.js:139-146 | subscribe appends at the end of `bus[t]`, creating it if absent; it adds only key `t`, keeps every other list, and leaves the handlers and stats unchanged |
| `Semantics.ApplyKeepsBusNonEmpty` | msManager.js:140-145 | each public operation keeps every subscriber list non-empty |
| `Semantics.RunKeepsBusNonEmpty` | msManager.js:140-145 | any run of public operations keeps every subscriber list non-empty |
| `Semantics.EmptyListBranchUnreachable` | msManager.js:242-248 | after any run from the initial state, no routed message gets the "no subscribers for the type" reply |
| `Semantics.DoneRegistersThenSends` | msManager.js:107-125 | with a callback, the table maps the new id to it before the send, and without one the table is unchanged. On success only `sent` rises. On failure only `notSent` rises; the callback gets `[err]` once, or the error is logged without a callback; the entry stays |
| `Semantics.RouteCountsOnce` | msManager.js:172 | every routed message raises `received` by exactly one and leaves the other counters unchanged, on every branch |
| `Semantics.RouteResolvesPending` | msManager.js:179-214 | a reply-role envelope with a pending `rmid` invokes that callback exactly once, with `(null, bdy)`, `(bdy)` or the synthesized error by role. It removes exactly that key, leaves the bus unchanged and calls no subscriber |
| `Semantics.RouteReplyWithoutRmid` | msManager.js:184-218 | a reply-role envelope without `rmid` only logs an error; nothing but `received` changes and there is no bus dispatch |
| `Semantics.RouteUnknownRmidCrashes` | msManager.js:181 | a reply-role envelope whose `rmid` is not pending crashes the router and changes nothing but `received` |
| `Semantics.RouteFansOut` | msManager.js:223-293 | for a type with a non-empty list, each handler is called once, in registration order, with the body. A `ping` first sends its `pong`. Tables are unchanged |
| `Semantics.RouteUnrecognized` | msManager.js:223-303 | a type with no bus entry, `ping` and `pong` included, gets exactly one `reply_err` "unrecognized type"; a `ping` gets its `pong` first |
| `Semantics.SendThenReply` | msManager.js:179-183 | a request sent with a callback and answered by one `reply` resolves the callback once with `(null, bdy)` and leaves no entry under its id; a second identical reply crashes |
| `Semantics.SubscribeThenRoute` | msManager.js:290-293 | the handler subscribed last to a type is the last one called when that type is routed |
| `Semantics.RunCounts` | msManager.js:27-33 | over any run, `received` counts the deliveries, `sent + notSent` counts the sends, and the two error counters never move |
| `Semantics.RunHandlersFromSends` | msManager.js:107-109 | every key of the correlation table after a run was there before or was registered by a `done` with a callback in the run |
| `Semantics.RunBusOnlyGrows` | msManager.js:139-146 | over any run, no subscription is ever removed: each list only grows by appending at its end |

## Left out

- Service start-up (`init`, `hydra.init`, `registerService`, `process.nextTick`, `process.exit`, msManager.js:45-72) is external I/O.
- The `logger` object and `console.*` output are not modelled. `console.error` is the opaque `LogError` effect; debug logging is dropped.
- `hydra.createUMFMessage` is not modelled. The id of a new message is a parameter of `Done`, and the `from` field of outbound messages is not kept. A reply is identified by the id of the message it answers.
- The promises of `sendMessage` / `sendReplyMessage` are not modelled. `Manager.Builder.Done` takes the settled outcome as a parameter and accounts for it at once. Interleavings are not modelled, such as a reply arriving between registration and settlement.
- The router's own replies (`pong` and the automatic `reply_err`) take no outcome. The source attaches no handler to those promises.
- `getStats` is a stub that returns `null` (msManager.js:154-156).
- Error message texts are not kept. Each `new Error(...)` the core builds is an `ErrorTag`.
- The `body.toString()` in `with` (msManager.js:95) throws for an undefined or null argument. It is log formatting and is not modelled.
- Keys that name `Object.prototype` members (`toString`, `__proto__`, ...) are not modelled. In the source they make `handlers` and `bus` look up inherited values.
- Truthiness leaves out NaN. `Manager.Builder.For` takes a string or nothing, not other JavaScript values. Message types are strings.
- Exceptions thrown by callbacks or subscriber handlers are not modelled. In the source they would skip the `delete` or stop the `forEach`.
- Callbacks re-entering the module are not modelled. A callback runs before `delete handlers[rmid]` in the source; here the table update and the emitted `InvokeCallback` effect form one step.
- After a `Crash`, `Semantics.Run` carries on with the next operation. Every property proved over runs also holds for every prefix.
