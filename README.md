# whatsapp-me session gateway, modelled in Dafny

whatsapp-me is a small multi-tenant HTTP gateway. For each user id it keeps one
automation client of the messaging network in an in-memory registry. It offers a
QR pairing page (`GET /register/:userId`), a batch send endpoint
(`POST /send/:userId`) and a logout endpoint (`GET /logout/:userId`). Events
raised by each client (`qr`, `ready`, `auth_failure`, `disconnected`) rewrite that
user's registry entry.

This project models the logic of `index.js` that does not depend on the
foreign library:

- `Sessions` is the registry as a value. It holds the `clients` map, the
  listeners each client carries, and the counter that hands out new client
  handles. It defines the transitions for register, each event and logout,
  the invariant `ready ⇒ qrData == null`, and a trace semantics. The lemmas
  prove that every transition keeps the invariant.
- `Gateway.Registry` is the same registry as a class whose fields the route
  handlers and event listeners update in place. The methods that write the
  registry (`Register`, `OnQr`, `OnReady`, `OnDisconnected`, `Logout`) are
  proved against the matching `Sessions` function and keep `Valid()`; `Send`,
  which only reads it, is proved against `Dispatch.HandleSend`; `NewClient` is
  a helper that hands out the next handle.
- `ChatId` normalises a destination number into a chat id, as `/send` does.
- `Dispatch` models the `/send` checks (503 before 400) and the per-number loop
  that produces one result per number.
- `Responses` picks which of the three register pages is shown and which of
  the three logout answers is given.
- `PlainObjectLookup` models the lookup in the `clients` object as written,
  which also finds inherited members (see "Findings" below).

An automation client is an opaque `nat` handle. The outcomes of the calls into
the library are inputs of the operations that await them:

- each `sendMessage` outcome is `None` if the call resolved, or `Some(e)` if it
  threw with `err.toString() == e`;
- the `logout()` outcome has the same form.

A `destroy()` failure is caught and only logged, so it is not an input. Every
request and every event is one atomic step.

Modelling choices that follow the code:

- Every listener re-reads `clients[userId]` when it fires. The model therefore
  binds listeners to a user id, not to an entry. Listeners stay attached to
  clients that have been replaced, and such a client's `qr` or `ready` event
  still writes to the current entry.
- Only the first client of a registration has a `disconnected` listener. The
  client that replaces it has none, so a second disconnect rebuilds nothing.
- The `qr` and `ready` listeners throw once the key has been deleted. This is
  the precondition `CanFire`.
- The `disconnected` listener reads the key inside its `try`. On an absent key
  the error is caught and the session is created again, so that event has no
  such precondition.
- `!qrData` is JavaScript truthiness: an empty payload also gives the
  "QR not ready" page.

Further consequences of the code that the model keeps:

- Logout deletes the key only after `logout()` resolves; a failed logout
  answers 500 and keeps the entry (index.js:219-229).
- Readiness is not an enum: an entry holds a boolean `ready` and a nullable
  `qrData` (index.js:71, 74-80).
- Only the first client of a registration rebuilds the session on
  disconnect; the replacement client has no `disconnected` listener
  (index.js:118-131).
- Listeners of a replaced client stay attached and still write to the entry
  under their user id, so two clients can write to one key (index.js:73-80,
  116-125).

## Model

| member | source | states |
|---|---|---|
| `ChatId.Digits` | index.js:198 | deleting `\D` yields only characters '0'..'9' and never lengthens the string |
| `ChatId.Normalize` | index.js:196-198 | the chat id always ends in "@c.us"; an id already ending in "@c.us" is returned unchanged; otherwise everything before the suffix is digits |
| `ChatId.DigitsAppend` | index.js:198 | deleting non-digits distributes over concatenation |
| `ChatId.DigitsOfDigits` | index.js:198 | a string of digits only is left unchanged |
| `ChatId.DigitsIdempotent` | index.js:198 | deleting non-digits twice is the same as once |
| `ChatId.DigitsKeepsDigit` | index.js:198 | each digit of the input appears in the result at its rank among the input's digits |
| `ChatId.DigitsDropsNonDigit` | index.js:198 | a non-digit adds nothing to the result |
| `ChatId.DigitsFromInput` | index.js:198 | each character of the result is a digit of the input at the matching rank, so the result is exactly the input's digits in order |
| `ChatId.NormalizeIdempotent` | index.js:196-198 | normalising twice equals normalising once |
| `ChatId.DigitsNeverSuffixed` | index.js:196-198 | a digit string never ends in "@c.us", so the suffix test sends it to the digits branch |
| `ChatId.NormalizeDigitString` | index.js:196-198 | a bare number maps to itself + "@c.us", and stripping the suffix gives the number back |
| `ChatId.NormalizeOnlyDigitsMatter` | index.js:196-198 | for an id without the suffix, the chat id is its digits + "@c.us", the same as for its digits alone |
| `ChatId.NormalizeExamples` | index.js:196-198 | "abc@c.us" is kept and "1234" becomes "1234@c.us" |
| `Sessions.Register` | index.js:60-71 | registration only ever adds the user's key; every existing entry and every attached listener is kept |
| `Sessions.Apply` | index.js:73-134 | an event changes at most the entry under its listener's user id; only a disconnect can add that key; listeners already attached are kept |
| `Sessions.Logout` | index.js:215-223 | logout only removes keys, never changes a remaining entry, and leaves the listeners and the handle counter alone |
| `Sessions.Run` | index.js:55-134 | along any trace the handle counter never goes back and every attached listener keeps its binding, so replaced clients still write to their user's key |
| `Sessions.EmptyValid` | index.js:55 | the empty registry satisfies the invariant |
| `Sessions.RegisterAbsent` | index.js:60-71 | registering an absent user adds exactly that key, not ready, with no payload, on a new client, and leaves every other entry alone |
| `Sessions.RegisterIdempotent` | index.js:60-71 | registering a present user changes nothing, so registering twice equals registering once |
| `Sessions.RegisterKeepsValid` | index.js:60-71 | registration keeps the registry invariant |
| `Sessions.QrAwaitsPairing` | index.js:73-76 | a `qr` event sets the payload and clears ready on the entry its listener is bound to, keeping the same client and all other keys |
| `Sessions.ReadyConnects` | index.js:78-82 | a `ready` event sets ready and clears the payload whatever the prior state, touching nothing else |
| `Sessions.AuthFailureIsNoOp` | index.js:84-86 | an `auth_failure` event leaves the registry unchanged |
| `Sessions.DisconnectReplaces` | index.js:88-134 | a disconnect seen by the first client installs a fresh not-ready entry with no payload under the same key. The new client was never used before and has no disconnect listener. This happens even if the key was absent; other keys are unchanged. A disconnect seen by a replacement client changes nothing |
| `Sessions.SecondDisconnectIsNoOp` | index.js:118-131 | after a rebuild, a disconnect of the replacement client rebuilds nothing |
| `Sessions.EventTouchesOnlyItsKey` | index.js:73-131 | no event adds, removes or changes a key other than its listener's user id |
| `Sessions.ApplyKeepsValid` | index.js:73-131 | every event keeps the registry invariant, including ready ⇒ no payload |
| `Sessions.LogoutEffect` | index.js:215-225 | the key is removed exactly when it was present and the logout succeeded; all other entries are unchanged |
| `Sessions.LogoutKeepsValid` | index.js:219-225 | logout keeps the registry invariant |
| `Sessions.LoggedOutListenersWouldThrow` | index.js:73-80 | after a successful logout, the `qr` and `ready` listeners of that user's clients can no longer run |
| `Sessions.DistinctUsersDistinctClients` | index.js:60-71 | two user ids never share a client |
| `Sessions.RunKeepsValid` | index.js:55-134 | every trace of registrations, events and logouts that runs from a valid registry keeps it valid, so ready ⇒ no payload always holds |
| `Dispatch.CheckSend` | index.js:170-182 | 503 exactly when no ready session exists, checked before the body; 400 exactly when the session is ready but `numbers` is not a non-empty array or `message` is not a string; the 503 error names the user |
| `Dispatch.ResultFor` | index.js:186-205 | a result keeps the number as given. A non-string is skipped with "Invalid number format". A string is sent if its send resolved, or failed with the error text if it threw |
| `Dispatch.Outbox` | index.js:186-201 | the sends of a batch, in order: at most one per number, each carrying the request's message to an id ending in "@c.us" |
| `Dispatch.OutboxCalls` | index.js:186-201 | the number of sends is exactly the number of string numbers: all of them when every number is a string, none when no number is |
| `Dispatch.OutboxAt` | index.js:196-201 | the i-th string number is sent to its normalised chat id, at its rank among the string numbers |
| `Dispatch.SendBatch` | index.js:184-206 | the loop yields exactly one result per number, in input order, each as `ResultFor` says, and makes exactly the sends of `Outbox` |
| `Dispatch.HandleSend` | index.js:165-209 | gate then batch: 503/400 exactly as `CheckSend` answers, including the error naming the user, with nothing sent; otherwise 200 with the user id and the batch's results and sends |
| `Dispatch.SendExample` | index.js:184-201 | for a ready session, ["abc@c.us", "1234"] passes the gate and sends to "abc@c.us" and "1234@c.us" |
| `Responses.RegisterPageFor` | index.js:139-157 | "already connected" exactly when ready; "QR not ready" exactly when not ready and the payload is null or empty; otherwise the QR page for that payload |
| `Responses.RegisterPageOfConsistent` | index.js:139-157 | a consistent session never shows a QR while ready, and shows its payload whenever it holds a non-empty one and is not ready |
| `Responses.LogoutResponseFor` | index.js:211-230 | 404 exactly for an absent user (the error names the user); 200 `logged_out` exactly when present and logout resolved; 500 with the error's text exactly when present and logout threw |
| `Responses.LogoutAnswerMatchesRegistry` | index.js:219-230 | the answer is "logged out" exactly when a present key is gone afterwards |
| `Gateway.Registry.constructor` | index.js:55 | the registry starts empty and valid |
| `Gateway.Registry.Register` | index.js:57-158 | the new state is `Sessions.Register` of the old (create only when absent), the invariant is kept, and the page is chosen from the entry now under the key |
| `Gateway.Registry.OnQr` | index.js:73-76 | the two field writes of the `qr` listener give `Apply(Qr)` of the old state and restore the invariant |
| `Gateway.Registry.OnReady` | index.js:78-82 | the two field writes of the `ready` listener give `Apply(Ready)` of the old state and restore the invariant |
| `Gateway.Registry.OnDisconnected` | index.js:88-134 | the `disconnected` listener yields `Apply(Disconnected)` of the old state and keeps the invariant |
| `Gateway.Registry.Send` | index.js:165-209 | `/send` against the registry: 503 exactly when the user has no ready entry, with the error "Client not ready for <userId>"; then 400 on a bad body with the fixed body error; else 200 with one result per number. The registry is not modified |
| `Gateway.Registry.Logout` | index.js:211-231 | the new state is `Sessions.Logout` of the old (delete only after a successful logout); the answer is `LogoutResponseFor` of the old presence and the outcome |
| `PlainObjectLookup.LookupAsWritten` | index.js:60 | a plain-object lookup finds own keys, and also finds the members inherited from `Object.prototype` when the key is absent |
| `PlainObjectLookup.RegisterAsWritten` | index.js:60-157 | register as written yields the model's registry exactly unless the user id is an absent inherited name; then nothing is created and the page is "QR not ready" |
| `PlainObjectLookup.LogoutAsWritten` | index.js:211-230 | logout as written leaves the same registry as the model; it answers 500 for a failed logout and for an absent inherited name, and 404 only for other absent ids |
| `PlainObjectLookup.AsWrittenAgreesElsewhere` | index.js:60-71 | apart from inherited names, register and logout as written agree with the model |
| `PlainObjectLookup.InheritedNameNeverRegisters` | index.js:60-71 | as written, registering an inherited name such as "constructor" never creates a session and always answers "QR not ready" |
| `PlainObjectLookup.LogoutOfConstructor` | index.js:213-230 | as written, logging out the unknown user "constructor" answers 500 instead of 404 |

## Findings

| source | as written | input that shows it | evidently intended | confidence | as-written member | corrected member |
|---|---|---|---|---|---|---|
| index.js:60 | `!clients[userId]` on a plain object is false for inherited names, so no session is created and the page is always "QR not ready" | `GET /register/constructor` on an empty registry | a session is created for every absent user id (own-key lookup) | not executed; high | `PlainObjectLookup.InheritedNameNeverRegisters` | `Sessions.RegisterAbsent` |
| index.js:213-216 | `!clientState` is false for inherited names; `clientState.client.logout()` then throws a TypeError, and the answer is 500 | `GET /logout/constructor` on an empty registry | 404 "No session found" for every absent user id | not executed; high | `PlainObjectLookup.LogoutOfConstructor` | `Responses.LogoutResponseFor` |

## Left out

- Express routing, the `req`/`res` plumbing, JSON body parsing, `app.listen` and the `PORT` variable (index.js:1-7, 233-236) are HTTP I/O. Responses are modelled only as outcome datatypes.
- The `whatsapp-web.js` `Client`, `LocalAuth` and the puppeteer launch options (index.js:10-27, 61-69, 97-114) belong to a foreign library. A client is a handle. The outcomes of `sendMessage` and `logout` are inputs.
- `client.initialize()` (index.js:133, 136) is not awaited. Its only effect on the registry is the events it raises, and the model takes those as separate steps.
- `destroy()` (index.js:91-95): its failure is caught and only logged, so the model takes no outcome for it.
- `qrcode.toDataURL` and the literal HTML (index.js:149-157): image encoding is in a foreign library, so the model records only which of the three pages is chosen and which payload it encodes.
- The module-level client and its globals `qrData`/`ready` (index.js:9-48): no route reads them. Their `qr` and `ready` listeners follow the same transitions as `Sessions.Apply`.
- Async interleaving is not modelled. Each request or event is one atomic step. The gaps this hides include events arriving between the awaited `destroy()` and the reinstall, a disconnect landing during an awaited `logout()`, and a `/send` batch still running after a logout.
- Logging (`console.*`) is not modelled, and neither is the exact text a library error gives through `err.toString()`; that text is an input.
- JSON numbers in the request body are modelled as integers. They are only echoed back in `results`, so floating point never matters.
- JavaScript strings are UTF-16 code-unit sequences, while a Dafny `char` is a Unicode scalar value. `\D` and `endsWith("@c.us")` agree on every well-formed string, but a string holding a lone surrogate (which JSON such as `"\ud800"` can produce) cannot be represented in the model.
- `Dispatch.SendBatch`, `Dispatch.HandleSend`, `Gateway.Registry.Send`: the send outcomes are given one per position of `numbers`. The outcome at the position of a non-string number is ignored, because that number is never sent.
