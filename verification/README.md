# Hash-Chat-2 in Dafny

A model of the core of Hash-Chat-2, a chat app where a room is addressed by
the SHA-256 hash of a secret phrase. It has three parts.

- **The server** (`server.js`) is module `ChatServer`. Class `Server` holds the
  two in-memory dictionaries. `rooms` maps a room id to its message history,
  kept to at most 100 messages with the oldest dropped first. `users` maps a
  socket id to `{username, roomId}`. The `joinRoom`, `chatMessage` and
  `disconnect` handlers are methods of the class, and each one keeps the
  invariant `Valid()`:
  - every history holds at most 100 messages;
  - every session's room has a history;
  - no stored message is authored by `System`;
  - every session name is a generated `Anonymous <adjective> <animal>` name.

  Everything the server emits goes into a ghost `log` of (target, payload)
  pairs. A target is either one socket or a whole room.
- **The crypto manager** (`public/crypto.js`) is module `CryptoManager`. Class
  `Manager` is the two-state machine over `cryptoKey` and `password`. It
  has:
  - `DeriveKey` (PBKDF2 with 100000 iterations of SHA-256, a salt made of
    the first 16 bytes of the phrase's digest, and a 256-bit AES-GCM key);
  - `Encrypt` and `Decrypt`, which fail with `KeyNotDerived` when no key
    is held, and turn every failure inside the decrypt `try` into
    `DecryptFailed`;
  - `ClearKey`;
  - the byte ↔ binary-string loops around `btoa`/`atob`.

  `Encrypt` and `Decrypt` are proved equal to the specification functions
  `EncryptResult` and `DecryptResult`. The round trip is proved about those
  two functions.
- **The client's pure helpers and handlers** (`public/client.js`) are module
  `ChatClient`. It covers:
  - `hashPhrase`'s lowercase, zero-padded hex rendering, with a parser
    proving it is injective;
  - `String.prototype.trim` with the ECMAScript whitespace set, and the
    trimmed-empty guards of the join and send handlers;
  - the system / own / other classification;
  - the shortened room id `substring(0, 12) + '...'`.

  Class `Client` holds the page fields the handlers read and write, and a
  ghost outbox of what the client emits.

The browser built-ins live in module `WebPlatform`. These are `TextEncoder`,
`TextDecoder`, `crypto.subtle.digest`, `importKey`+`deriveKey`, AES-GCM
`encrypt`/`decrypt`, `btoa` and `atob`. Each is a field of a `Platform`
record of functions, so they stay uninterpreted: a result proved here holds
for every choice of them. Two facts of their standards sit in the types: a
SHA-256 digest (`Digest`) has 32 bytes (FIPS 180-4), and `atob` returns a
binary string (`BinaryString`, every code below 256). The other facts enter
only as named premises, and only where a lemma needs one:
- `Base64RoundTrips` is section 4 of RFC 4648: `atob` undoes `btoa` on every
  binary string;
- `AesGcmRoundTrips` is NIST SP 800-38D: decryption under the same key and
  12-byte IV returns every plaintext of at most 2^36 - 32 bytes, GCM's limit
  (section 5.2.1.1);
- `Utf8RoundTrips` is UTF-8 decoding undoing encoding, except that
  `TextDecoder` drops one leading byte order mark (U+FEFF), as the Encoding
  Standard's UTF-8 decode does.

The random inputs and the clock are parameters:
- the two word indices, typed to lie within the word lists;
- the 12 random IV bytes;
- the ISO-8601 timestamp, an opaque string.

What the code does, and so what the model does:
- `joinRoom` takes only a room id. It always generates a name; the code has
  no client-chosen name.
- A chat message is stored verbatim as `text`. The code has no message kind
  (text / image / encrypted) and no normalisation.
- The code has no typing-presence events and no multi-room controller.
- `client.js` never calls the crypto manager: chat text is sent in the clear.

## Model

| member | source | states |
|---|---|---|
| `ChatServer.GenerateUsername` | server.js:18-25 | the name is `"Anonymous " + adjective + " " + animal` for an adjective and an animal of the two fixed lists; it starts with `"Anonymous "` and is never `"System"` |
| `ChatServer.Pushed` | server.js:66-70 | push then at most one shift: below 100 the history becomes `old + [m]`; at exactly 100 it becomes `old[1..] + [m]`, evicting the oldest; the bound of 100 is kept; the new message is last |
| `ChatServer.PushedAllKeepsLatest` | server.js:66-70 | after any number of messages, a history that started within the bound is exactly the latest 100 of all messages, oldest first |
| `ChatServer.HundredAndFirstEvictsFirst` | server.js:66-70 | pushing 101 messages into a new room leaves 100, starting with the second message |
| `ChatServer.AsWrittenJoinLeavesSessionWithoutRoom` | server.js:34-39 | with the lookup as written, a join to room `"constructor"` registers a session whose room has no history |
| `ChatServer.EnsureRoomAsWritten` | server.js:37-39 | the lookup as written: for a name inherited from `Object.prototype` the map is left as it was, even when that room has no history; for any other name it behaves like the own-key check |
| `ChatServer.EnsureRoom` | server.js:37-39 | an empty history is created only when the room has none; an existing room's history is untouched; afterwards the room exists |
| `ChatServer.JoinKeepsRoomsCoverUsers` | server.js:34-39 | replacing or adding one session and ensuring its room keeps every session's room id a key of `rooms` |
| `ChatServer.JoinKeepsInvariants` | server.js:30-51 | a join with a generated name keeps every history within 100 messages, every session's room a key of `rooms`, no "System" message stored and every name generated |
| `ChatServer.Server.constructor` | server.js:14-15 | both dictionaries start empty and nothing has been emitted |
| `ChatServer.Server.JoinRoom` | server.js:30-53 | `users[socket]` becomes `{generated name, roomId}`, replacing any prior entry, with other sockets untouched; the room's history is created only when absent; the socket is sent the history and its name, then the room gets a System "has joined the chat" notice, which is not stored; the invariant is kept |
| `ChatServer.Server.ChatMessage` | server.js:55-75 | from a socket with no session: nothing changes and nothing is emitted; otherwise the message `{user: session name, text: payload verbatim, timestamp}` is pushed to the session's room history with the bound of 100 kept, the same message is broadcast to that room, and `users` is untouched |
| `ChatServer.Server.Disconnect` | server.js:77-87 | with a session: one System "has left the chat" notice goes to its room and exactly that socket's entry is removed; without one: no change and no emit; `rooms` is never touched |
| `CryptoManager.SaltFor` | public/crypto.js:22-25 | the salt has 16 bytes and is a prefix of the phrase's 32-byte SHA-256 digest |
| `CryptoManager.EncryptResult` | public/crypto.js:61-87 | without a key the result is the `KeyNotDerived` error and nothing else; with a key it succeeds, and its IV field is the base64 of the 12 IV bytes |
| `CryptoManager.DecryptResult` | public/crypto.js:95-122 | without a key: `KeyNotDerived`; with a key every failure is the single `DecryptFailed`; it succeeds exactly when both inputs are valid base64 and AES-GCM accepts them |
| `CryptoManager.BytesOfBinaryOf` | public/crypto.js:128-132 | turning bytes into a binary string keeps the length, and reading it back returns the bytes |
| `CryptoManager.BinaryOfBytesOf` | public/crypto.js:140-145 | for a binary string (codes below 256) the byte loop keeps the length and is the inverse of the string loop |
| `CryptoManager.DecryptUndoesEncrypt` | public/crypto.js:61-122 | on a platform whose base64, AES-GCM and UTF-8 follow their standards, decrypting what `encrypt` produced under the same key gives back the plaintext with one leading U+FEFF removed, for every plaintext whose UTF-8 is within GCM's length limit; a plaintext not starting with U+FEFF comes back exactly |
| `CryptoManager.LeadingBomIsLost` | public/crypto.js:115-117 | on a standard platform, the message `"\uFEFFhi"` decrypts to `"hi"`: the leading byte order mark is lost on the round trip |
| `CryptoManager.SamePhraseDecrypts` | public/crypto.js:17-122 | a client that derives its key from the same phrase decrypts another client's message, for every plaintext within GCM's length limit, up to the leading U+FEFF `TextDecoder` drops |
| `CryptoManager.RejectedPayloadFails` | public/crypto.js:100-121 | when AES-GCM rejects the payload (wrong phrase, tampering), the result is the decryption error with its fixed message, never another plaintext |
| `CryptoManager.Manager.IsReady` | public/crypto.js:151-153 | in any state the invariant holds in, true exactly when a phrase is held (the body tests for a key) |
| `CryptoManager.Manager.constructor` | public/crypto.js:7-10 | a fresh manager holds neither key nor phrase and is not ready |
| `CryptoManager.Manager.DeriveKey` | public/crypto.js:17-54 | from either state: `password` becomes the phrase and the manager is ready with the key PBKDF2 gives for that phrase (`KeyFor`), a function of the phrase alone |
| `CryptoManager.Manager.Encrypt` | public/crypto.js:61-87 | the result equals `EncryptResult` for the current key, the IV bytes and the plaintext |
| `CryptoManager.Manager.Decrypt` | public/crypto.js:95-122 | the result equals `DecryptResult` for the current key and the two base64 inputs |
| `CryptoManager.Manager.ArrayBufferToBase64` | public/crypto.js:127-134 | the result is `btoa` of the string whose length is the byte count and whose i-th char code is `bytes[i]` |
| `CryptoManager.Manager.Base64ToArrayBuffer` | public/crypto.js:139-146 | when `atob` throws there is no buffer; otherwise the buffer has the binary string's length and `bytes[i]` is its i-th char code modulo 256 |
| `CryptoManager.Manager.ClearKey` | public/crypto.js:158-161 | both key and phrase become null, so the manager is not ready |
| `CryptoManager.IndependentClientsAgree` | public/crypto.js:17-54 | two separate managers that derive from the same phrase get the same key |
| `ChatClient.ByteToHex` | public/client.js:21 | `b.toString(16).padStart(2, '0')` is the two digits for `b / 16` and `b % 16`, zero-padded |
| `ChatClient.HexOf` | public/client.js:20-22 | n bytes give 2n characters: the high digit of byte i at position 2i and the low digit at 2i+1 |
| `ChatClient.HexOfIsLowerHex` | public/client.js:21 | every output character is in `0-9a-f` |
| `ChatClient.ParseHexOfHex` | public/client.js:21 | reading each character pair back recovers the bytes |
| `ChatClient.HexOfParseHex` | public/client.js:21 | any string that parses is the hex rendering of its parse, so the parser is an exact inverse |
| `ChatClient.HexOfInjective` | public/client.js:21 | distinct byte sequences give distinct hex strings |
| `ChatClient.HashPhrase` | public/client.js:16-23 | the room id has 64 characters, two per byte of the 32-byte SHA-256 digest |
| `ChatClient.HashPhraseIsAddress` | public/client.js:16-23 | the room id has 64 lowercase hex characters and parses back to the phrase's SHA-256 digest |
| `ChatClient.SameAddressSameDigest` | public/client.js:16-23 | two phrases share a room id only if their digests are equal |
| `ChatClient.TrimStart` | public/client.js:27 | removes a prefix made only of whitespace; what remains does not start with whitespace |
| `ChatClient.TrimEnd` | public/client.js:27 | removes a suffix made only of whitespace; what remains does not end with whitespace |
| `ChatClient.Trim` | public/client.js:27 | the result is no longer than the input and neither starts nor ends with whitespace |
| `ChatClient.TrimIsSlice` | public/client.js:27 | the result is the slice of the input starting at some offset `k`, and every character before `k` or after the slice is whitespace |
| `ChatClient.TrimEmptyIff` | public/client.js:27-28 | the trimmed input is empty exactly when every character is ECMAScript whitespace |
| `ChatClient.TrimIdempotent` | public/client.js:27 | the result of `trim()` has nothing left to trim: trimming it again changes nothing |
| `ChatClient.Classify` | public/client.js:84-92 | exclusive and exhaustive: System exactly when the author is `"System"`; own exactly when it is not and equals the current name; other otherwise |
| `ChatClient.Render` | public/client.js:80-106 | an entry has the classification and the message text; the author line is shown exactly for non-system messages and holds the author |
| `ChatClient.RenderAll` | public/client.js:65-68 | one entry per message, in array order |
| `ChatClient.ReplayedHistoryHasNoSystemNotes` | public/client.js:84-92 | a history stored by the server renders with no system notes, each entry showing its author |
| `ChatClient.DisplayRoomId` | public/client.js:41 | the header shows the first 12 characters, or the whole id if shorter, followed by `"..."` |
| `ChatClient.DisplayOfRoomAddress` | public/client.js:41 | for a room id from `hashPhrase`, the header has 15 characters: 12 hex digits and `"..."` |
| `ChatClient.Client.constructor` | public/client.js:13 | the client starts with empty name, inputs, header and transcript, having sent nothing |
| `ChatClient.Client.OnJoinClick` | public/client.js:26-42 | nothing happens when the trimmed phrase is empty; otherwise the client connects, emits `joinRoom` with the phrase's room id, and shows the shortened id |
| `ChatClient.Client.OnLeaveClick` | public/client.js:45-51 | disconnects, clears the phrase input and the transcript, and nothing else |
| `ChatClient.Client.OnSubmit` | public/client.js:54-62 | emits `chatMessage` with the trimmed text and clears the input only when the trimmed text is non-empty; otherwise nothing changes, and the input is not cleared |
| `ChatClient.Client.AddMessageToUI` | public/client.js:80-106 | appends exactly the entry `Render` gives for the current name |
| `ChatClient.Client.OnHistory` | public/client.js:65-69 | the transcript is replaced by the received messages, rendered in array order |
| `ChatClient.Client.OnJoined` | public/client.js:71-73 | the current name becomes the one the server assigned |
| `ChatClient.Client.OnMessage` | public/client.js:75-78 | appends the rendered message to the transcript |

## Findings

| source | as written | input that shows it | evidently intended | confidence | as-written member | corrected member |
|---|---|---|---|---|---|---|
| server.js:37-39 | `if (!rooms[roomId])` reads a property of a plain object. Names inherited from `Object.prototype` are truthy there, so no history is created for them. The `history` emit then carries the inherited value instead of a message array: for `"constructor"` or `"toString"` a function, which socket.io takes as an acknowledgement callback, so the client gets `history` with no array; for `"__proto__"` the object `{}`. A later `chatMessage` calls a `.push` that is not a function, which throws a `TypeError` | a socket emits `joinRoom` with room id `"constructor"` (or `"__proto__"`, `"toString"`, ...) | create the room whenever it has no history of its own (an own-key check, or a `Map`), so that every session's room exists | not executed; high for the JavaScript lookup semantics | `ChatServer.AsWrittenJoinLeavesSessionWithoutRoom` | `ChatServer.EnsureRoom` |

`Server.JoinRoom` uses the corrected `EnsureRoom`. A client built from
`client.js` always sends a 64-digit hex id, which is never one of these names.
Only a hand-crafted client reaches the case.

## Left out

- Transport: the socket.io connection, `socket.join`, room subscriptions and delivery of emits. Emits are a ghost log (server) or outbox (client) of target and payload.
- Express static serving, `server.listen`, `PORT`, the `console.log` calls and the `console.error` in `decrypt`'s catch block: process plumbing and logging, with no effect on state or results.
- `Math.random` and `new Date().toISOString()`: the draws are parameters (an index within each word list; the timestamp as an opaque string).
- SubtleCrypto, `crypto.getRandomValues`, `TextEncoder`/`TextDecoder`, `btoa`/`atob`: uninterpreted functions of `WebPlatform.Platform`. IV uniqueness is a property of the random source and is not stated.
- Asynchrony: every handler and every manager method is one atomic step. In the source, `deriveKey` sets `password` before its first `await`. If a primitive rejected, `password` would be set with no key. The invariant `Manager.Valid` belongs to the atomic model.
- `ChatServer.Server.JoinRoom`: room ids are modelled as strings. The source accepts any value the client sends; `rooms[roomId]` converts the key to a string (so `5` and `"5"` share one history, and every object id becomes `"[object Object]"`) while `users` keeps the raw value. This key conversion is not captured. `client.js` only ever sends a hex string.
- `CryptoManager.EncryptResult`: the platform's `encrypt` is total, so the rejection SubtleCrypto gives for a plaintext above GCM's limit of 2^36 - 32 bytes is not modelled; `DecryptUndoesEncrypt` and `SamePhraseDecrypts` require the UTF-8 plaintext to be within that limit.
- `ChatServer.Server.ChatMessage`: the payload is modelled as a string. The source stores any JSON value the client sends verbatim, and `client.js` only ever sends strings.
- Strings are sequences of Unicode scalar values, while JavaScript strings are UTF-16 code units. The two agree on the binary strings the byte loops handle (codes below 256). Elsewhere `charCodeAt` of an astral character is not modelled.
- DOM presentation: element creation, CSS classes, page show/hide, scrolling, focus. The transcript is a sequence of entries (class, author line, text), and the page is the fields the handlers read and write.
- `socket.auth = { roomId }` in the join handler: transport data that the server ignores.
- Message kinds, typing presence, a client-chosen name, a multi-room controller and a stale-decrypt generation counter: the code has none of them, so the model has none.
