# QRCodeHandler of cookie-butler, modelled in Dafny

The cookie-butler page logs a user in to Quark, Aliyun Drive ("ali"), UC or Bilibili
by QR code and hands back the resulting credential. Its `QRCodeHandler` class does two things,
and this project models both:

* **Cookie normalisation.**
  * `formatCookiesToList` splits a raw `Set-Cookie` header into entries. It does not break at
    the comma inside an `Expires=` date.
  * `formatCookie` keeps each entry's `name=value` part, the text before the first `"; "`.
    It joins the kept parts with `;`.
* **The login state machine.** `platformStates` holds one slot per platform. The slot is null or
  holds the session record that a successful `startScan` stored. `checkStatus` polls the platform,
  maps its answer to NEW / SCANED / CONFIRMED / CANCELED / EXPIRED, and keeps or clears the slot.
  The rules differ per platform.

Files:

* `JsString.dfy` covers the JavaScript string primitives used: `trim`, a `toLowerCase` as far
  as it matters for comparing with `"expires="`, `split` on one character, and `join`.
* `Cookies.dfy` holds both cookie routines.
  * Each is an imperative method with a loop, mirroring the handler line by line.
  * Each is proved equal to a specification function: `CookieList` and `Credential`.
  * Lemmas about those functions cover the splitting rule, the order and trimming of entries,
    and the behaviour of formatCookie.
* `Login.dfy` holds the state machine as pure transitions `(slot, relay replies) -> (slot', result or error)`.
  * It covers each `_start*Scan` and `_check*Status`, and the `startScan` / `checkStatus` switch
    over the map of slots.
  * The contracts of the check transitions state each platform's failures (a failed or malformed
    reply throws and clears the slot), its unknown statuses, and the credential a confirmed login returns.
  * Its lemmas cover the initial state, the clearing rules, well-formedness of the slots, the
    array-valued header quirks of Quark and UC, and the independence of the platforms over any
    sequence of calls.
* `Handler.dfy` holds `class QRCodeHandler` with the `platformStates` map as a field.
  * Every start and check method updates its own slot in place, step by step as the handler does.
  * Each is proved to end in the state and result the Login transition gives.
  * `Valid()` says every platform has a slot and each slot holds a session of its own platform's kind.
    Every method preserves it.

A relay call is not I/O here. Every reply the handler reads is an input value of the step, in one of
these forms: a failed request or malformed body, or the fields actually read. The other inputs are
the QR renderer, the generated request id, and Bilibili's URL decoding. A thrown exception is the
result `Err`.

## Model

| member | source | states |
|---|---|---|
| JsString.TrimEmptyIffBlank | apps/cookie-butler/static/js/core.js:76 | `trim()` yields the empty (falsy) string exactly when every character is white space |
| JsString.TrimIsTrimmed | apps/cookie-butler/static/js/core.js:69-80 | what `trim()` returns has no white space at either end |
| JsString.TrimIsInfix | apps/cookie-butler/static/js/core.js:69-80 | what `trim()` returns is a contiguous infix of its input, with only white space before and after it |
| JsString.TrimIdempotent | apps/cookie-butler/static/js/core.js:89 | trimming twice is trimming once, so re-trimming the already trimmed entries changes nothing |
| Cookies.FormatCookiesToList | apps/cookie-butler/static/js/core.js:50-81 | the character-by-character scan with the `inExpires` flag returns exactly `CookieList(cookieString)` |
| Cookies.InExpiresAfterIff | apps/cookie-butler/static/js/core.js:59-64 | after index j the flag is raised iff a case-insensitive `expires=` starts at or before j with no `;` from there up to j |
| Cookies.CommaSplitsOnlyOutsideExpires | apps/cookie-butler/static/js/core.js:66-73 | a comma inside an expires value is appended to the current entry; any other comma closes the entry and starts an empty one |
| Cookies.PiecesJoin | apps/cookie-butler/static/js/core.js:55-73 | the entries joined back with the splitting commas give the input: nothing else is removed and the order is kept |
| Cookies.CookieListEntries | apps/cookie-butler/static/js/core.js:67-80 | every returned element is trimmed and is the trimmed k-th entry; only the final entry can be missing |
| Cookies.CookieListWithoutExpires | apps/cookie-butler/static/js/core.js:55-80 | without any case-insensitive `expires=`, the result is the input split at every `,` with each piece trimmed; middle pieces are kept even when empty, and the last is dropped only when blank. The pieces hold no `,` and, joined with `,`, give back the input |
| Cookies.CookieListOfOneEntry | apps/cookie-butler/static/js/core.js:55-80 | a header whose every comma lies inside an expires value (so also one without commas) gives its trimmed text as the one entry, or nothing when blank |
| Cookies.MainPart | apps/cookie-butler/static/js/core.js:89-90 | `cookie.split('; ')[0]` is the prefix of the entry before its first `"; "`, or the whole entry when there is none |
| Cookies.MainPartBeforeFirst | apps/cookie-butler/static/js/core.js:89-90 | when the first `"; "` is at index i, the kept part is exactly the first i characters |
| Cookies.FormatCookie | apps/cookie-butler/static/js/core.js:83-94 | the loop over the entries returns exactly `Credential(cookies)` |
| Cookies.CredentialOfSingleAndEmpty | apps/cookie-butler/static/js/core.js:84-85 | a non-array argument behaves as a one-element array, and an empty array yields `""` |
| Cookies.MainPartsOfOne | apps/cookie-butler/static/js/core.js:87-91 | a blank or non-string entry contributes nothing; any other entry contributes its part before the first `"; "` |
| Cookies.MainPartsConcat | apps/cookie-butler/static/js/core.js:87-91 | the contributions of a list are the contributions of its parts, in order |
| Cookies.EntryContributesPrefix | apps/cookie-butler/static/js/core.js:88-90 | an entry that starts with text and has its first `"; "` at i contributes exactly its first i characters |
| Cookies.CredentialSplitsBack | apps/cookie-butler/static/js/core.js:93 | when at least one entry is kept and no kept part holds `;`, splitting the credential at `;` gives back the kept parts, so the join loses nothing |
| Cookies.CredentialOfPair | apps/cookie-butler/static/js/core.js:87-93 | two entries contributing x and y give `x;y` |
| Cookies.CredentialOfTwoEntries | apps/cookie-butler/static/js/core.js:83-94 | `["foo=1; Path=/", "bar=2; HttpOnly"]` gives `foo=1;bar=2` |
| Cookies.CredentialOfOneString | apps/cookie-butler/static/js/core.js:84-93 | the bare string `"a=b; Path=/"` gives `a=b` |
| Login.PlatformOf | apps/cookie-butler/static/js/core.js:96-109 | a name selects a platform only if it is that platform's identifier |
| Login.PlatformOfName | apps/cookie-butler/static/js/core.js:111-124 | every platform's identifier selects that platform, so the switch reaches all four |
| Login.QuarkArrayHeaderKeepsFirstCookie | apps/cookie-butler/static/js/core.js:208-210 | with an array-valued header whose only commas are inside Expires values (so Expires dates are allowed), only the first cookie's `name=value` reaches the credential, when the first cookie starts with a non-space character and carries an attribute (its first `"; "` is followed by a non-space character) |
| Login.QuarkCookieConcatenates | apps/cookie-butler/static/js/core.js:208-228 | Quark's combined cookie (the first credential, then `;` and the second only when that is non-empty) is the credential of both headers' entries together, when the first header yields a part and the second header yields no part or a non-empty credential |
| Login.UcArrayHeaderFails | apps/cookie-butler/static/js/core.js:440-441 | UC passes the header to formatCookiesToList unjoined: with a session and a service ticket at ticket 2000000, a non-empty array-valued header throws and clears the slot, while an empty array confirms with the empty cookie |
| Login.StartTokenLogin | apps/cookie-butler/static/js/core.js:127-164 | the start succeeds iff a token came back and its QR code rendered. It then stores {token, request_id} and returns NEW with the rendered code. Otherwise it leaves the slot null and throws |
| Login.StartAli | apps/cookie-butler/static/js/core.js:246-283 | the start succeeds iff generate answered and its codeContent rendered. It then stores {ck, t} and returns NEW. Otherwise the slot is null and the call throws |
| Login.StartBili | apps/cookie-butler/static/js/core.js:461-497 | the start succeeds iff the outer code is 0, data is present and its url rendered. It then stores {qrcode_key} and returns NEW. Otherwise (including a non-zero code) the slot is null and the call throws |
| Login.Start | apps/cookie-butler/static/js/core.js:96-109 | every platform's start stores a session exactly when it succeeds, with status NEW and a record of that platform's kind |
| Login.CheckQuark | apps/cookie-butler/static/js/core.js:166-243 | a null slot gives EXPIRED. A failed ticket request throws and clears the slot. At 2000000 the login is CONFIRMED with the combined cookie iff the service ticket and both Set-Cookie headers are there; otherwise it throws and clears the slot. 50004002 gives EXPIRED; other codes give NEW. The slot is cleared iff the call fails or reports EXPIRED, so a confirmed login keeps it |
| Login.CheckUC | apps/cookie-butler/static/js/core.js:395-458 | the same status mapping as Quark with UC's single cookie: a failed ticket request throws and clears the slot; at 2000000 the login is CONFIRMED iff the service ticket and a usable header are there, and throws and clears otherwise. The slot is cleared iff the call fails or reports EXPIRED or CONFIRMED |
| Login.CheckAli | apps/cookie-butler/static/js/core.js:285-350 | a failed query throws and clears the slot. Missing content gives EXPIRED and keeps the slot, and so does any status other than the four named ones. SCANED, NEW and CANCELED come out iff the query says so. CONFIRMED yields the refresh token, or EXPIRED without bizExt, or an error when it cannot be decoded. The slot is cleared iff the call fails or reports CANCELED |
| Login.CheckBili | apps/cookie-butler/static/js/core.js:499-550 | a failed poll, a non-zero outer code or missing data throws and clears the slot. Inner 86101 gives NEW and 86090 gives SCANED (iff). Inner 0 gives CONFIRMED with "" when there is no url, CONFIRMED with the url's decoded query when decoding succeeds, and throws and clears the slot when it does not. Any other inner code gives EXPIRED and clears the slot. The slot is cleared iff the call fails or reports EXPIRED |
| Login.Check | apps/cookie-butler/static/js/core.js:111-124 | for every platform a check on a null slot gives EXPIRED without writing; a check never creates a session, and a failed check leaves the slot null |
| Login.StartScan | apps/cookie-butler/static/js/core.js:96-109 | an unsupported name throws and changes nothing; otherwise only the selected platform's slot is written, with the start's record |
| Login.CheckStatus | apps/cookie-butler/static/js/core.js:111-124 | an unsupported name throws and changes nothing; otherwise only the selected platform's slot is written |
| Login.InitialCheckExpires | apps/cookie-butler/static/js/core.js:22-29 | the initial slots are well formed, and checking any platform right after construction reports EXPIRED and changes nothing |
| Login.StepsKeepWellFormed | apps/cookie-butler/static/js/core.js:150-153 | every start and check keeps each slot null or holding its own platform's kind of record |
| Login.ClearedSlotExpires | apps/cookie-butler/static/js/core.js:167-170 | after a check that cleared a slot, the next check of that platform reports EXPIRED whatever the relay answers |
| Login.PendingTokenLoginKeepsSession | apps/cookie-butler/static/js/core.js:233-238 | after a successful Quark or UC start, a pending ticket status reports NEW and keeps the stored session |
| Login.RunIsolation | apps/cookie-butler/static/js/core.js:96-124 | over any sequence of calls, a platform's slot is what the calls naming that platform make of it alone |
| Handler.QRCodeHandler.constructor | apps/cookie-butler/static/js/core.js:22-29 | all four slots start null |
| Handler.QRCodeHandler.StartScan | apps/cookie-butler/static/js/core.js:96-109 | the new state and result are those of `Login.StartScan` on the old state |
| Handler.QRCodeHandler.CheckStatus | apps/cookie-butler/static/js/core.js:111-124 | the new state and result are those of `Login.CheckStatus` on the old state |
| Handler.QRCodeHandler.StartQuarkScan | apps/cookie-butler/static/js/core.js:127-164 | only the Quark slot changes, to the slot of `Start(Quark, w)`, and the result is that transition's |
| Handler.QRCodeHandler.StartAliScan | apps/cookie-butler/static/js/core.js:246-283 | only the Ali slot changes, as `Start(Ali, w)` says |
| Handler.QRCodeHandler.StartUCScan | apps/cookie-butler/static/js/core.js:353-393 | only the UC slot changes, as `Start(UC, w)` says |
| Handler.QRCodeHandler.StartBiliScan | apps/cookie-butler/static/js/core.js:461-497 | only the Bili slot changes, as `Start(Bili, w)` says |
| Handler.QRCodeHandler.FormatHeader | apps/cookie-butler/static/js/core.js:209-210 | running formatCookiesToList and then formatCookie on a header text yields that text's credential |
| Handler.QRCodeHandler.CheckQuarkStatus | apps/cookie-butler/static/js/core.js:166-243 | only the Quark slot changes, as `CheckQuark` says on the old slot |
| Handler.QRCodeHandler.CheckAliStatus | apps/cookie-butler/static/js/core.js:285-350 | only the Ali slot changes, as `CheckAli` says on the old slot |
| Handler.QRCodeHandler.CheckUCStatus | apps/cookie-butler/static/js/core.js:395-458 | only the UC slot changes, as `CheckUC` says on the old slot |
| Handler.QRCodeHandler.CheckBiliStatus | apps/cookie-butler/static/js/core.js:499-550 | only the Bili slot changes, as `CheckBili` says on the old slot |

## Left out

- The relay itself is not modelled: the POST to `/http`, the upstream URLs, request parameters and the `HEADERS` constant. Each reply is an input value holding only the fields the handler reads.
- `_generateQRCode` (QRCode.toDataURL) is an input function from the encoded text to a data URL, or to nothing when it rejects.
- `generateUUID` is not modelled; the request id is an arbitrary input string.
- `Date.now()` is not modelled; it only feeds a request parameter.
- Ali's `JSON.parse(atob(bizExt))` is abstracted to three outcomes: no bizExt, undecodable, or a refresh token. A `refreshToken` that is missing from a decodable bizExt is an opaque string, not `undefined`.
- Bilibili's `decodeURIComponent(new URL(url).search.slice(1))` is an input function. It returns nothing when parsing or decoding throws.
- Error messages, `async`/`await` and `console.log` are not modelled; a thrown error is `Err`.
- Only the shapes the relay produces are modelled:
  - a `set-cookie` header that is missing, a string, or an array of strings;
  - status fields that are integers;
  - `qrCodeStatus` as a string.
  Other JavaScript values (numbers as headers, non-string array elements) are not modelled.
- JsString.ToLower: only ASCII capitals are lower-cased. This is exact for the one comparison made, against `"expires="`: no other character lower-cases to one of its letters without changing the length, and a length change makes the comparison fail either way.
- Strings are sequences of Unicode code points, not UTF-16 code units. A surrogate pair therefore counts as one character where JavaScript counts two. This does not affect the scan, which only looks for ASCII characters.
- Concurrency between overlapping asynchronous calls on one handler is not modelled: each call runs to completion before the next.
