# Locker kiosk session flow, modelled in Dafny

This project models the request handlers of a demonstration locker kiosk. The
kiosk is a small web application, and a visitor reaches a locker by one of two
paths:

- the public path: choose a locker and tap an RFID card;
- the private path: choose a locker, enter a PIN, then pass a fingerprint step.

All state lives in the visitor's session, under four keys: `public_flow`,
`selected_locker`, `rfid_authenticated` and `pin_verified`. Six of the seven
handlers update these keys: `home` flushes them all, and the other five read
some and set or remove some. `private_auth` neither reads nor writes any key;
it only redirects. Each handler either renders a page with a small context or
redirects to a named route.

The model has three layers:

- `LockerFlow` (locker_flow.dfy) is the specification. Each handler is a
  function from the session (`Flags`, with one `Option` per key) and the
  request to the new session and the response. `Dispatch` is the URL table
  and `Run` plays a visit: a sequence of requests against one session.
- `LockerSession` (session.dfy) models the handlers as they run. The class
  `Session` has the four keys as fields, and each handler is a method that
  updates them in place. Each method states its effect on each field, and
  proves that it agrees with the matching step function.
- `FlowProperties` (flow_properties.dfy) proves what the handlers promise. It
  covers each handler's effect, short handler sequences, and invariants of
  whole visits. The invariants are that the session stays well formed, and
  that each accepted PIN opens the fingerprint page at most once.

Supporting modules:

- `PinText` (pin_text.dfy) models Python's `str.strip()` and the demo PIN
  `"1234"`. It proves that the PIN check accepts exactly the demo PIN with only
  whitespace around it.
- `Scenarios` (scenarios.dfy) drives whole visits through the `Session` class
  and states the exact responses each visit produces.

Python truthiness is modelled exactly:

- A boolean key counts as set only when it is present and true.
- A string counts as given only when it is present and non-empty.

A stored locker number is any non-empty string. The code never checks that it
lies between 1 and 16, and the model does not assume it.

The code decides a few cases that a description of the flow might state
differently. The model follows the code:

- A `pin_entry` POST with neither `locker_number` nor `pin` is checked as an
  empty PIN. It therefore renders the form with the incorrect-PIN notice, not
  the bare form (views.py:90-101).
- After an accepted PIN, `pin_entry` redirects to `fingerprint_login` whatever
  the value of `next` (views.py:96-99). `PinEntryIgnoresNext` proves that
  `next` never changes the outcome.
- `select_locker` stores a locker only when `public_flow` is set. So a locker
  posted to it before the RFID page has been visited is ignored
  (views.py:17-29). `Scenarios.PublicFlow` shows this.

## Model

| member | source | states |
|---|---|---|
| PinText.TrimStart | views.py:90 | the result is a suffix of the input, everything removed is whitespace, and the result does not start with whitespace |
| PinText.TrimEnd | views.py:90 | the result is a prefix of the input, everything removed is whitespace, and the result does not end with whitespace |
| PinText.TrimStartPadded | views.py:90 | any run of leading whitespace in front of a text that starts with a non-space is removed exactly |
| PinText.TrimEndPadded | views.py:90 | any run of trailing whitespace after a text that ends with a non-space is removed exactly |
| PinText.StripToPinIsPadded | views.py:90-93 | an input that strips to the demo PIN is the demo PIN with only whitespace before and after it |
| PinText.PaddedPinStrips | views.py:90-93 | the demo PIN with only whitespace around it strips to the demo PIN |
| PinText.StripMatchesPin | views.py:90-93 | the PIN comparison succeeds if and only if the submitted text is the demo PIN padded with whitespace |
| PinText.IsSpace | views.py:90 | no contract of its own: the code points Python's `str.isspace()` accepts, which `strip()` removes; TrimStart, TrimEnd and StripMatchesPin state what stripping them does |
| PinText.Strip | views.py:90 | no contract of its own: Python's `str.strip()` as TrimStart then TrimEnd; StripTrimsBothEnds states its result and StripMatchesPin characterises it against the demo PIN |
| PinText.StripTrimsBothEnds | views.py:90 | the stripped text has no whitespace at either end, is no longer than the input, and is empty exactly when the input is all whitespace |
| LockerFlow.Range | views.py:14 | Python's `range(lo, hi)`: `hi - lo` integers (none if `hi <= lo`) counting up from `lo`; so the selection page lists lockers 1 to 16 in order |
| LockerFlow.HomeStep | views.py:4-7 | whatever the session held, the new one is well formed; HomeClearsSession states that it is empty and the index page is rendered |
| LockerFlow.SelectLockerStep | views.py:9-29 | only `selected_locker` can change, and a well-formed session stays well formed; SelectLockerEffect states when it changes and which response is given |
| LockerFlow.RfidLoginStep | views.py:31-49 | `selected_locker` and `pin_verified` are kept, and a well-formed session stays well formed; RfidLoginEffect states the rest |
| LockerFlow.OpenLockerStep | views.py:51-63 | `pin_verified` is kept, and a well-formed session stays well formed; OpenLockerTwice states the render and the cleared keys |
| LockerFlow.PrivateAuthStep | views.py:65-72 | the session is left exactly as it was |
| LockerFlow.NextTarget | views.py:81 | the value comes from the query or the form; it is a non-empty string exactly when one of the two gives one; PinEntryIgnoresNext shows it never changes the outcome |
| LockerFlow.PinEntryStep | views.py:74-103 | `public_flow` and `rfid_authenticated` are kept, and a well-formed session stays well formed; PinEntryStoresLocker, PinEntryChecksPin and PinEntryGetShowsForm state the three branches |
| LockerFlow.FingerprintLoginStep | views.py:105-123 | only `pin_verified` can change; the fingerprint page is rendered exactly when `pin_verified` is set, and rendering it removes the flag; a well-formed session stays well formed |
| LockerFlow.Dispatch | urls.py:7-15 | the URL table binds each route name to its handler; every handler keeps a well-formed session well formed |
| LockerFlow.Run | urls.py:7-15 | a visit yields one response per request, and the first one is the response of the handler its route names |
| LockerSession.Session.Home | views.py:4-7 | all four keys are absent afterwards and the index page is rendered |
| LockerSession.Session.SelectLocker | views.py:9-29 | only a public-flow POST with a non-empty locker number stores it, then redirects to open_locker if the RFID flag is set and to rfid_login otherwise; any other call renders lockers 1 to 16 with `is_public`, which is false unless the public flow is set; no other key changes |
| LockerSession.Session.RfidLogin | views.py:31-49 | `public_flow` becomes true on every call; a POST also sets the RFID flag, then redirects to open_locker if a locker is selected and to select_locker otherwise; a GET renders the current selection |
| LockerSession.Session.OpenLocker | views.py:51-63 | renders the locker selected before the call, which may be absent; removes the RFID flag, the locker and the public flow; leaves `pin_verified` alone |
| LockerSession.Session.PrivateAuth | views.py:65-72 | redirects to select_locker and changes nothing |
| LockerSession.Session.PinEntry | views.py:74-103 | a POST with a locker stores it and re-renders the form showing it; a POST without one sets `pin_verified` and redirects to the fingerprint route exactly when the stripped PIN is the demo PIN, and otherwise shows the error notice with the session unchanged; other methods only render the form |
| LockerSession.Session.FingerprintLogin | views.py:105-123 | without a verified PIN, redirects to pin_entry with `next=fingerprint` and changes nothing; with one, removes `pin_verified` and renders the fingerprint page |
| FlowProperties.HomeClearsSession | views.py:4-7 | whatever the session held, home leaves none of the four keys and renders the index page |
| FlowProperties.HomeForgetsHistory | views.py:4-7 | a visit that starts at home behaves the same whatever the session held before |
| FlowProperties.SelectLockerEffect | views.py:14-29 | select_locker redirects if and only if it is a public-flow POST with a locker; the session changes only then, and only in `selected_locker`; otherwise the selection page gets `is_public` false when the public flow is absent |
| FlowProperties.RfidLoginEffect | views.py:31-49 | rfid_login sets the public flow on every call, sets the RFID flag only on POST, keeps the locker and `pin_verified`, and chooses its redirect or render by the current selection |
| FlowProperties.OpenLockerTwice | views.py:57-63 | open_locker renders the prior selection and keeps `pin_verified`; a second call renders no locker and leaves the session as the first left it |
| FlowProperties.OpenLockerEndsPublicFlow | views.py:52-61 | after opening, select_locker never stores a locker and an RFID tap redirects to select_locker, so the flow must be restarted |
| FlowProperties.PrivateAuthEffect | views.py:65-72 | private_auth redirects to select_locker and leaves the session as it is |
| FlowProperties.PinEntryStoresLocker | views.py:83-88 | a POST with a locker number stores it and re-renders the form showing it; no PIN is checked and `pin_verified` is kept |
| FlowProperties.PinEntryChecksPin | views.py:90-103 | a POST without a locker number is accepted if and only if the PIN is the demo PIN padded with whitespace; acceptance sets only `pin_verified`, refusal changes nothing and shows the error notice, and a missing PIN is refused |
| FlowProperties.PinEntryGetShowsForm | views.py:83-103 | a request other than POST renders the bare PIN form and changes nothing |
| FlowProperties.PinEntryIgnoresNext | views.py:80-99 | the `next` parameter, from the query or the form, never changes the session or the response |
| FlowProperties.FingerprintGate | views.py:105-123 | without a verified PIN, fingerprint_login redirects to pin_entry with `next=fingerprint` and changes nothing; with one, it removes only `pin_verified` and renders |
| FlowProperties.PinAccepted | views.py:90-99 | a POST without a locker whose stripped PIN is the demo PIN sets only `pin_verified` and redirects to the fingerprint route |
| FlowProperties.FingerprintSingleUse | views.py:90-123 | an accepted PIN followed by two fingerprint requests gives a redirect to the fingerprint route, a render, and then a redirect back to the PIN form, with `pin_verified` consumed and nothing else changed |
| FlowProperties.RunKeepsWellFormed | views.py:4-123 | a whole visit keeps the session well formed: boolean keys stored only as true, a locker only as a non-empty string, and the RFID flag only while the public flow is set |
| FlowProperties.ReachableIsWellFormed | views.py:34-61 | every session reachable from an empty one is well formed; in particular the RFID flag is present only together with the public flow |
| FlowProperties.FingerprintRedirectIsPinAcceptance | views.py:93-99 | a request is answered with a redirect to the fingerprint route if and only if it is a `pin_entry` POST without a locker whose stripped PIN is the demo PIN |
| FlowProperties.DispatchFingerprintBalance | views.py:93-123 | no single request renders the fingerprint page without consuming a verified PIN |
| FlowProperties.FingerprintRendersBounded | views.py:93-123 | over any visit, fingerprint renders plus a still-unspent verified PIN never exceed the redirects to the fingerprint route (which are the accepted PINs, by FingerprintRedirectIsPinAcceptance) plus a PIN verified at the start |
| FlowProperties.FingerprintNeedsPin | views.py:113-123 | starting without a verified PIN, a visit renders the fingerprint page at most as often as it redirects to the fingerprint route, that is, as often as it accepts a PIN |
| Scenarios.PrivateFlow | views.py:65-123 | the private path runs as follows: private entry, then selection, then locker 7 posted to the PIN form, then the demo PIN, then the fingerprint page; a second fingerprint request redirects to `pin/?next=fingerprint` |
| Scenarios.WrongPinFlow | views.py:90-123 | for any PIN that does not strip to the demo PIN, that PIN and then a POST with no PIN each show the error notice; the fingerprint route still redirects to the PIN form and the session stays empty |
| Scenarios.PublicFlow | views.py:4-63 | the public path runs as follows: home, then selection (not public yet), then the RFID page, then a locker posted and the card tapped; the locker opens, and a second open shows no locker and leaves an empty session |
| Scenarios.TapFirstFlow | views.py:19-63 | after tapping the card with nothing selected, selecting a locker redirects straight to opening it |

## Left out

- Template rendering and HTML are not modelled. A render is the page's name plus the context values the handler passes.
- Django's message framework is not modelled. The queued "Incorrect PIN" message becomes an `incorrectPin` flag on the PIN page it is rendered with.
- The session's backing store, cookies, and the session-key rotation that `flush()` performs are not modelled. The session is just its four keys, and keys the kiosk never uses are ignored.
- `fingerprint_login` builds its redirect by rewriting `request.path`. This is modelled as a redirect to the `pin_entry` route with `next = "fingerprint"`. The URL table maps that route to `pin/`, and a path without `fingerprint/` is not modelled.
- A request's method is GET, POST or any other method (`Other`, which never stands for POST). The handlers only tell POST from the rest. Which routes accept which methods is left to the web server and is not modelled.
- Concurrency between requests, and between sessions, is not modelled. Each request is handled alone against one session.
- `str.strip()` is modelled by the code points that Python's `str.isspace()` accepts. Other text processing, such as normalisation or encodings, does not occur in the handlers.
