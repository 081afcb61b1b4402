# Login form: password rules and submit lifecycle

This project models the one component of a client-side login page. The page
keeps an email, a password, a `loading` flag and an `error` message. It checks
the password against three rules in a fixed order. It then sends the
credentials in one HTTP request. It shows a success notice or a failure
message, and it clears `loading` when the request settles.

The files do not include each other, so verify them together with
`dafny verify regex.dfy validation.dfy login_form.dfy`.

Files:

- `regex.dfy`, module `Regex`: a bracketed character class (`[0-9]`,
  `[!@#…]`) and the unanchored `test` of a one-class pattern. `test` is a left-to-right
  scan, proved equal to "some character belongs to the class".
- `validation.dfy`, module `Validation`: the validator `Validate`, its four
  messages, and the reference predicates `LengthOk`, `HasDigit` and
  `HasSpecial` in which its contract is stated.
- `login_form.dfy`, module `LoginForm`: the state (`FormState`), the handlers
  as pure specification functions (`Change`, `Submit`, built from the phases
  `Begin`, `Send`, `Resolve` and `Finish` of the `try`/`catch`/`finally`),
  a run over a sequence of user events with the invariant it keeps, and the
  class `App` whose fields the handlers update in place. Each method of `App`
  is proved to produce exactly the state its specification function gives.

The request is an `Outcome` parameter: a response with an HTTP status, or an
exception thrown by `fetch`. A response counts as ok when its status lies in
200 to 299, as the Fetch Standard defines `Response.ok`. Each request sent is
appended to a `requests` log. The log records the body (the form) and the
`loading` and `error` values at the moment of sending. The success toast is
appended to a `notifications` log.

A rejected password only sets the error (src/App.jsx:24). The early `return`
comes before the `try`, so the `finally` does not run and `loading` is left as
it was.

## Model

| member | source | states |
|---|---|---|
| Regex.RegexTest | src/App.jsx:13-14 | the regex `test` of a one-class pattern is true exactly when some character of the string is in the class |
| Validation.Validate | src/App.jsx:11-16 | the result is one of four fixed strings; the length message exactly when the length is outside 6 to 18; the number message exactly when the length is fine and no digit occurs; the special-character message exactly when length and digit are fine and none of the twenty special characters occurs; the empty string exactly when all three rules hold |
| Validation.DigitTestIsHasDigit | src/App.jsx:13 | `/[0-9]/.test(p)` holds exactly when some character of `p` is in `0`..`9` |
| Validation.SpecialTestIsHasSpecial | src/App.jsx:14 | the special-character regex test holds on `p` exactly when some character of `p` is one of the twenty listed characters |
| Validation.LiteralClassMatches | src/App.jsx:14 | a class of literal characters matches a character exactly when that character is listed in it |
| Validation.DigitClassIsDigits | src/App.jsx:13 | the class `[0-9]` matches exactly the ASCII digits |
| Validation.SpecialClassIsSpecialChars | src/App.jsx:14 | the special class matches exactly the set of twenty special characters |
| Validation.ValidateDependsOnCharacters | src/App.jsx:11-16 | rearranging the characters of a password does not change the verdict, because the rules test only length and membership |
| Validation.ValidateTooShort | src/App.jsx:12 | "abc12" gets the length message |
| Validation.ValidateNoDigit | src/App.jsx:13 | "abcdef!" gets the number message |
| Validation.ValidateNoSpecial | src/App.jsx:14 | "abcdef1" gets the special-character message |
| Validation.ValidateAccepts | src/App.jsx:11-16 | "abc123!" is accepted with the empty string |
| LoginForm.Set | src/App.jsx:19 | the named field takes the value and the other field keeps its value |
| LoginForm.ResponseOk | src/App.jsx:34 | `res.ok`: a thrown exception is never ok; a response is ok exactly when its status lies in 200 to 299 |
| LoginForm.SuccessNotice | src/App.jsx:36 | the toast text is `Logged in as: ` followed by the email, so the email can be read back from it |
| LoginForm.Begin | src/App.jsx:26-27 | the error is cleared and `loading` is set; nothing else changes |
| LoginForm.Send | src/App.jsx:29-33 | exactly one request is appended, carrying the form and the current `loading` and `error`; earlier requests and the rest of the state are unchanged |
| LoginForm.Resolve | src/App.jsx:34-39 | on an ok response the form is reset and one notice naming the form's email is added, with the error untouched; otherwise the error becomes the failure message and the form and notices are kept; `loading` and the requests are unchanged either way |
| LoginForm.Finish | src/App.jsx:40-42 | `loading` becomes false; nothing else changes |
| LoginForm.Initial | src/App.jsx:7-9 | the form starts with both fields empty, `loading` false, no error, nothing shown and nothing sent |
| LoginForm.Change | src/App.jsx:18-19 | the named field takes the value, the other field keeps its value, and `loading`, `error` and the logs are unchanged |
| LoginForm.ChangeIdempotent | src/App.jsx:18-19 | typing the same value into the same field twice leaves the state of typing it once |
| LoginForm.Submit | src/App.jsx:21-43 | on a rejected password the error becomes the validator's message, no request is sent, and the form and `loading` are unchanged; on an accepted one exactly one request carrying the form is sent while `loading` is true and the error is empty, and `loading` ends false; on an ok response one notice `Logged in as: <email>` is added, the form is reset to empty and the error stays empty; on a non-ok status or a thrown exception the error is the failure message, the form is kept and nothing is shown |
| LoginForm.FailuresCollapse | src/App.jsx:34-39 | a non-ok status and a thrown exception give the same final state |
| LoginForm.RejectedSubmitIsStable | src/App.jsx:23-24 | submitting again after a rejected password gives the same state, whatever the request would have returned |
| LoginForm.InitialSettled | src/App.jsx:7-9 | the initial state satisfies the between-events invariant |
| LoginForm.ChangeKeepsSettled | src/App.jsx:18-19 | typing into a field keeps the between-events invariant |
| LoginForm.SubmitKeepsSettled | src/App.jsx:21-43 | a submission keeps the between-events invariant: the new request carries an accepted password and was sent with `loading` set and the error cleared, and every notice, old or new, names the email of some sent request |
| LoginForm.StepKeepsSettled | src/App.jsx:18-43 | one typing or submit event keeps the invariant: `loading` false, the error one of the five messages, every sent request carried an accepted password and was sent with `loading` set and the error cleared, and every notice names the email of a sent request |
| LoginForm.RunKeepsSettled | src/App.jsx:18-43 | any sequence of events from a settled state leaves the form settled |
| LoginForm.RunOnlyAppends | src/App.jsx:24-41 | events only append to the request and notification logs |
| LoginForm.App.constructor | src/App.jsx:7-9 | a new component holds the initial state |
| LoginForm.App.HandleChange | src/App.jsx:18-19 | updating one field in place yields exactly `Change` of the old state |
| LoginForm.App.HandleSubmit | src/App.jsx:21-43 | the in-place sequence of validation, `setError('')`, `setLoading(true)`, the request, the success or failure branch and the `finally` yields exactly `Submit` of the old state, and `loading` stays false if it was false |

## Left out

- The HTTP request (src/App.jsx:29-33): it goes through the browser's `fetch`. It is replaced by the `Outcome` argument. The JSON body is the form itself, recorded in the request log. The fixed URL and headers are not modelled.
- The toast library (src/App.jsx:36, 92): modelled only as the appended notice text. The display position and the auto-close time are not modelled.
- Rendering (src/App.jsx:45-95): the markup, the CSS classes, the logo and the inline error paragraph are presentation only.
- The disabled submit button (src/App.jsx:84): not a precondition of `Submit`. Instead `RunKeepsSettled` shows that `loading` is false whenever an event arrives, in this model, where a submission is one atomic step. So the button is never disabled at that point in the model. In the program, typing events do arrive during the `await`, while `loading` is true and the button is disabled.
- Interleaving during the `await` (src/App.jsx:29): the model runs a submission as one atomic step. It does not model typing or a second submission while a request is outstanding. It also does not model a request that never settles, which would leave `loading` true.
- React's batching of state updates: each `setForm`, `setLoading` and `setError` call is modelled as an immediate assignment, in program order.
- `e.preventDefault()` (src/App.jsx:22) and the browser's own `type="email"` and `required` checks (src/App.jsx:63-78): browser behaviour outside the component.
- An exception thrown by `toast.success` itself, which would reach the `catch`: third-party code that is not part of this model.
- Input names other than `email` and `password`: the form has only these two inputs, so `Field` has two values.
- Password length: JavaScript's `.length` counts UTF-16 code units, while the model counts the characters of a `seq<char>`. They differ only for characters outside the Basic Multilingual Plane.
- vite.config.js: build configuration, no logic.
