# Login form credential flow

A Dafny model of the `Login` view of the figure client: the form state
(e-mail, password, the "remember id" checkbox, the alert and its message),
the cookie jar that remembers the e-mail under `saveId`, the session storage
that receives the token under `isAuthorized`, and the navigation to `/` made
after a successful login.

- `wrappers.dfy` — `Option`, for values that JavaScript may leave `undefined`.
- `lines.dfy` — joining lines with `'\n'` and splitting a message back into its
  lines, with the round trip `Split(JoinLines(lines)) == lines` for one or
  more lines, none containing a line break.
- `login.dfy` — module `Login`: the message constants, the request and
  response datatypes, the validator (`ValidationMessage`), the response
  dispatch (`Classify`) and the class `LoginForm`, whose methods are the
  view's handlers and whose fields are the view state and the two stores.

The asynchronous call to `loginUser` is modelled as two steps. `Submit`
validates the form; when the form is complete it returns the pending
`Request`, which holds the credentials and the checkbox value as they were at
submit time. `Respond(req, outcome, storageThrows)` then applies the settled
promise. The `outcome` is an input: `Rejected`, or `Resolved` with a response body that may
be missing. Each field of the body (`result`, `token`, `msg`) may be absent.
JavaScript truthiness of these fields is `Truthy`: present and non-empty.

What is proved:
- The validation message is one line per missing field, e-mail line first,
  joined by `'\n'`. It is empty exactly when both fields are filled. It holds
  a line break exactly when both are empty. A failed validation's message
  splits back into the missing-field lines.
- `Classify` gives `Authorized(token)` exactly for `result == "success"` with
  a non-empty token. It gives `Denied(msg)` exactly for `result == "fail"` with
  a non-empty message. Every other outcome, a rejection included, is `Failed`.
- Each handler's new state is stated in full. Its `modifies` frame fixes what
  it leaves alone.
- On success the session holds the token and the cookie holds the submitted
  e-mail with `maxAge` 1296000 (15 days), or is removed when the box was
  unticked. One navigation to `/` with `replace` is appended, and the alert is
  untouched. Only the token and the e-mail are ever written to a store, never
  the password.
- When the session-storage write throws, or on any other outcome, the alert
  opens with a non-empty message. Neither store nor the navigation history
  changes.

The generic message is `오류가 발생하였습니다.`, the default argument of
`showErrorMsg` (`src/components/login/Login.tsx:63`). An empty token or
message counts as absent, because the handler tests `!!res.token` and
`!!res.msg` (`Login.tsx:96`, `Login.tsx:106`). The `.catch` handler is chained
after the `.then` handler, so it also receives an exception thrown by
`sessionStorage.setItem` inside the success branch; `Respond` takes whether
that write throws as an input, and then opens the default alert without
writing anything or navigating. An open alert does not imply a non-empty
message: `onSubmitHandler` clears the message before validating and leaves an
open alert open. So the model states only that every alert it opens carries a
non-empty message.

## Model

| member | source | states |
|---|---|---|
| Login.ValidationMessage | src/components/login/Login.tsx:75-78 | the accumulated error message is the missing-field lines (e-mail first) joined by '\n'; it is empty iff both fields are filled, and contains '\n' iff both are empty |
| Login.ValidationMessageLines | src/components/login/Login.tsx:77-78 | a failed validation's message splits on '\n' into exactly one line per missing field, e-mail line first |
| Lines.SplitJoinLines | src/components/login/Login.tsx:78 | lines without line breaks, joined with '\n', split back into the same lines |
| Login.Classify | src/components/login/Login.tsx:92-117 | success with a non-empty token iff result is "success" and the token is truthy; failure with the backend message iff result is "fail" and msg is truthy; every other outcome, a rejected promise included, is the generic error |
| Login.LoginForm.constructor | src/components/login/Login.tsx:34-46 | mounting starts with empty fields and a closed alert; a `saveId` cookie pre-fills the e-mail and ticks the checkbox, otherwise the e-mail stays empty and the box unticked; the stores are those given |
| Login.LoginForm.OnEmail | src/components/login/Login.tsx:50-52 | the e-mail becomes the input value; nothing else changes |
| Login.LoginForm.OnPassword | src/components/login/Login.tsx:54-56 | the password becomes the input value; nothing else changes |
| Login.LoginForm.OnCloseAlert | src/components/login/Login.tsx:58 | the alert closes and the message is unchanged |
| Login.LoginForm.OnSaveId | src/components/login/Login.tsx:60 | the checkbox flag becomes the checked value; nothing else changes |
| Login.LoginForm.ShowErrorMsg | src/components/login/Login.tsx:63-66 | the alert opens with exactly the given message |
| Login.LoginForm.OnKeyDown | src/components/login/Login.tsx:68-72 | Enter does exactly what Submit does; any other key changes nothing and sends nothing |
| Login.LoginForm.Submit | src/components/login/Login.tsx:74-91 | an incomplete form opens the alert with the validation message and sends nothing; a complete form clears the message, keeps the alert as it was and sends exactly the current e-mail, password and checkbox value; fields and stores are unchanged |
| Login.LoginForm.Respond | src/components/login/Login.tsx:92-117 | success writes the token to `isAuthorized`, sets `saveId` to the submitted e-mail with maxAge 1296000 or removes it, navigates to "/" with replace, and leaves the alert alone; when the session-storage write throws, or on any other outcome, the alert opens with the backend message or the default one and no store and no navigation changes |

## Left out

- Rendering: the JSX tree, the theme, the layout, the animation and the icons
  of `Login.tsx`, and the `Alert` and `Modal` components, which only pass
  their props to a dialog.
- The route table of `src/App.tsx`.
- `loginUser`: its implementation is not part of this model. Its result is the
  `Outcome` input of `Respond`.
- Overlapping submissions: nothing stops a second submit while one is
  pending. Each `Respond` applies one outcome to the request it answers; the
  order in which several outcomes arrive is not modelled.
- React's batching and closures: `Respond` uses the e-mail and checkbox value
  captured in the `Request`, not the form's values when the promise settles.
- Cookie expiry: the cookie records its `maxAge`, but time does not pass in the
  model, so it never expires. Cookie options other than `maxAge` are not
  modelled.
- `console.log` calls, and the social-login buttons, which have no handlers.
- Login.Classify: assumes `result`, `token` and `msg` are strings when present.
  JavaScript's loose `==` on a non-string `result`, and a non-string `token`
  or `msg` passed on unchanged to `setItem` or `showErrorMsg`, are not modelled.
- Login.LoginForm.Respond: only `sessionStorage.setItem` may throw; `setCookie`,
  `removeCookie` and `navigate` are assumed not to throw, so the model never
  reaches `.catch` after the token has been stored.
