/**
 * The credential-submission controller of the `Login` view: the form state,
 * the cookie jar that remembers the e-mail address, the session store that
 * receives the authentication token, and the navigation made on success.
 *
 * The asynchronous request is split into two steps: `Submit` validates the
 * form and, when the form is complete, yields the pending `Request` (the
 * credentials and the "remember id" flag as they were when the user
 * submitted); `Respond` then applies the backend's outcome to that request.
 */
module Login {
  import opened Wrappers
  import opened Lines

  /** Line shown when the e-mail field is empty ("please enter your e-mail"). */
  const EmailMissing: string := "이메일을 입력해주세요"
  /** Line shown when the password field is empty ("please enter your password"). */
  const PasswordMissing: string := "비밀번호를 입력해주세요"
  /** Default argument of `showErrorMsg` ("an error occurred."). */
  const DefaultError: string := "오류가 발생하였습니다."

  /** Cookie that remembers the e-mail address. */
  const SaveIdKey: string := "saveId"
  /** Lifetime of the `saveId` cookie in seconds: 15 days, 1296000 seconds. */
  const SaveIdMaxAge: nat := 15 * 24 * 60 * 60
  /** Session-storage key that holds the authentication token. */
  const IsAuthorizedKey: string := "isAuthorized"
  /** Route navigated to after a successful login. */
  const HomeRoute: string := "/"

  /** A cookie as the cookie jar holds it: its value and its `maxAge` option, if any. */
  datatype Cookie = Cookie(value: string, maxAge: Option<nat>)

  /** The body handed to `loginUser`. */
  datatype Credentials = Credentials(email: string, password: string)

  /**
   * A request in flight: the credentials sent, and the value of the
   * "remember id" checkbox captured when the form was submitted.
   */
  datatype Request = Request(credentials: Credentials, isIdSave: bool)

  /** The backend's response body; each field may be absent. */
  datatype AuthResult = AuthResult(result: Option<string>, token: Option<string>, msg: Option<string>)

  /**
   * How the promise returned by `loginUser` settles: rejected, or resolved
   * with a response that may itself be missing (`None` stands for any falsy value).
   */
  datatype Outcome = Rejected | Resolved(res: Option<AuthResult>)

  /** What the response handler decides to do with an outcome. */
  datatype Verdict = Authorized(token: string) | Denied(message: string) | Failed

  /** A call of `navigate(to, { replace })`. */
  datatype Navigation = Navigation(to: string, replace: bool)

  /** JavaScript truthiness of an optional string: present and not empty. */
  predicate Truthy(s: Option<string>)
  {
    s.Some? && s.value != ""
  }

  /** The reference for the validation message: one line per missing field, e-mail first. */
  function MissingLines(email: string, password: string): (lines: seq<string>)
  {
    (if email == "" then [EmailMissing] else []) + (if password == "" then [PasswordMissing] else [])
  }

  /**
   * The error message `onSubmitHandler` accumulates: the e-mail line if the
   * e-mail is empty, then the password line if the password is empty,
   * preceded by '\n' only when something came before it.
   */
  function ValidationMessage(email: string, password: string): (m: string)
    ensures m == JoinLines(MissingLines(email, password))
    ensures m == "" <==> email != "" && password != ""
    ensures '\n' in m <==> email == "" && password == ""
  {
    var afterEmail := if email == "" then EmailMissing else "";
    var afterPassword :=
      if password == "" then afterEmail + (if afterEmail != "" then "\n" else "") + PasswordMissing
      else afterEmail;
    assert SingleLines(MissingLines(email, password));
    JoinLinesBreaks(MissingLines(email, password));
    afterPassword
  }

  /** The message of a failed validation splits into exactly the lines of the missing fields. */
  lemma ValidationMessageLines(email: string, password: string)
    requires email == "" || password == ""
    ensures Split(ValidationMessage(email, password)) == MissingLines(email, password)
  {
    assert SingleLines(MissingLines(email, password));
    SplitJoinLines(MissingLines(email, password));
  }

  /**
   * The dispatch of the `.then` and `.catch` handlers: a token on success, the
   * backend's message on failure, and the generic error for everything else.
   */
  function Classify(outcome: Outcome): (v: Verdict)
    ensures v.Authorized? <==>
      outcome.Resolved? && outcome.res.Some? &&
      outcome.res.value.result == Some("success") && Truthy(outcome.res.value.token)
    ensures v.Authorized? ==> Some(v.token) == outcome.res.value.token && v.token != ""
    ensures v.Denied? <==>
      outcome.Resolved? && outcome.res.Some? &&
      outcome.res.value.result == Some("fail") && Truthy(outcome.res.value.msg)
    ensures v.Denied? ==> Some(v.message) == outcome.res.value.msg && v.message != ""
  {
    match outcome
    case Rejected => Failed
    case Resolved(res) =>
      if res.Some? && Truthy(res.value.result) then
        var result := res.value.result.value;
        if result == "success" && Truthy(res.value.token) then Authorized(res.value.token.value)
        else if result == "fail" && Truthy(res.value.msg) then Denied(res.value.msg.value)
        else Failed
      else Failed
  }

  /** The mounted `Login` view together with the browser stores it touches. */
  class LoginForm {
    var email: string
    var password: string
    var isIdSave: bool
    var openAlert: bool
    var msg: string
    /** The cookie jar (`useCookies`). */
    var cookies: map<string, Cookie>
    /** `sessionStorage`. */
    var session: map<string, string>
    /** Every navigation made so far, oldest first. */
    var navigations: seq<Navigation>

    /**
     * Mounting the view over the given stores: the initial state, then the
     * mount effect, which pre-fills a remembered e-mail and ticks the checkbox.
     */
    constructor (cookieJar: map<string, Cookie>, sessionStorage: map<string, string>)
      ensures cookies == cookieJar && session == sessionStorage && navigations == []
      ensures password == "" && !openAlert && msg == ""
      ensures SaveIdKey in cookieJar ==> email == cookieJar[SaveIdKey].value && isIdSave
      ensures SaveIdKey !in cookieJar ==> email == "" && !isIdSave
    {
      email, password, openAlert, msg, isIdSave := "", "", false, "", false;
      cookies, session, navigations := cookieJar, sessionStorage, [];
      new;
      if SaveIdKey in cookies {
        email := cookies[SaveIdKey].value;
        isIdSave := true;
      }
    }

    method OnEmail(value: string)
      modifies this`email
      ensures email == value
    {
      email := value;
    }

    method OnPassword(value: string)
      modifies this`password
      ensures password == value
    {
      password := value;
    }

    method OnSaveId(checked: bool)
      modifies this`isIdSave
      ensures isIdSave == checked
    {
      isIdSave := checked;
    }

    /** Closing the alert hides it; the message stays as it was. */
    method OnCloseAlert()
      modifies this`openAlert
      ensures !openAlert && msg == old(msg)
    {
      openAlert := false;
    }

    /** Opens the alert with `err`, by default the generic error message. */
    method ShowErrorMsg(err: string := DefaultError)
      modifies this`openAlert, this`msg
      ensures openAlert && msg == err
    {
      openAlert := true;
      msg := err;
    }

    /**
     * What a submission does: an incomplete form opens the alert with the
     * validation message and sends nothing; a complete one clears the message,
     * leaves the alert as it was and sends the current e-mail and password.
     * The form fields and the stores are left alone either way.
     */
    twostate predicate Submitted(new req: Option<Request>)
      reads this
    {
      var m := ValidationMessage(email, password);
      email == old(email) && password == old(password) && isIdSave == old(isIdSave) &&
      cookies == old(cookies) && session == old(session) && navigations == old(navigations) &&
      if m != "" then
        req.None? && openAlert && msg == m
      else
        req == Some(Request(Credentials(email, password), isIdSave)) &&
        msg == "" && openAlert == old(openAlert)
    }

    method Submit() returns (req: Option<Request>)
      modifies this`msg, this`openAlert
      ensures Submitted(req)
      ensures req.None? ==> openAlert && msg != ""
    {
      msg := "";
      var errorMsg := ValidationMessage(email, password);
      if errorMsg != "" {
        ShowErrorMsg(errorMsg);
        return None;
      }
      req := Some(Request(Credentials(email, password), isIdSave));
    }

    /** A key press inside the form: Enter submits, any other key does nothing. */
    method OnKeyDown(key: string) returns (req: Option<Request>)
      modifies this`msg, this`openAlert
      ensures key == "Enter" ==> Submitted(req)
      ensures key != "Enter" ==> req.None? && msg == old(msg) && openAlert == old(openAlert)
    {
      if key == "Enter" {
        req := Submit();
      } else {
        req := None;
      }
    }

    /**
     * The settled request `req`. On success the token goes to session storage,
     * the submitted e-mail is remembered for 15 days or forgotten, and the view
     * navigates to the home route replacing the history entry, without touching
     * the alert. `storageThrows` says whether `sessionStorage.setItem` throws
     * (storage blocked or full): the `.catch` handler then receives the
     * exception, so nothing is written, there is no navigation and the default
     * alert opens. Every other outcome opens the alert with the backend's
     * message or the default one, and neither store nor the history changes.
     */
    method Respond(req: Request, outcome: Outcome, storageThrows: bool)
      modifies this`openAlert, this`msg, this`cookies, this`session, this`navigations
      ensures Classify(outcome).Authorized? && !storageThrows ==>
        session == old(session)[IsAuthorizedKey := Classify(outcome).token] &&
        cookies == (if req.isIdSave then old(cookies)[SaveIdKey := Cookie(req.credentials.email, Some(SaveIdMaxAge))]
                    else old(cookies) - {SaveIdKey}) &&
        navigations == old(navigations) + [Navigation(HomeRoute, true)] &&
        openAlert == old(openAlert) && msg == old(msg)
      ensures !Classify(outcome).Authorized? || storageThrows ==>
        session == old(session) && cookies == old(cookies) && navigations == old(navigations) &&
        openAlert && msg != "" &&
        msg == (if Classify(outcome).Denied? then Classify(outcome).message else DefaultError)
    {
      match Classify(outcome)
      case Authorized(token) =>
        if storageThrows {
          ShowErrorMsg();
          return;
        }
        session := session[IsAuthorizedKey := token];
        if req.isIdSave {
          cookies := cookies[SaveIdKey := Cookie(req.credentials.email, Some(SaveIdMaxAge))];
        } else {
          cookies := cookies - {SaveIdKey};
        }
        navigations := navigations + [Navigation(HomeRoute, true)];
      case Denied(message) =>
        ShowErrorMsg(message);
      case Failed =>
        ShowErrorMsg();
    }
  }

  /**
   * A remembered user logs in: the mount pre-fills the e-mail, an Enter press
   * with an empty password is refused, and once the password is typed the
   * backend's success stores the token, renews the cookie and navigates to `/`.
   */
  method RememberedLoginScenario()
  {
    var form := new LoginForm(map[SaveIdKey := Cookie("a@b.com", None)], map[]);
    assert form.email == "a@b.com" && form.isIdSave;
    var req := form.OnKeyDown("Enter");
    assert req.None? && form.openAlert && form.msg == PasswordMissing;
    form.OnCloseAlert();
    form.OnPassword("pw");
    req := form.OnKeyDown("Enter");
    assert req == Some(Request(Credentials("a@b.com", "pw"), true));
    form.Respond(req.value, Resolved(Some(AuthResult(Some("success"), Some("T"), None))), false);
    assert form.session[IsAuthorizedKey] == "T";
    assert form.cookies[SaveIdKey] == Cookie("a@b.com", Some(1296000));
    assert form.navigations == [Navigation("/", true)];
    assert !form.openAlert;
  }
}
