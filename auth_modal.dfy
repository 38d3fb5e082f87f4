/** The login / sign-up modal: form validity, which endpoint a submission
    goes to, what is sent, and which message a reply produces. */
module AuthModal {
  import opened Common

  datatype Tab = Login | SignUp

  /** The tab's label, which is also the text `activeTab` holds. */
  function TabLabel(tab: Tab): string
  {
    match tab
    case Login => "Login"
    case SignUp => "Sign Up"
  }

  const RegisterEndpoint: string := "/api/users/register"
  const LoginEndpoint: string := "/api/users/login"
  const DuplicateFallback: string := "Username already exists."
  const CredentialsFallback: string := "Invalid credentials."
  const GenericFallback: string := "An error occurred."
  const NetworkErrorMessage: string := "Network error — please try again."

  /** `isFormValid`: checked on the username as typed, before trimming;
      `length` counts UTF-16 code units. */
  function IsFormValid(username: string, password: string): (valid: bool)
    ensures valid <==> |username| > 0 && Utf16Length(password) >= 6
    ensures |password| >= 6 ==> valid == (|username| > 0)
    ensures |password| < 3 ==> !valid
  {
    Utf16Length(username) > 0 && Utf16Length(password) >= 6
  }

  /** Three characters outside the Basic Multilingual Plane make a password
      of length 6, which the form accepts. */
  lemma AstralPasswordIsLongEnough()
    ensures var p := "\U{1F600}\U{1F600}\U{1F600}";
      |p| == 3 && Utf16Length(p) == 6 && IsFormValid("a", p)
  {
    var p := "\U{1F600}\U{1F600}\U{1F600}";
    assert p[1..][1..][1..] == [];
  }

  /** The sign-up tab posts to the register route, every other to login. */
  function Endpoint(tab: Tab): (e: string)
    ensures e == RegisterEndpoint <==> tab == SignUp
    ensures e == LoginEndpoint <==> tab == Login
  {
    if TabLabel(tab) == "Sign Up" then RegisterEndpoint else LoginEndpoint
  }

  /** `String.prototype.trim`'s white space and line terminators. */
  predicate IsJsWhitespace(c: char)
  {
    var n := c as int;
    n == 0x09 || n == 0x0A || n == 0x0B || n == 0x0C || n == 0x0D || n == 0x20
    || n == 0xA0 || n == 0x1680 || (0x2000 <= n <= 0x200A) || n == 0x2028 || n == 0x2029
    || n == 0x202F || n == 0x205F || n == 0x3000 || n == 0xFEFF
  }

  /** How many white-space characters `s` starts with. */
  function LeadingSpace(s: string): (n: nat)
    ensures n <= |s|
    ensures forall i :: 0 <= i < n ==> IsJsWhitespace(s[i])
    ensures n < |s| ==> !IsJsWhitespace(s[n])
  {
    if s == [] || !IsJsWhitespace(s[0]) then 0 else 1 + LeadingSpace(s[1..])
  }

  /** How many white-space characters `s` ends with. */
  function TrailingSpace(s: string): (n: nat)
    ensures n <= |s|
    ensures forall i :: |s| - n <= i < |s| ==> IsJsWhitespace(s[i])
    ensures n < |s| ==> !IsJsWhitespace(s[|s| - 1 - n])
  {
    if s == [] || !IsJsWhitespace(s[|s| - 1]) then 0 else 1 + TrailingSpace(s[..|s| - 1])
  }

  /** `r` is `s` with the `a` characters before it and all after it being white space. */
  predicate TrimmedAt(s: string, r: string, a: int)
  {
    && 0 <= a <= |s| - |r|
    && r == s[a..a + |r|]
    && (forall i :: 0 <= i < a ==> IsJsWhitespace(s[i]))
    && (forall i :: a + |r| <= i < |s| ==> IsJsWhitespace(s[i]))
  }

  /** `username.trim()`: white space is removed at both ends and nowhere else. */
  function Trim(s: string): (r: string)
    ensures r == [] || (!IsJsWhitespace(r[0]) && !IsJsWhitespace(r[|r| - 1]))
    ensures TrimmedAt(s, r, LeadingSpace(s))
  {
    var a := LeadingSpace(s);
    var b := TrailingSpace(s[a..]);
    assert forall i :: a + (|s| - a - b) <= i < |s| ==> IsJsWhitespace(s[i]) by {
      forall i | a + (|s| - a - b) <= i < |s|
        ensures IsJsWhitespace(s[i])
      {
        assert s[i] == s[a..][i - a];
      }
    }
    assert |s| - a - b > 0 ==> s[a..|s| - b][|s| - a - b - 1] == s[a..][|s[a..]| - 1 - b];
    s[a..|s| - b]
  }

  /** A string with no white space at either end is its own trim. */
  lemma TrimFixed(s: string)
    requires s == [] || (!IsJsWhitespace(s[0]) && !IsJsWhitespace(s[|s| - 1]))
    ensures Trim(s) == s
  {
  }

  lemma TrimIdempotent(s: string)
    ensures Trim(Trim(s)) == Trim(s)
  {
    TrimFixed(Trim(s));
  }

  /** A username of spaces makes a valid form and is sent as the empty name. */
  lemma BlankNamePassesValidity()
    ensures IsFormValid("   ", "secret") && Trim("   ") == ""
  {
    assert LeadingSpace("   ") == 1 + LeadingSpace("  ") == 2 + LeadingSpace(" ") == 3;
  }

  /** A non-empty string counts only when non-empty (`data.message || ...`). */
  predicate Given(s: Option<string>)
  {
    s.Some? && s.value != ""
  }

  /** `data.message || `${activeTab} successful.``. */
  function SuccessMessage(tab: Tab, serverMessage: Option<string>): (m: string)
    ensures Given(serverMessage) ==> m == serverMessage.value
    ensures !Given(serverMessage) ==> m == TabLabel(tab) + " successful."
    ensures m != ""
  {
    if Given(serverMessage) then serverMessage.value else TabLabel(tab) + " successful."
  }

  /** The error table: the server's `error` if it sent one, otherwise a
      fallback chosen by status. */
  function ErrorMessage(status: int, serverError: Option<string>): (m: string)
    ensures Given(serverError) ==> m == serverError.value
    ensures !Given(serverError) && status == 409 ==> m == DuplicateFallback
    ensures !Given(serverError) && (status == 401 || status == 403) ==> m == CredentialsFallback
    ensures !Given(serverError) && status != 409 && status != 401 && status != 403 ==> m == GenericFallback
    ensures m != ""
  {
    var fallback :=
      if status == 409 then DuplicateFallback
      else if status == 401 || status == 403 then CredentialsFallback
      else GenericFallback;
    if Given(serverError) then serverError.value else fallback
  }

  /** What a submission sends, and the tab it was made from. */
  datatype Submission = Submission(tab: Tab, endpoint: string, username: string, password: string)

  /** What comes back: a reply with its status (`ok` is 2xx) and the body's
      `message` / `error` fields, or a failed `fetch`. */
  datatype Reply =
    | Answered(status: int, message: Option<string>, error: Option<string>)
    | NetworkFailure

  predicate Ok(status: int)
  {
    200 <= status < 300
  }

  /** The message a reply leaves on screen. */
  function ReplyMessage(s: Submission, reply: Reply): (m: string)
    ensures reply.NetworkFailure? ==> m == NetworkErrorMessage
    ensures reply.Answered? && Ok(reply.status) ==> m == SuccessMessage(s.tab, reply.message)
    ensures reply.Answered? && !Ok(reply.status) ==> m == ErrorMessage(reply.status, reply.error)
  {
    match reply
    case NetworkFailure => NetworkErrorMessage
    case Answered(status, message, error) =>
      if Ok(status) then SuccessMessage(s.tab, message) else ErrorMessage(status, error)
  }

  class Form {
    var activeTab: Tab
    var username: string
    var password: string
    var message: string
    var loading: bool

    constructor ()
      ensures activeTab == Login && username == "" && password == "" && message == "" && !loading
    {
      activeTab, username, password, message, loading := Login, "", "", "", false;
    }

    /** The submit button is disabled. */
    function SubmitDisabled(): (disabled: bool)
      reads this
      ensures !disabled <==> |username| > 0 && Utf16Length(password) >= 6 && !loading
    {
      !IsFormValid(username, password) || loading
    }

    method SelectTab(tab: Tab)
      modifies this
      ensures activeTab == tab
      ensures username == old(username) && password == old(password)
      ensures message == old(message) && loading == old(loading)
    {
      activeTab := tab;
    }

    /** The synchronous start of `handleAuthAction`: set `loading`, clear the
        message, and build the request from the trimmed username and the
        password exactly as typed. */
    method Submit() returns (s: Submission)
      modifies this
      ensures s == Submission(old(activeTab), Endpoint(old(activeTab)), Trim(old(username)), old(password))
      ensures loading && message == ""
      ensures activeTab == old(activeTab) && username == old(username) && password == old(password)
    {
      loading := true;
      message := "";
      s := Submission(activeTab, Endpoint(activeTab), Trim(username), password);
    }

    /** The rest of `handleAuthAction` once the reply is in: a success clears
        the fields; any other outcome keeps them; `loading` ends either way. */
    method Receive(s: Submission, reply: Reply)
      modifies this
      ensures message == ReplyMessage(s, reply)
      ensures !loading && activeTab == old(activeTab)
      ensures reply.Answered? && Ok(reply.status) ==> username == "" && password == ""
      ensures !(reply.Answered? && Ok(reply.status)) ==> username == old(username) && password == old(password)
    {
      message := ReplyMessage(s, reply);
      if reply.Answered? && Ok(reply.status) {
        username, password := "", "";
      }
      loading := false;
    }

    /** The timer that hides the message. */
    method ClearMessage()
      modifies this
      ensures message == ""
      ensures activeTab == old(activeTab) && username == old(username) && password == old(password)
      ensures loading == old(loading)
    {
      message := "";
    }

    /** `handleClose`: back to the login tab with empty fields and no message. */
    method HandleClose()
      modifies this
      ensures activeTab == Login && username == "" && password == "" && message == ""
      ensures loading == old(loading)
      ensures SubmitDisabled()
    {
      activeTab, username, password, message := Login, "", "", "";
    }
  }
}
