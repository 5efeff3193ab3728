/**
 * The login gate: a code field that upper-cases what is typed, and a button that sends the
 * code to the remote endpoint and reports the returned user to the page.
 */
module LoginOverlay {
  import opened Wrappers
  import Page

  const INVALID_CODE: string := "Invalid Access Code"
  const CONNECTION_FAILED: string := "Connection failed"

  predicate IsLower(c: char)
  {
    'a' <= c <= 'z'
  }

  /** The upper-case form of one character (ASCII letters; everything else as it is). */
  function UpperChar(c: char): (u: char)
    ensures !IsLower(u)
    ensures IsLower(c) ==> u as int == c as int - 32
    ensures !IsLower(c) ==> u == c
  {
    if IsLower(c) then (c as int - 32) as char else c
  }

  /** `toUpperCase()`, character by character. */
  function ToUpper(s: string): (r: string)
    ensures |r| == |s|
    ensures forall k :: 0 <= k < |s| ==> r[k] == UpperChar(s[k])
  {
    seq(|s|, k requires 0 <= k < |s| => UpperChar(s[k]))
  }

  /** A text with no lower-case letter. */
  predicate IsUpperCase(s: string)
  {
    forall k :: 0 <= k < |s| ==> !IsLower(s[k])
  }

  /** Upper-casing leaves no lower-case letter and changes nothing more when repeated. */
  lemma ToUpperNormalises(s: string)
    ensures IsUpperCase(ToUpper(s))
    ensures ToUpper(ToUpper(s)) == ToUpper(s)
    ensures IsUpperCase(s) ==> ToUpper(s) == s
  {
  }

  /** How the request ended: a parsed response, or an exception from `fetch` or `res.json()`. */
  datatype LoginOutcome = Responded(success: bool, data: Option<Page.User>) | Threw

  /** The component's `code`, `error` and `loading`, and the calls it made to `onLogin`. */
  class Login {
    var code: string
    var error: string
    var loading: bool
    var logins: seq<Option<Page.User>>

    /**
     * What every handler keeps: the code is upper case, no error is shown while a request
     * is pending, and the only errors are the two fixed messages.
     */
    ghost predicate Valid()
      reads this
    {
      && IsUpperCase(code)
      && (loading ==> error == "")
      && (error == "" || error == INVALID_CODE || error == CONNECTION_FAILED)
    }

    constructor ()
      ensures code == "" && error == "" && !loading && logins == []
      ensures Valid()
    {
      code, error, loading, logins := "", "", false, [];
    }

    /** The button's `disabled`: while a request is pending. */
    predicate SubmitDisabled()
      reads this
    {
      loading
    }

    /** The input's `onChange`: stores the typed text upper-cased. */
    method OnChange(text: string)
      requires Valid()
      modifies this`code
      ensures code == ToUpper(text)
      ensures Valid()
    {
      code := ToUpper(text);
      ToUpperNormalises(text);
    }

    /** `handleLogin` up to the request, which carries the current code. */
    method BeginLogin() returns (requestCode: string)
      requires Valid() && !SubmitDisabled()
      modifies this`loading, this`error
      ensures loading && error == "" && requestCode == code
      ensures SubmitDisabled() && Valid()
    {
      loading := true;
      error := "";
      requestCode := code;
    }

    /**
     * `handleLogin` after the request: on success `onLogin(data.data)` exactly once and no
     * error; on a failed response "Invalid Access Code"; on an exception "Connection
     * failed"; loading ends in every case.
     */
    method CompleteLogin(outcome: LoginOutcome)
      requires Valid() && loading
      modifies this`loading, this`error, this`logins
      ensures !loading && code == old(code)
      ensures outcome.Responded? && outcome.success ==> logins == old(logins) + [outcome.data] && error == ""
      ensures outcome.Responded? && !outcome.success ==> logins == old(logins) && error == INVALID_CODE
      ensures outcome.Threw? ==> logins == old(logins) && error == CONNECTION_FAILED
      ensures Valid()
    {
      if outcome.Threw? {
        error := CONNECTION_FAILED;
      } else if outcome.success {
        logins := logins + [outcome.data];
      } else {
        error := INVALID_CODE;
      }
      loading := false;
    }

    /** The whole of `handleLogin` for one outcome of the request. */
    method HandleLogin(outcome: LoginOutcome) returns (requestCode: string)
      requires Valid() && !SubmitDisabled()
      modifies this`loading, this`error, this`logins
      ensures requestCode == code && code == old(code) && !SubmitDisabled()
      ensures outcome.Responded? && outcome.success ==> logins == old(logins) + [outcome.data] && error == ""
      ensures outcome.Responded? && !outcome.success ==> logins == old(logins) && error == INVALID_CODE
      ensures outcome.Threw? ==> logins == old(logins) && error == CONNECTION_FAILED
      ensures Valid()
    {
      requestCode := BeginLogin();
      CompleteLogin(outcome);
    }
  }

  /**
   * The gate and the page together: a successful login from the first render hands the
   * returned user to `handleLogin`, which hides the gate and starts the welcome screen; a
   * failed one leaves the gate up with an error.
   */
  method GateThenPage(typed: string, outcome: LoginOutcome) returns (state: Page.PageState, error: string)
    ensures outcome.Responded? && outcome.success && outcome.data.Some? ==>
      state == Page.PageState(outcome.data, true) && !Page.Visible(state).loginOverlay && error == ""
    ensures !(outcome.Responded? && outcome.success) ==>
      state == Page.INITIAL && Page.Visible(state).loginOverlay && error != ""
  {
    var home := new Page.Home();
    var gate := new Login();
    gate.OnChange(typed);
    var sent := gate.HandleLogin(outcome);
    if |gate.logins| == 1 {
      home.HandleLogin(gate.logins[0]);
    }
    state, error := home.State(), gate.error;
  }
}
