/**
 * The invite generator: a button that opens a form (name, notes), whose submit asks the
 * remote endpoint for a new access code and shows either the code or an error.
 */
module InviteGenerator {
  import opened Wrappers

  /** The message shown when a failed response carries no error text of its own. */
  const FAILED_TO_GENERATE: string := "Failed to generate code"

  /** The body of the `generate` request: the caller's own code, the new name and the notes. */
  datatype GenerateRequest = GenerateRequest(creatorCode: string, newName: string, newDetails: string)

  /**
   * How the request ended: a parsed response (`data.success` taken by truthiness,
   * `data.new_code` and `data.error` possibly absent), or an exception from `fetch` or
   * `res.json()` with its message.
   */
  datatype GenerateOutcome =
    | Responded(success: bool, newCode: Option<string>, error: Option<string>)
    | Threw(message: string)

  /** A string field taken by truthiness: present and not empty. */
  predicate Truthy(s: Option<string>)
  {
    s.Some? && s.value != ""
  }

  /** `data.error || 'Failed to generate code'`: never empty, the server's text when it has one. */
  function FailureMessage(error: Option<string>): (m: string)
    ensures m != ""
    ensures Truthy(error) ==> m == error.value
    ensures !Truthy(error) ==> m == FAILED_TO_GENERATE
  {
    if Truthy(error) then error.value else FAILED_TO_GENERATE
  }

  /** The component's six state fields and its `adminCode` prop. */
  class Generator {
    const adminCode: string
    var isOpen: bool
    var name: string
    var details: string
    var generatedCode: Option<string>
    var loading: bool
    var error: string

    /**
     * What every handler keeps: while a request is pending neither a code nor an error is
     * shown, and a code and an error are never shown together.
     */
    ghost predicate Valid()
      reads this
    {
      && (loading ==> generatedCode.None? && error == "")
      && (generatedCode.Some? ==> error == "")
    }

    constructor (adminCode: string)
      ensures this.adminCode == adminCode
      ensures !isOpen && name == "" && details == "" && generatedCode == None && !loading && error == ""
      ensures Valid()
    {
      this.adminCode := adminCode;
      isOpen, name, details, generatedCode, loading, error := false, "", "", None, false, "";
    }

    /** The submit button's `disabled`: while loading or with an empty name. */
    predicate SubmitDisabled()
      reads this
    {
      loading || name == ""
    }

    /** The "Generate Invite Code" button: opens the form and changes nothing else. */
    method Open()
      requires Valid()
      modifies this`isOpen
      ensures Valid()
      ensures isOpen
    {
      isOpen := true;
    }

    /** The close button: hides the form, forgets the code and the name; notes and error stay. */
    method Close()
      requires Valid()
      modifies this`isOpen, this`generatedCode, this`name
      ensures !isOpen && generatedCode == None && name == ""
      ensures details == old(details) && error == old(error) && loading == old(loading)
      ensures Valid()
    {
      isOpen := false;
      generatedCode := None;
      name := "";
    }

    method SetName(value: string)
      requires Valid()
      modifies this`name
      ensures Valid()
      ensures name == value
    {
      name := value;
    }

    method SetDetails(value: string)
      requires Valid()
      modifies this`details
      ensures Valid()
      ensures details == value
    {
      details := value;
    }

    /**
     * `handleGenerate` up to the request: pending, with the previous code and error
     * cleared; the request carries the admin code and the current name and notes. Only the
     * enabled submit button of the open form calls it.
     */
    method BeginGenerate() returns (req: GenerateRequest)
      requires Valid() && isOpen && !SubmitDisabled()
      modifies this`loading, this`error, this`generatedCode
      ensures loading && error == "" && generatedCode == None
      ensures req == GenerateRequest(adminCode, name, details)
      ensures SubmitDisabled() && Valid()
    {
      loading := true;
      error := "";
      generatedCode := None;
      req := GenerateRequest(adminCode, name, details);
    }

    /**
     * `handleGenerate` after the request: on success the returned code is shown and the
     * error stays empty; a failed response shows its error text or the default message; an
     * exception shows its message; in every case loading ends.
     */
    method CompleteGenerate(outcome: GenerateOutcome)
      requires Valid() && loading
      modifies this`loading, this`error, this`generatedCode
      ensures !loading
      ensures outcome.Responded? && outcome.success ==> generatedCode == outcome.newCode && error == ""
      ensures outcome.Responded? && !outcome.success ==>
        generatedCode == None && error == FailureMessage(outcome.error)
      ensures outcome.Threw? ==> generatedCode == None && error == outcome.message
      ensures outcome.Responded? && !outcome.success ==> error != ""
      ensures outcome.Threw? || !outcome.success ==> generatedCode.None?
      ensures Valid()
    {
      if outcome.Responded? && outcome.success {
        generatedCode := outcome.newCode;
      } else {
        // a failed response throws `new Error(...)`; the catch shows the message
        error := if outcome.Threw? then outcome.message else FailureMessage(outcome.error);
      }
      loading := false;  // finally
    }

    /** The whole of `handleGenerate` for one outcome of the request. */
    method HandleGenerate(outcome: GenerateOutcome) returns (req: GenerateRequest)
      requires Valid() && isOpen && !SubmitDisabled()
      modifies this`loading, this`error, this`generatedCode
      ensures req == GenerateRequest(adminCode, name, details)
      ensures !loading && isOpen && name == old(name) && details == old(details)
      ensures outcome.Responded? && outcome.success ==> generatedCode == outcome.newCode && error == ""
      ensures outcome.Responded? && !outcome.success ==>
        generatedCode == None && error == FailureMessage(outcome.error)
      ensures outcome.Threw? ==> generatedCode == None && error == outcome.message
      ensures !SubmitDisabled() && Valid()
    {
      req := BeginGenerate();
      CompleteGenerate(outcome);
    }
  }
}
