/**
 * The CommentForm component's submit handler: trim-based checks in a fixed
 * order, then one call to the API with the trimmed values, ending in a success
 * or a failure state. The API's answer is an input chosen by the environment.
 */
module CommentFormView {
  import opened Wrappers
  import Validation

  /** JavaScript's WhiteSpace and LineTerminator characters, the ones String.prototype.trim removes. */
  predicate IsJsWhitespace(c: char) {
    c == '\t' || c == '\n' || c == '\U{000B}' || c == '\U{000C}' || c == '\r' || c == ' ' ||
    c == '\U{00A0}' || c == '\U{1680}' || ('\U{2000}' <= c <= '\U{200A}') ||
    c == '\U{2028}' || c == '\U{2029}' || c == '\U{202F}' || c == '\U{205F}' ||
    c == '\U{3000}' || c == '\U{FEFF}'
  }

  /** `s` without its leading whitespace. */
  function TrimStart(s: string): string {
    if s != [] && IsJsWhitespace(s[0]) then TrimStart(s[1..]) else s
  }

  /** `s` without its trailing whitespace. */
  function TrimEnd(s: string): string {
    if s != [] && IsJsWhitespace(s[|s| - 1]) then TrimEnd(s[..|s| - 1]) else s
  }

  /** String.prototype.trim. */
  function Trim(s: string): string {
    TrimEnd(TrimStart(s))
  }

  /** TrimStart keeps a suffix that does not start with whitespace, and removes only whitespace. */
  lemma {:induction false} TrimStartSuffix(s: string)
    ensures |TrimStart(s)| <= |s| && TrimStart(s) == s[|s| - |TrimStart(s)|..]
    ensures TrimStart(s) == [] || !IsJsWhitespace(TrimStart(s)[0])
    ensures forall i :: 0 <= i < |s| - |TrimStart(s)| ==> IsJsWhitespace(s[i])
  {
    if s != [] && IsJsWhitespace(s[0]) {
      TrimStartSuffix(s[1..]);
      assert forall i :: 1 <= i < |s| ==> s[i] == s[1..][i - 1];
      assert s[1..][|s| - 1 - |TrimStart(s)|..] == s[|s| - |TrimStart(s)|..];
    }
  }

  /** TrimEnd keeps a prefix that does not end with whitespace, and removes only whitespace. */
  lemma {:induction false} TrimEndPrefix(s: string)
    ensures |TrimEnd(s)| <= |s| && TrimEnd(s) == s[..|TrimEnd(s)|]
    ensures TrimEnd(s) == [] || !IsJsWhitespace(TrimEnd(s)[|TrimEnd(s)| - 1])
    ensures forall i :: |TrimEnd(s)| <= i < |s| ==> IsJsWhitespace(s[i])
  {
    if s != [] && IsJsWhitespace(s[|s| - 1]) {
      TrimEndPrefix(s[..|s| - 1]);
      assert forall i :: 0 <= i < |s| - 1 ==> s[i] == s[..|s| - 1][i];
      assert s[..|s| - 1][..|TrimEnd(s)|] == s[..|TrimEnd(s)|];
    }
  }

  lemma {:induction false} TrimStartAllWhitespace(s: string)
    requires forall i :: 0 <= i < |s| ==> IsJsWhitespace(s[i])
    ensures TrimStart(s) == []
  {
    if s != [] {
      assert IsJsWhitespace(s[0]);
      TrimStartAllWhitespace(s[1..]);
    }
  }

  /** A string is blank after trimming exactly when every character of it is whitespace. */
  lemma TrimBlankIff(s: string)
    ensures Trim(s) == "" <==> forall i :: 0 <= i < |s| ==> IsJsWhitespace(s[i])
  {
    if forall i :: 0 <= i < |s| ==> IsJsWhitespace(s[i]) {
      TrimStartAllWhitespace(s);
    }
    if Trim(s) == "" {
      var t := TrimStart(s);
      TrimStartSuffix(s);
      TrimEndPrefix(t);
      assert t == [];
    }
  }

  lemma SliceOfSuffix(s: string, i: nat, k: nat)
    requires i + k <= |s|
    ensures s[i..][..k] == s[i..i + k]
  {
  }

  /** A trimmed string is the slice of the original that starts after its leading whitespace. */
  lemma TrimmedSlice(s: string)
    ensures |Trim(s)| <= |TrimStart(s)| <= |s|
    ensures Trim(s) == s[|s| - |TrimStart(s)|..|s| - |TrimStart(s)| + |Trim(s)|]
  {
    var t := TrimStart(s);
    var r := TrimEnd(t);
    TrimStartSuffix(s);
    TrimEndPrefix(t);
    SliceOfSuffix(s, |s| - |t|, |r|);
  }

  /** A trimmed string neither starts nor ends with whitespace. */
  lemma TrimmedEnds(s: string)
    ensures Trim(s) != "" ==> !IsJsWhitespace(Trim(s)[0]) && !IsJsWhitespace(Trim(s)[|Trim(s)| - 1])
  {
    var t := TrimStart(s);
    var r := TrimEnd(t);
    TrimStartSuffix(s);
    TrimEndPrefix(t);
    if r != "" {
      assert r[0] == t[0];
    }
  }

  /** The body the form posts. */
  datatype CreateCommentRequest = CreateCommentRequest(name: string, message: string)

  /** How the API call ends: it resolves, or it throws an Error (with its message) or some other value. */
  datatype ApiOutcome = Created | ThrewError(message: string) | ThrewNonError

  const NameMissing := "Please enter your name"
  const MessageMissing := "Please enter a message"
  const Added := "Comment added successfully!"
  const AddFailed := "Failed to add comment. Please try again."

  /** The form's state: the two inputs, the busy flag and the two banners. */
  datatype FormState = FormState(name: string, message: string, isSubmitting: bool, error: string, success: string)

  /** The state a submission leaves behind, and the request it sent to the API, if any. */
  datatype Submission = Submission(after: FormState, sent: Option<CreateCommentRequest>)

  /**
   * What handleSubmit does to the state: both banners are cleared first; a
   * blank name stops with its error, then a blank message with its own, and
   * neither sends anything nor touches the inputs or the busy flag; otherwise
   * the trimmed values are sent once and the form ends not busy, cleared and
   * showing the success text, or keeping its inputs and showing the error.
   */
  function Submit(s: FormState, outcome: ApiOutcome): (r: Submission)
    ensures Trim(s.name) == "" ==>
      r == Submission(s.(error := NameMissing, success := ""), None)
    ensures Trim(s.name) != "" && Trim(s.message) == "" ==>
      r == Submission(s.(error := MessageMissing, success := ""), None)
    ensures r.sent.Some? <==> Trim(s.name) != "" && Trim(s.message) != ""
    ensures r.sent.Some? ==>
      r.sent == Some(CreateCommentRequest(Trim(s.name), Trim(s.message))) && !r.after.isSubmitting
    ensures r.sent.Some? && outcome.Created? ==>
      r.after == FormState("", "", false, "", Added)
    ensures r.sent.Some? && outcome.ThrewError? ==>
      r.after == FormState(s.name, s.message, false, outcome.message, "")
    ensures r.sent.Some? && outcome.ThrewNonError? ==>
      r.after == FormState(s.name, s.message, false, AddFailed, "")
  {
    var cleared := s.(error := "", success := "");
    var name, message := Trim(s.name), Trim(s.message);
    if name == "" then Submission(cleared.(error := NameMissing), None)
    else if message == "" then Submission(cleared.(error := MessageMissing), None)
    else
      var submitting := cleared.(isSubmitting := true);
      var settled := match outcome
        case Created => submitting.(success := Added, name := "", message := "")
        case ThrewError(m) => submitting.(error := m)
        case ThrewNonError => submitting.(error := AddFailed);
      Submission(settled.(isSubmitting := false), Some(CreateCommentRequest(name, message)))
  }

  class CommentForm {
    var name: string
    var message: string
    var isSubmitting: bool
    var error: string
    var success: string

    function State(): FormState
      reads this
    {
      FormState(name, message, isSubmitting, error, success)
    }

    constructor ()
      ensures State() == FormState("", "", false, "", "")
    {
      name, message, isSubmitting, error, success := "", "", false, "", "";
    }

    /**
     * handleSubmit, step by step. Returns the request sent to the API, if any;
     * `submittingAtCall` is the busy flag at the moment of the call.
     */
    method HandleSubmit(outcome: ApiOutcome) returns (sent: Option<CreateCommentRequest>, ghost submittingAtCall: bool)
      modifies this
      ensures State() == Submit(old(State()), outcome).after
      ensures sent == Submit(old(State()), outcome).sent
      ensures sent.Some? ==> submittingAtCall
    {
      var trimmedName, trimmedMessage := Trim(name), Trim(message);
      error := "";
      success := "";
      submittingAtCall := false;

      if trimmedName == "" {
        error := NameMissing;
        return None, submittingAtCall;
      }
      if trimmedMessage == "" {
        error := MessageMissing;
        return None, submittingAtCall;
      }

      isSubmitting := true;
      sent := Some(CreateCommentRequest(trimmedName, trimmedMessage));
      submittingAtCall := isSubmitting;
      match outcome {
        case Created =>
          success := Added;
          name := "";
          message := "";
        case ThrewError(m) =>
          error := m;
        case ThrewNonError =>
          error := AddFailed;
      }
      isSubmitting := false;
    }
  }

  /**
   * What the form sends passes the server's validation whenever the inputs
   * respect their `maxLength` attributes (100 and 500): trimming leaves both
   * values non-empty and no longer than before.
   */
  lemma SentRequestValidates(name: string, message: string)
    requires Trim(name) != "" && Trim(message) != ""
    requires |name| <= 100 && |message| <= 500
    ensures Validation.Validate([("name", Validation.JString(Trim(name))), ("message", Validation.JString(Trim(message)))])
      == Wrappers.Ok(Validation.CreateCommentDto(Trim(name), Trim(message)))
  {
    TrimmedSlice(name);
    TrimmedSlice(message);
    Validation.BoundaryAndWhitespaceAccepted(Trim(name), Trim(message));
  }
}
