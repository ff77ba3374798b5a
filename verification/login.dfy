/** The student-id form: a length gate with an inline error that every edit clears. */
module LoginForm {
  import opened Wrappers

  const MinIdLength := 3
  const InvalidIdMessage := "Please enter a valid Student ID"

  /**
   * JavaScript's `length` of a string: UTF-16 code units, so a character outside the Basic
   * Multilingual Plane (a surrogate pair) counts twice.
   */
  function Utf16Length(s: string): (n: nat)
    ensures |s| <= n <= 2 * |s|
    decreases |s|
  {
    if s == [] then 0
    else Utf16Length(s[..|s| - 1]) + (if s[|s| - 1] as int >= 0x1_0000 then 2 else 1)
  }

  /** Strings of Basic Multilingual Plane characters have one code unit per character. */
  lemma {:induction false} Utf16LengthOfBmp(s: string)
    requires forall i :: 0 <= i < |s| ==> s[i] as int < 0x1_0000
    ensures Utf16Length(s) == |s|
    decreases |s|
  {
    if s != [] {
      Utf16LengthOfBmp(s[..|s| - 1]);
    }
  }

  /** The only check the form makes: `studentId.length >= 3`, spaces included. */
  predicate Accepts(id: string) {
    Utf16Length(id) >= MinIdLength
  }

  /** What a submit hands to the flow's login handler, if anything. */
  function Validate(id: string): (r: Option<string>)
    ensures r.Some? <==> Accepts(id)
    ensures r.Some? ==> r.value == id
  {
    if Utf16Length(id) < MinIdLength then None else Some(id)
  }

  /** Two astral-plane characters are four code units long and pass; a single one does not. */
  lemma SurrogatePairsCount()
    ensures Validate("\U{1F600}\U{1F600}") == Some("\U{1F600}\U{1F600}")
    ensures Validate("\U{1F600}") == None
  {
    assert "\U{1F600}\U{1F600}"[..1] == "\U{1F600}";
  }

  /** An id made only of spaces passes: nothing is trimmed. */
  lemma SpacesCount()
    ensures Validate("   ") == Some("   ")
    ensures Validate(" a") == None
  {
    Utf16LengthOfBmp("   ");
    Utf16LengthOfBmp(" a");
  }

  class StudentLogin {
    var studentId: string
    var error: string

    /** An error is only ever shown for an id the form would reject. */
    ghost predicate Valid()
      reads this
    {
      error == "" || (error == InvalidIdMessage && !Accepts(studentId))
    }

    /** `{error && <p>…</p>}`: the message is rendered iff the cell is non-empty. */
    function ErrorShown(): bool
      reads this
    {
      error != ""
    }

    constructor ()
      ensures Valid() && studentId == "" && error == "" && !ErrorShown()
    {
      studentId := "";
      error := "";
    }

    /** The input's change handler. */
    method Edit(value: string)
      modifies this
      ensures Valid()
      ensures studentId == value && error == "" && !ErrorShown()
    {
      studentId := value;
      error := "";
    }

    /** `handleSubmit`: returns the id passed to `onLogin`, or None on an early return. */
    method Submit() returns (submitted: Option<string>)
      requires Valid()
      modifies this
      ensures Valid()
      ensures submitted == Validate(old(studentId))
      ensures studentId == old(studentId)
      ensures submitted.None? ==> error == InvalidIdMessage && ErrorShown()
      ensures submitted.Some? ==> error == old(error) == ""
    {
      if Utf16Length(studentId) < MinIdLength {
        error := InvalidIdMessage;
        submitted := None;
        return;
      }
      submitted := Some(studentId);
    }
  }
}
