/**
 * The search box: it keeps what the visitor types, and on submit passes
 * the trimmed text on, unless nothing but white space was typed.
 */
module SearchBar {
  import opened Wrappers
  import opened Strings

  /** The query `handleSubmit` passes to `onSearch`, or None when it does not call it. */
  function SubmittedQuery(query: string): (s: Option<string>)
    ensures s.None? <==> AllWhiteSpace(query)
    ensures s.Some? ==> s.value == Trim(query) && s.value != ""
    ensures s.Some? ==> !IsWhiteSpace(s.value[0]) && !IsWhiteSpace(s.value[|s.value| - 1])
  {
    TrimEmptyIff(query);
    var t := Trim(query);
    if t != "" then Some(t) else None
  }

  /** Submitting the query that was submitted submits it unchanged. */
  lemma SubmitIsStable(query: string)
    requires SubmittedQuery(query).Some?
    ensures SubmittedQuery(SubmittedQuery(query).value) == SubmittedQuery(query)
  {
    TrimIdempotent(query);
  }

  /** The search box's state. */
  class SearchBarForm {
    var query: string

    constructor ()
      ensures query == ""
    {
      query := "";
    }

    /** The input's change handler: the query becomes the input's value, unchanged. */
    method SetQuery(value: string)
      modifies this
      ensures query == value
    {
      query := value;
    }

    /** The form's submit handler: what it passes to `onSearch`, if it calls it. */
    method HandleSubmit() returns (submitted: Option<string>)
      ensures submitted == SubmittedQuery(query)
      ensures submitted.None? <==> AllWhiteSpace(query)
      ensures submitted.Some? ==> submitted.value == Trim(query) && submitted.value != ""
    {
      var trimmed := Trim(query);
      if trimmed != "" {
        submitted := Some(trimmed);
      } else {
        submitted := None;
      }
      TrimEmptyIff(query);
    }
  }
}
