/**
 * The `onValidate` rules of the settings form (src/settings/settings.tsx):
 * the comma-list and semicolon-list grammars and the numeric lower
 * bounds. A rule returns an error message, or nothing when the value is
 * accepted.
 */
module Validation {
  import opened Optional
  import opened Strings

  /**
   * The pattern /^[^c]+(c[^c]+)*$/: a non-empty run without `c`, then any
   * number of groups made of one `c` and another such run.
   */
  predicate MatchesSeparatedList(s: string, c: char)
    decreases |s|
  {
    exists i | 1 <= i <= |s| ::
      Lacks(s[..i], c) && (i == |s| || (s[i] == c && MatchesSeparatedList(s[i + 1..], c)))
  }

  /** Splitting `s` on `c` yields no empty piece. */
  predicate NoEmptyPiece(s: string, c: char)
  {
    forall k :: 0 <= k < |Split(s, [c])| ==> Split(s, [c])[k] != ""
  }

  /** A one-character pattern occurs exactly where that character does. */
  lemma LacksIffNotContains(s: string, c: char)
    ensures Lacks(s, c) <==> !Contains(s, [c])
  {
    if Lacks(s, c) {
      NoLeadCharNoOccurrence(s, [c]);
    } else {
      var k :| 0 <= k < |s| && s[k] == c;
      assert s[k..k + 1] == [c];
      assert OccursAt(s, [c], k);
    }
  }

  /** A string in the list grammar splits into non-empty pieces only. */
  lemma {:induction false} MatchesHasNoEmptyPiece(s: string, c: char)
    requires MatchesSeparatedList(s, c)
    ensures s != "" && NoEmptyPiece(s, c)
    decreases |s|
  {
    var i :| 1 <= i <= |s| &&
      Lacks(s[..i], c) && (i == |s| || (s[i] == c && MatchesSeparatedList(s[i + 1..], c)));
    if i == |s| {
      assert s[..i] == s;
      LacksIffNotContains(s, c);
      SplitWithoutSeparator(s, [c]);
    } else {
      var rest := s[i + 1..];
      MatchesHasNoEmptyPiece(rest, c);
      assert s == s[..i] + [c] + rest;
      SplitAfterPiece(s[..i], c, rest);
    }
  }

  /** A non-empty string whose pieces are all non-empty is in the list grammar. */
  lemma {:induction false} NoEmptyPieceMatches(s: string, c: char)
    requires s != "" && NoEmptyPiece(s, c)
    ensures MatchesSeparatedList(s, c)
    decreases |s|
  {
    var pieces := Split(s, [c]);
    var first := pieces[0];
    if |pieces| == 1 {
      assert s == first;
      LacksIffNotContains(s, c);
      assert s[..|s|] == s;
    } else {
      var rest := Join(pieces[1..], [c]);
      assert s == first + [c] + rest;
      LacksIffNotContains(first, c);
      SplitAfterPiece(first, c, rest);
      JoinFirstIsPrefix(pieces[1..], [c]);
      assert NoEmptyPiece(rest, c) by {
        forall k | 0 <= k < |Split(rest, [c])| ensures Split(rest, [c])[k] != "" {
          assert Split(rest, [c])[k] == pieces[k + 1];
        }
      }
      NoEmptyPieceMatches(rest, c);
      var i := |first|;
      assert s[..i] == first;
      assert s[i + 1..] == rest;
    }
  }

  /**
   * The list grammar is the same as "not empty, and splitting on the
   * separator leaves no empty piece": no leading, trailing or doubled
   * separator.
   */
  lemma MatchesIffNoEmptyPiece(s: string, c: char)
    ensures MatchesSeparatedList(s, c) <==> s != "" && NoEmptyPiece(s, c)
  {
    if MatchesSeparatedList(s, c) {
      MatchesHasNoEmptyPiece(s, c);
    }
    if s != "" && NoEmptyPiece(s, c) {
      NoEmptyPieceMatches(s, c);
    }
  }

  const ListFormatError: string := "Invalid format. Must be comma-separated list (e.g., \"Value1, Value2\")."

  const RandomFormatError: string := "Invalid format. Values must be separated by semicolons (e.g. \"Value1; Value2\")."

  /**
   * `validateCommaSeparatedList`: an unset or empty value is accepted;
   * any other value must be a comma-separated list of non-empty items.
   */
  function ValidateCommaSeparatedList(value: Option<string>): (r: Option<string>)
    ensures r.Some? ==> r.value == ListFormatError
    ensures value.None? ==> r.None?
    ensures value.Some? ==> (r.None? <==> value.value == "" || NoEmptyPiece(value.value, ','))
  {
    var input := value.GetOr("");
    MatchesIffNoEmptyPiece(input, ',');
    if input != "" && !MatchesSeparatedList(input, ',') then Some(ListFormatError) else None
  }

  /**
   * The "reminder-random" rule: an unset or empty value is accepted; any
   * other value must be a semicolon-separated list of non-empty values.
   */
  function ValidateRandomValues(value: Option<string>): (r: Option<string>)
    ensures r.Some? ==> r.value == RandomFormatError
    ensures value.None? ==> r.None?
    ensures value.Some? ==> (r.None? <==> value.value == "" || NoEmptyPiece(value.value, ';'))
  {
    if value.Some? && value.value != "" && !MatchesSeparatedList(value.value, ';') then
      MatchesIffNoEmptyPiece(value.value, ';');
      Some(RandomFormatError)
    else
      MatchesIffNoEmptyPiece(value.GetOr(""), ';');
      None
  }

  /**
   * The numeric rules: `if (value && value < bound) return message`. Only
   * a set, non-zero value below the bound is refused, so 0 always passes.
   */
  function ValidateAtLeast(value: Option<int>, bound: int, message: string): (r: Option<string>)
    ensures r.Some? <==> value.Some? && value.value != 0 && value.value < bound
    ensures r.Some? ==> r.value == message
  {
    if value.Some? && value.value != 0 && value.value < bound then Some(message) else None
  }

  /** "wl-body-length": refuses negative lengths. */
  function ValidateWhitelistBodyLength(value: Option<int>): (r: Option<string>)
    ensures r.None? <==> value.None? || value.value >= 0
  {
    ValidateAtLeast(value, 0, "Body length must be a positive number.")
  }

  /** "bl-body-length": a bound of 1, which on whole numbers again refuses only negative lengths. */
  function ValidateBlacklistBodyLength(value: Option<int>): (r: Option<string>)
    ensures r.None? <==> value.None? || value.value >= 0
  {
    ValidateAtLeast(value, 1, "Body length must be a positive number.")
  }

  /** "reminder-delay": bound 1, so a delay of 0 is accepted. */
  function ValidateReminderDelay(value: Option<int>): (r: Option<string>)
    ensures r.None? <==> value.None? || value.value >= 0
  {
    ValidateAtLeast(value, 1, "Reminder delay must be a positive number.")
  }

  /** "reminder-remove-delay": refuses negative delays. */
  function ValidateReminderRemoveDelay(value: Option<int>): (r: Option<string>)
    ensures r.None? <==> value.None? || value.value >= 0
  {
    ValidateAtLeast(value, 0, "Reminder removal delay must be a positive number or 0.")
  }

  /** "missing-link-delay": bound 1, so a delay of 0 is accepted. */
  function ValidateActionDelay(value: Option<int>): (r: Option<string>)
    ensures r.None? <==> value.None? || value.value >= 0
  {
    ValidateAtLeast(value, 1, "Action delay must be a positive number.")
  }
}
