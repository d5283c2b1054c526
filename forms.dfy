/**
 * Rules shared by the three pages: clearing a field's error when the field
 * is edited, the e-mail rule sign-up and login both apply (with the pattern
 * `/\S+@\S+\.\S+/`), and the shape of their password rule.
 */
module Forms {
  import opened Wrappers
  import opened Text

  /** The error rule of every `handleChange`/`handleInputChange`: when the
      edited field has a truthy (present and non-empty) error, that error
      becomes `''`; otherwise the error map is left alone. No key is added or
      removed and no other field's error changes. */
  function ClearError<K>(errors: map<K, string>, name: K): (r: map<K, string>)
    ensures r.Keys == errors.Keys
    ensures forall k :: k in errors && k != name ==> r[k] == errors[k]
    ensures name in errors ==> r[name] == ""
  {
    if name in errors && errors[name] != "" then errors[name := ""] else errors
  }

  /** Clearing is idempotent: a second edit of the same field changes nothing more. */
  lemma ClearErrorIdempotent<K>(errors: map<K, string>, name: K)
    ensures ClearError(ClearError(errors, name), name) == ClearError(errors, name)
  {
  }

  /** `/\S+@\S+\.\S+/.test(s)`: the unanchored pattern matches somewhere in
      `s`. Because `\S+` may be one character long, a match exists exactly when
      some `'@'` at index `at` and `'.'` at index `dot` have at least one
      character before the `'@'`, between them and after the `'.'`, with no
      whitespace from the character before the `'@'` to the one after the `'.'`. */
  predicate MatchesEmailPattern(s: string)
  {
    exists at, dot | 1 <= at && at + 2 <= dot && dot + 2 <= |s| ::
      s[at] == '@' && s[dot] == '.' && NoWhitespace(s[at - 1..dot + 2])
  }

  /** The pattern read as the regular expression: any string holding
      `x + "@" + y + "." + z` with non-empty, whitespace-free `x`, `y`, `z`
      matches. */
  lemma {:induction false} EmailPatternMatches(pre: string, x: string, y: string, z: string, post: string)
    requires x != [] && y != [] && z != []
    requires NoWhitespace(x) && NoWhitespace(y) && NoWhitespace(z)
    ensures MatchesEmailPattern(pre + x + "@" + y + "." + z + post)
  {
    var s := pre + x + "@" + y + "." + z + post;
    var at := |pre| + |x|;
    var dot := at + 1 + |y|;
    assert s[at] == '@';
    assert s[dot] == '.';
    var w := s[at - 1..dot + 2];
    forall i | 0 <= i < |w| ensures !IsWhitespace(w[i]) {
      var j := at - 1 + i;
      assert w[i] == s[j];
      if j == at - 1 {
        assert s[j] == x[|x| - 1];
      } else if at < j < dot {
        assert s[j] == y[j - at - 1];
      } else if j == dot + 1 {
        assert s[j] == z[0];
      }
    }
  }

  /** The converse: every matching string holds some `x + "@" + y + "." + z`
      with non-empty, whitespace-free `x`, `y` and `z`, so the predicate is
      exactly the regular expression's unanchored match. */
  lemma {:induction false} EmailPatternParts(s: string) returns (pre: string, x: string, y: string, z: string, post: string)
    requires MatchesEmailPattern(s)
    ensures x != [] && y != [] && z != []
    ensures NoWhitespace(x) && NoWhitespace(y) && NoWhitespace(z)
    ensures s == pre + x + "@" + y + "." + z + post
  {
    var at, dot :| 1 <= at && at + 2 <= dot && dot + 2 <= |s| &&
      s[at] == '@' && s[dot] == '.' && NoWhitespace(s[at - 1..dot + 2]);
    pre, x, y, z, post := PartsAround(s, at, dot);
  }

  /** The pieces around an `'@'` at `at` and a `'.'` at `dot` that the
      pattern matches: the character before the `'@'`, those between the two
      and the character after the `'.'`. */
  lemma PartsAround(s: string, at: nat, dot: nat) returns (pre: string, x: string, y: string, z: string, post: string)
    requires 1 <= at && at + 2 <= dot && dot + 2 <= |s| && s[at] == '@' && s[dot] == '.'
    requires NoWhitespace(s[at - 1..dot + 2])
    ensures x != [] && y != [] && z != []
    ensures NoWhitespace(x) && NoWhitespace(y) && NoWhitespace(z)
    ensures s == pre + x + "@" + y + "." + z + post
  {
    pre, x, y, z, post := s[..at - 1], s[at - 1..at], s[at + 1..dot], s[dot + 1..dot + 2], s[dot + 2..];
    NoWhitespaceSlice(s, at - 1, dot + 2, at - 1, at);
    NoWhitespaceSlice(s, at - 1, dot + 2, at + 1, dot);
    NoWhitespaceSlice(s, at - 1, dot + 2, dot + 1, dot + 2);
    Glue(s, at, dot);
  }

  /** A piece of a whitespace-free slice is whitespace-free. */
  lemma NoWhitespaceSlice(s: string, i: nat, j: nat, k: nat, l: nat)
    requires i <= k <= l <= j <= |s| && NoWhitespace(s[i..j])
    ensures NoWhitespace(s[k..l])
  {
    forall n | 0 <= n < l - k ensures !IsWhitespace(s[k..l][n]) {
      assert s[k..l][n] == s[i..j][n + k - i];
    }
  }

  /** Cutting `s` around an `'@'` at `at` and a `'.'` at `dot` and gluing the
      pieces back gives `s`. */
  lemma Glue(s: string, at: nat, dot: nat)
    requires 1 <= at && at + 2 <= dot && dot + 2 <= |s| && s[at] == '@' && s[dot] == '.'
    ensures s == s[..at - 1] + s[at - 1..at] + "@" + s[at + 1..dot] + "." + s[dot + 1..dot + 2] + s[dot + 2..]
  {
    assert s[..at - 1] + s[at - 1..at] == s[..at];
    assert s[..at] + "@" == s[..at + 1];
    assert s[..at + 1] + s[at + 1..dot] == s[..dot];
    assert s[..dot] + "." == s[..dot + 1];
    assert s[..dot + 1] + s[dot + 1..dot + 2] == s[..dot + 2];
    assert s[..dot + 2] + s[dot + 2..] == s;
  }

  /** A matching string is never blank, so the "required" and "valid e-mail"
      rules of the validators never both fire. */
  lemma EmailPatternNotBlank(s: string)
    requires MatchesEmailPattern(s)
    ensures !IsBlank(s)
  {
    var at, dot :| 1 <= at && at + 2 <= dot && dot + 2 <= |s| &&
      s[at] == '@' && s[dot] == '.' && NoWhitespace(s[at - 1..dot + 2]);
    assert s[at - 1..dot + 2][1] == s[at];
  }

  /** Without an `'@'` there is no match. */
  lemma NoAtNoMatch(s: string)
    requires forall i :: 0 <= i < |s| ==> s[i] != '@'
    ensures !MatchesEmailPattern(s)
  {
  }

  /** The e-mail rule of both validators: a blank address is "required",
      any other address must match the pattern. The address is accepted
      exactly when it matches, and the two messages never compete. */
  function EmailError(email: string): (r: Option<string>)
    ensures r.None? <==> MatchesEmailPattern(email)
    ensures IsBlank(email) ==> r == Some("Email is required")
    ensures !IsBlank(email) && r.Some? ==> r == Some("Please enter a valid email")
  {
    if TrimmedIsEmpty(email) then
      assert !MatchesEmailPattern(email) by {
        if MatchesEmailPattern(email) { EmailPatternNotBlank(email); }
      }
      Some("Email is required")
    else if !MatchesEmailPattern(email) then Some("Please enter a valid email")
    else None
  }

  /** The shortest password either page accepts, in UTF-16 code units. */
  const MinPasswordLength: nat := 8

  /** The password rule of both validators, which differ only in the wording
      of the too-short message: an empty password is "required" (the value is
      not trimmed), a shorter one than `MinPasswordLength` gets `tooShort`.
      A password is accepted exactly when it is long enough. */
  function PasswordError(password: string, tooShort: string): (r: Option<string>)
    ensures r.None? <==> MinPasswordLength <= Utf16Length(password)
    ensures password == "" ==> r == Some("Password is required")
    ensures password != "" && r.Some? ==> r == Some(tooShort)
  {
    if password == "" then Some("Password is required")
    else if Utf16Length(password) < MinPasswordLength then Some(tooShort)
    else None
  }

  /** Eight spaces are a valid password: only emptiness and length are checked. */
  lemma BlankPasswordAccepted(tooShort: string)
    ensures PasswordError("        ", tooShort) == None
  {
    assert Utf16Length("        ") == 8;
  }

  /** Four characters outside the Basic Multilingual Plane are a valid
      password: `length` counts each of them twice. */
  lemma AstralPasswordAccepted(tooShort: string)
    ensures PasswordError("\U{1F600}\U{1F600}\U{1F600}\U{1F600}", tooShort) == None
  {
    var p := "\U{1F600}\U{1F600}\U{1F600}\U{1F600}";
    assert |p| == 4;
    assert Utf16Length(p) == 8;
  }

  /** What a page does with a failed submit's error text: set field errors
      (replacing all previous ones), or fall back to an alert. */
  datatype ServerReaction<K> = SetErrors(errors: map<K, string>) | Alert(message: string)

  /** What a finished submit shows: an alert, a navigation, both or neither. */
  datatype Feedback = Feedback(alert: Option<string>, navigateTo: Option<string>)
}
