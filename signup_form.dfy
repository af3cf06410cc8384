/** The sign-up form's client-side checks (`validate` and `handleSubmit` in
    Signup.jsx): a username of at least 3 and a password of at least 6
    characters, both counted after `String.prototype.trim` and in UTF-16 code
    units, as `String.prototype.length` counts them. */
module SignupForm {
  import opened Js

  datatype FormData = FormData(username: string, password: string)

  const UsernameKey: string := "username"
  const PasswordKey: string := "password"
  const UsernameError: string := "Username must be at least 3 characters"
  const PasswordError: string := "Password must be at least 6 characters"

  /** The characters `trim` removes: the ECMAScript WhiteSpace and
      LineTerminator code points. */
  predicate IsWhitespace(c: char) {
    || c in {'\t', '\n', '\U{000B}', '\U{000C}', '\r', ' ', '\U{00A0}', '\U{1680}'}
    || ('\U{2000}' <= c <= '\U{200A}')
    || c in {'\U{2028}', '\U{2029}', '\U{202F}', '\U{205F}', '\U{3000}', '\U{FEFF}'}
  }

  predicate AllWhitespace(s: string) {
    forall i :: 0 <= i < |s| ==> IsWhitespace(s[i])
  }

  function TrimStart(s: string): string {
    if s != [] && IsWhitespace(s[0]) then TrimStart(s[1..]) else s
  }

  function TrimEnd(s: string): string {
    if s != [] && IsWhitespace(s[|s| - 1]) then TrimEnd(s[..|s| - 1]) else s
  }

  /** `s.trim()`. */
  function Trim(s: string): string {
    TrimEnd(TrimStart(s))
  }

  /** What `trim` leaves is a contiguous part of the input that neither starts
      nor ends with white space. */
  lemma {:induction false} TrimShape(s: string)
    ensures exists i, j :: 0 <= i <= j <= |s| && Trim(s) == s[i..j] && AllWhitespace(s[..i]) && AllWhitespace(s[j..])
    ensures Trim(s) != [] ==> !IsWhitespace(Trim(s)[0]) && !IsWhitespace(Trim(s)[|Trim(s)| - 1])
  {
    var i := TrimStartShape(s);
    var j := TrimEndShape(s[i..]);
    assert Trim(s) == s[i..][..j] == s[i..i + j];
    assert s[i + j..] == s[i..][j..];
    if Trim(s) != [] {
      assert Trim(s)[0] == TrimStart(s)[0];
    }
  }

  lemma {:induction false} TrimStartShape(s: string) returns (i: nat)
    ensures i <= |s| && TrimStart(s) == s[i..] && AllWhitespace(s[..i])
    ensures TrimStart(s) != [] ==> !IsWhitespace(TrimStart(s)[0])
  {
    if s != [] && IsWhitespace(s[0]) {
      var k := TrimStartShape(s[1..]);
      i := k + 1;
      assert s[1..][k..] == s[i..];
      assert s[..i] == [s[0]] + s[1..][..k];
    } else {
      i := 0;
    }
  }

  lemma {:induction false} TrimEndShape(s: string) returns (j: nat)
    ensures j <= |s| && TrimEnd(s) == s[..j] && AllWhitespace(s[j..])
    ensures TrimEnd(s) != [] ==> !IsWhitespace(TrimEnd(s)[|TrimEnd(s)| - 1])
  {
    if s != [] && IsWhitespace(s[|s| - 1]) {
      j := TrimEndShape(s[..|s| - 1]);
      assert s[..|s| - 1][..j] == s[..j];
      assert s[j..] == s[..|s| - 1][j..] + [s[|s| - 1]];
    } else {
      j := |s|;
    }
  }

  /** Leading and trailing white space does not count: padding a string with
      white space on either side leaves its trimmed form unchanged. */
  lemma TrimIgnoresPadding(lead: string, s: string, trail: string)
    requires AllWhitespace(lead) && AllWhitespace(trail)
    ensures Trim(lead + s + trail) == Trim(s)
  {
    assert lead + s + trail == lead + (s + trail);
    TrimStartSkipsLead(lead, s + trail);
    TrimStartThroughTrail(s, trail);
    if TrimStart(s) != [] {
      TrimEndSkipsTrailEnd(TrimStart(s), trail);
    } else {
      TrimEndOfWhitespace(TrimStart(s + trail));
    }
  }

  lemma {:induction false} TrimStartSkipsLead(lead: string, s: string)
    requires AllWhitespace(lead)
    ensures TrimStart(lead + s) == TrimStart(s)
  {
    if lead != [] {
      assert (lead + s)[1..] == lead[1..] + s;
      TrimStartSkipsLead(lead[1..], s);
    } else {
      assert lead + s == s;
    }
  }

  /** Trimming the start of `s + trail` either trims into `s` or, when `s` is
      all white space, leaves (part of) the white-space trail. */
  lemma {:induction false} TrimStartThroughTrail(s: string, trail: string)
    requires AllWhitespace(trail)
    ensures TrimStart(s) != [] ==> TrimStart(s + trail) == TrimStart(s) + trail
    ensures TrimStart(s) == [] ==> AllWhitespace(TrimStart(s + trail))
  {
    if s == [] {
      assert s + trail == trail;
      TrimStartOfWhitespace(trail);
    } else if IsWhitespace(s[0]) {
      assert (s + trail)[1..] == s[1..] + trail;
      TrimStartThroughTrail(s[1..], trail);
    }
  }

  lemma {:induction false} TrimStartOfWhitespace(s: string)
    requires AllWhitespace(s)
    ensures TrimStart(s) == []
  {
    if s != [] {
      TrimStartOfWhitespace(s[1..]);
    }
  }

  lemma {:induction false} TrimEndOfWhitespace(s: string)
    requires AllWhitespace(s)
    ensures TrimEnd(s) == []
  {
    if s != [] {
      TrimEndOfWhitespace(s[..|s| - 1]);
    }
  }

  lemma {:induction false} TrimEndSkipsTrailEnd(s: string, trail: string)
    requires AllWhitespace(trail)
    ensures TrimEnd(s + trail) == TrimEnd(s)
  {
    if trail != [] {
      var t := trail[..|trail| - 1];
      assert (s + trail)[..|s + trail| - 1] == s + t;
      TrimEndSkipsTrailEnd(s, t);
    } else {
      assert s + trail == s;
    }
  }

  /** `validate`: two independent checks, each adding its own message to
      `tempErrors` and clearing `isValid`; the map is what `setErrors` receives. */
  method Validate(form: FormData) returns (isValid: bool, errors: map<string, string>)
    ensures UsernameKey in errors <==> Utf16Length(Trim(form.username)) < 3
    ensures PasswordKey in errors <==> Utf16Length(Trim(form.password)) < 6
    ensures UsernameKey in errors ==> errors[UsernameKey] == UsernameError
    ensures PasswordKey in errors ==> errors[PasswordKey] == PasswordError
    ensures errors.Keys <= {UsernameKey, PasswordKey}
    ensures isValid <==> Utf16Length(Trim(form.username)) >= 3 && Utf16Length(Trim(form.password)) >= 6
    ensures isValid <==> errors == map[]
  {
    var tempErrors: map<string, string> := map[];
    isValid := true;
    if Utf16Length(Trim(form.username)) < 3 {
      tempErrors := tempErrors[UsernameKey := UsernameError];
      isValid := false;
    }
    if Utf16Length(Trim(form.password)) < 6 {
      tempErrors := tempErrors[PasswordKey := PasswordError];
      isValid := false;
    }
    errors := tempErrors;
  }

  /** `handleSubmit` up to the request: nothing is sent when `validate` fails;
      otherwise the form data goes out as typed, untrimmed. */
  method Submit(form: FormData) returns (request: Option<FormData>, errors: map<string, string>)
    ensures request.None? <==> Utf16Length(Trim(form.username)) < 3 || Utf16Length(Trim(form.password)) < 6
    ensures request.Some? ==> request.value == form && errors == map[]
    ensures request.None? ==> errors != map[]
  {
    var ok;
    ok, errors := Validate(form);
    if !ok {
      return None, errors;
    }
    request := Some(form);
  }

  /** The checks are independent: a short username and a short password give
      both messages at once. */
  method BothErrorsAtOnce() returns (errors: map<string, string>)
    ensures errors == map[UsernameKey := UsernameError, PasswordKey := PasswordError]
  {
    var form := FormData(" ab ", "12345     ");
    ShortSamples();
    var ok;
    ok, errors := Validate(form);
    assert errors.Keys == {UsernameKey, PasswordKey};
  }

  lemma ShortSamples()
    ensures Utf16Length(Trim(" ab ")) < 3 && Utf16Length(Trim("12345     ")) < 6
  {
    assert " ab " == " " + "ab" + " ";
    assert "12345     " == "" + "12345" + "     ";
    TrimIgnoresPadding(" ", "ab", " ");
    TrimIgnoresPadding("", "12345", "     ");
    assert TrimStart("ab") == "ab" && TrimEnd("ab") == "ab";
    assert TrimStart("12345") == "12345" && TrimEnd("12345") == "12345";
    Utf16LengthBounds("ab");
    Utf16LengthBounds("12345");
  }

  /** Length counts code units: two characters beyond U+FFFF already make a
      username of length 4, which passes. */
  method AstralUsernameAccepted() returns (isValid: bool)
    ensures isValid
  {
    var form := FormData("\U{1F600}\U{1F600}", "secret123");
    assert TrimStart(form.username) == form.username && TrimEnd(form.username) == form.username;
    assert TrimStart(form.password) == form.password && TrimEnd(form.password) == form.password;
    assert Utf16Length(form.username) == 4;
    Utf16LengthBounds(form.password);
    var errors;
    isValid, errors := Validate(form);
  }
}
