/** The onboarding screen: the user name is lower-cased and stripped to
    `[a-z0-9]` as it is typed, must be at least three characters long on
    submit, and the referral code comes from the URL or from local storage. */
module Onboarding {
  import opened Account
  import opened Text

  predicate IsNameChar(c: char) {
    IsAsciiLower(c) || IsAsciiDigit(c)
  }

  /** `toLowerCase()` of one character, exact wherever the result can contain a
      character of `[a-z0-9]`: ASCII capitals, U+212A KELVIN SIGN (lower case
      'k') and U+0130 LATIN CAPITAL LETTER I WITH DOT ABOVE (lower case 'i'
      followed by U+0307). Any other character is kept: its lower case has no
      character of `[a-z0-9]` either. */
  function LowerChar(c: char): (r: seq<char>)
    ensures 1 <= |r| <= 2
    ensures c < '\U{0080}' ==> r == [LowerAscii(c)]
    ensures IsAsciiUpper(c) ==> r == [(c as int + 32) as char]
    ensures IsNameChar(c) ==> r == [c]
  {
    if c == '\U{212A}' then ['k']
    else if c == '\U{0130}' then ['i', '\U{0307}']
    else [LowerAscii(c)]
  }

  /** `val.toLowerCase()` */
  function ToLowerCase(s: string): (r: string)
    ensures |s| <= |r| <= 2 * |s|
  {
    if s == [] then [] else LowerChar(s[0]) + ToLowerCase(s[1..])
  }

  /** Lower-casing works character by character: it maps a concatenation to
      the concatenation of the lower-cased parts. */
  lemma {:induction false} ToLowerCaseAppend(a: string, b: string)
    ensures ToLowerCase(a + b) == ToLowerCase(a) + ToLowerCase(b)
  {
    if a == [] {
      assert a + b == b;
    } else {
      assert (a + b)[0] == a[0];
      assert (a + b)[1..] == a[1..] + b;
      ToLowerCaseAppend(a[1..], b);
      calc {
        ToLowerCase(a + b);
        LowerChar(a[0]) + ToLowerCase(a[1..] + b);
        LowerChar(a[0]) + (ToLowerCase(a[1..]) + ToLowerCase(b));
        (LowerChar(a[0]) + ToLowerCase(a[1..])) + ToLowerCase(b);
      }
    }
  }

  /** `.replace(/[^a-z0-9]/g, '')` */
  function KeepNameChars(s: string): (r: string)
    ensures forall i :: 0 <= i < |r| ==> IsNameChar(r[i])
    ensures |r| <= |s|
  {
    if s == [] then []
    else if IsNameChar(s[0]) then [s[0]] + KeepNameChars(s[1..])
    else KeepNameChars(s[1..])
  }

  /** The filter keeps a `[a-z0-9]` character and drops any other, and works
      left to right: filtering a concatenation concatenates the filtered parts,
      so the kept characters stay in their input order. */
  lemma {:induction false} KeepNameCharsAppend(a: string, b: string)
    ensures KeepNameChars(a + b) == KeepNameChars(a) + KeepNameChars(b)
  {
    if a == [] {
      assert a + b == b;
    } else {
      assert (a + b)[0] == a[0];
      assert (a + b)[1..] == a[1..] + b;
      KeepNameCharsAppend(a[1..], b);
    }
  }

  /** A single character is kept exactly when it is in `[a-z0-9]`. */
  lemma KeepNameCharsSingle(c: char)
    ensures KeepNameChars([c]) == if IsNameChar(c) then [c] else []
  {
    assert [c][1..] == [];
  }

  /** `handleNameChange`: the value stored in the name field. */
  function SanitizeName(val: string): (r: string)
    ensures forall i :: 0 <= i < |r| ==> IsNameChar(r[i])
  {
    KeepNameChars(ToLowerCase(val))
  }

  lemma {:induction false} KeepNameCharsKeepsNameStrings(s: string)
    requires forall i :: 0 <= i < |s| ==> IsNameChar(s[i])
    ensures KeepNameChars(s) == s
  {
    if s != [] {
      KeepNameCharsKeepsNameStrings(s[1..]);
    }
  }

  lemma {:induction false} LowerCaseKeepsNameStrings(s: string)
    requires forall i :: 0 <= i < |s| ==> IsNameChar(s[i])
    ensures ToLowerCase(s) == s
  {
    if s != [] {
      LowerCaseKeepsNameStrings(s[1..]);
    }
  }

  /** Sanitising is idempotent. */
  lemma SanitizeIdempotent(val: string)
    ensures SanitizeName(SanitizeName(val)) == SanitizeName(val)
  {
    var r := SanitizeName(val);
    LowerCaseKeepsNameStrings(r);
    KeepNameCharsKeepsNameStrings(r);
  }

  /** For ASCII input the result is the input lower-cased, with every character
      outside `[a-z0-9]` dropped, in order. */
  lemma {:induction false} SanitizeAscii(val: string)
    requires forall i :: 0 <= i < |val| ==> val[i] < '\U{0080}'
    ensures SanitizeName(val) == KeepNameChars(ToLowerAscii(val))
  {
    if val != [] {
      SanitizeAscii(val[1..]);
      assert ToLowerAscii(val) == [LowerAscii(val[0])] + ToLowerAscii(val[1..]);
    }
  }

  /** Two non-ASCII letters survive as ASCII letters. */
  lemma NonAsciiLettersSurvive()
    ensures SanitizeName("\U{212A}2") == "k2"
    ensures SanitizeName("\U{0130}d") == "id"
  {
    assert ToLowerCase("\U{212A}2") == "k2";
    assert ToLowerCase("\U{0130}d") == "i\U{0307}d";
  }

  /** What `handleSubmit` does with the name field. */
  datatype SubmitOutcome =
    | NameError(message: string)
    | CreateProfile(name: string, referralCode: Option<string>)

  /** `urlParams.get('ref') || localStorage.getItem('referralCode')`: an empty
      URL parameter is falsy, so the stored code is used. */
  function ReferralCode(urlRef: Option<string>, storedRef: Option<string>): (r: Option<string>)
    ensures urlRef.Some? && urlRef.value != "" ==> r == urlRef
    ensures !(urlRef.Some? && urlRef.value != "") ==> r == storedRef
  {
    if urlRef.Some? && urlRef.value != "" then urlRef else storedRef
  }

  /** `handleSubmit` up to the `createProfile` call. */
  function Submit(name: string, urlRef: Option<string>, storedRef: Option<string>): (r: SubmitOutcome)
    ensures r.NameError? <==> |name| < 3
    ensures r.NameError? ==> r.message == "Min 3 characters"
    ensures r.CreateProfile? ==> r.name == name && r.referralCode == ReferralCode(urlRef, storedRef)
  {
    if |name| < 3 then NameError("Min 3 characters")
    else CreateProfile(name, ReferralCode(urlRef, storedRef))
  }

  /** A profile is only ever created with a name of at least three characters from `[a-z0-9]`. */
  lemma CreatedNamesAreValid(val: string, urlRef: Option<string>, storedRef: Option<string>)
    ensures var r := Submit(SanitizeName(val), urlRef, storedRef);
      r.CreateProfile? ==> |r.name| >= 3 && forall i :: 0 <= i < |r.name| ==> IsNameChar(r.name[i])
  {
  }
}
