/**
 * The sign-up and sign-in form schemas (validation/form.ts): minimum lengths,
 * the password pattern and the confirm-password rule. The pattern is modelled
 * as the regular expression engine reads it: four look-aheads, each scanning
 * `.*` (any characters but line terminators) for one required character,
 * followed by at least eight characters of the allowed set up to the end.
 * Minimum lengths count UTF-16 code units, as JavaScript's `length` does. The
 * pattern has no unicode flag and so also reads code units; since no
 * surrogate is a line terminator or in any of its classes, reading it over
 * characters accepts the same strings.
 */
module FormValidation {
  import opened Wrappers
  import opened SettingSchema

  predicate IsLower(c: char) { 'a' <= c <= 'z' }
  predicate IsUpper(c: char) { 'A' <= c <= 'Z' }
  predicate IsSpecial(c: char) { c in "@$!%*?&" }

  /** The class `[A-Za-z\d@$!%*?&]`. */
  predicate IsAllowed(c: char)
  {
    IsLower(c) || IsUpper(c) || IsDigit(c) || IsSpecial(c)
  }

  /** The characters `.` does not match. */
  predicate IsLineTerminator(c: char)
  {
    c == '\n' || c == '\r' || c == '\U{2028}' || c == '\U{2029}'
  }

  /** `(?=.*[class])` at the start: some character of the class comes before any line terminator. */
  ghost predicate LookaheadFinds(s: string, inClass: char -> bool)
  {
    exists i :: 0 <= i < |s| && inClass(s[i]) && NoTerminatorBefore(s, i)
  }

  predicate NoTerminatorBefore(s: string, i: int)
    requires 0 <= i <= |s|
  {
    forall j :: 0 <= j < i ==> !IsLineTerminator(s[j])
  }

  /** The password pattern as the engine matches it. */
  ghost predicate PatternMatches(s: string): (m: bool)
    ensures m ==> Contains(s, IsLower) && Contains(s, IsUpper) && Contains(s, IsDigit) && Contains(s, IsSpecial)
  {
    LookaheadFinds(s, IsLower) && LookaheadFinds(s, IsUpper) &&
    LookaheadFinds(s, IsDigit) && LookaheadFinds(s, IsSpecial) &&
    |s| >= 8 && forall i :: 0 <= i < |s| ==> IsAllowed(s[i])
  }

  /** Some character of `s` belongs to the class. */
  predicate Contains(s: string, inClass: char -> bool)
  {
    exists i :: 0 <= i < |s| && inClass(s[i])
  }

  /**
   * The rule the pattern's message states: at least eight characters, all of
   * them letters, digits or one of `@$!%*?&`, with at least one lower-case
   * letter, one upper-case letter, one digit and one special character.
   */
  predicate StrongPassword(s: string)
  {
    |s| >= 8 && (forall i :: 0 <= i < |s| ==> IsAllowed(s[i])) &&
    Contains(s, IsLower) && Contains(s, IsUpper) && Contains(s, IsDigit) && Contains(s, IsSpecial)
  }

  /** Within allowed characters no line terminator occurs, so each look-ahead is a plain search. */
  lemma LookaheadIsSearch(s: string, inClass: char -> bool)
    requires forall i :: 0 <= i < |s| ==> IsAllowed(s[i])
    ensures LookaheadFinds(s, inClass) <==> Contains(s, inClass)
  {
    if Contains(s, inClass) {
      var i :| 0 <= i < |s| && inClass(s[i]);
      assert NoTerminatorBefore(s, i);
    }
  }

  /** The pattern accepts exactly the strong passwords. */
  lemma PatternIffStrong(s: string)
    ensures PatternMatches(s) <==> StrongPassword(s)
  {
    if forall i :: 0 <= i < |s| ==> IsAllowed(s[i]) {
      LookaheadIsSearch(s, IsLower);
      LookaheadIsSearch(s, IsUpper);
      LookaheadIsSearch(s, IsDigit);
      LookaheadIsSearch(s, IsSpecial);
    }
  }

  /**
   * A JavaScript string's `length`, which zod's `min` compares: a character
   * outside the Basic Multilingual Plane takes two UTF-16 code units.
   */
  function Utf16Length(s: string): (n: nat)
    ensures |s| <= n <= 2 * |s|
  {
    if s == [] then 0 else (if s[0] as int >= 0x1_0000 then 2 else 1) + Utf16Length(s[1..])
  }

  /** On characters of the Basic Multilingual Plane the two lengths agree. */
  lemma {:induction false} BmpLengthAgrees(s: string)
    requires forall i :: 0 <= i < |s| ==> s[i] as int < 0x1_0000
    ensures Utf16Length(s) == |s|
  {
    if s != [] {
      BmpLengthAgrees(s[1..]);
    }
  }

  const PatternMessage: string :=
    "Password must contain at least one uppercase letter, one lowercase letter, one number, and one special character"

  /**
   * A password field's minimum length, then the pattern, both reported when
   * both fail; the `.uppercase()` and `.lowercase()` checks are not modelled.
   */
  function PasswordIssues(field: string, s: string): (issues: seq<Issue>)
    ensures issues == [] <==> StrongPassword(s)
    ensures Utf16Length(s) < 8 ==> |issues| == 2
    ensures Utf16Length(s) >= 8 ==> |issues| == (if StrongPassword(s) then 0 else 1)
    ensures forall i :: 0 <= i < |issues| ==> issues[i].path == field
  {
    (if Utf16Length(s) < 8 then [Issue(field, "Password must be at least 8 characters long")] else []) +
    (if StrongPassword(s) then [] else [Issue(field, PatternMessage)])
  }

  /** The `superRefine` step: one issue on `confirmPassword` when the two fields differ. */
  function ConfirmIssues(password: string, confirmPassword: string): (issues: seq<Issue>)
    ensures confirmPassword == password <==> issues == []
    ensures confirmPassword != password ==> issues == [Issue("confirmPassword", "Passwords do not match")]
  {
    if confirmPassword != password then [Issue("confirmPassword", "Passwords do not match")] else []
  }

  /** `username`: at least three UTF-16 code units. */
  function UsernameIssues(username: string): (issues: seq<Issue>)
    ensures issues == [] <==> Utf16Length(username) >= 3
    ensures |username| >= 3 ==> issues == []
  {
    if Utf16Length(username) < 3 then [Issue("username", "Username must be at least 3 characters long")] else []
  }

  /**
   * `signUpSchema` on string fields: the field checks in field order, then
   * the confirm rule. The `.email()`, `.uppercase()` and `.lowercase()`
   * checks are not modelled.
   */
  function SignUpIssues(username: string, password: string, confirmPassword: string): (issues: seq<Issue>)
    ensures |issues| <= 6
    ensures forall i :: 0 <= i < |issues| ==>
      issues[i].path == "username" || issues[i].path == "password" || issues[i].path == "confirmPassword"
  {
    UsernameIssues(username) + PasswordIssues("password", password) +
    PasswordIssues("confirmPassword", confirmPassword) + ConfirmIssues(password, confirmPassword)
  }

  /** An emoji and one letter are two characters but three code units, and pass `min(3)`. */
  lemma EmojiUsernameAccepted()
    ensures |"\U{1F600}a"| == 2
    ensures UsernameIssues("\U{1F600}a") == []
  {
  }

  /**
   * Four emoji and a letter are five characters but nine code units: the
   * length check passes and only the pattern issue is reported.
   */
  lemma EmojiPasswordOnlyPatternIssue()
    ensures PasswordIssues("password", "\U{1F600}\U{1F600}\U{1F600}\U{1F600}a") ==
      [Issue("password", PatternMessage)]
  {
    var s := "\U{1F600}\U{1F600}\U{1F600}\U{1F600}a";
    assert !IsAllowed(s[0]);
  }

  /** The number of issues carrying a given message. */
  function CountMessage(issues: seq<Issue>, message: string): nat
  {
    if issues == [] then 0
    else (if issues[0].message == message then 1 else 0) + CountMessage(issues[1..], message)
  }

  lemma {:induction false} CountMessageAppend(a: seq<Issue>, b: seq<Issue>, message: string)
    ensures CountMessage(a + b, message) == CountMessage(a, message) + CountMessage(b, message)
  {
    if a == [] {
      assert a + b == b;
    } else {
      assert (a + b)[1..] == a[1..] + b;
      CountMessageAppend(a[1..], b, message);
    }
  }

  /**
   * Leaving the `.email()`, `.uppercase()` and `.lowercase()` checks aside,
   * the sign-up form is accepted exactly when the username has three
   * code units, both passwords are strong and they are equal; a mismatch is
   * reported exactly once, on `confirmPassword`.
   */
  lemma SignUpAcceptsIff(username: string, password: string, confirmPassword: string)
    ensures SignUpIssues(username, password, confirmPassword) == [] <==>
      Utf16Length(username) >= 3 && StrongPassword(password) && StrongPassword(confirmPassword) && confirmPassword == password
    ensures CountMessage(SignUpIssues(username, password, confirmPassword), "Passwords do not match") ==
      (if confirmPassword != password then 1 else 0)
  {
    var m := "Passwords do not match";
    var u, p, c, r := UsernameIssues(username), PasswordIssues("password", password),
      PasswordIssues("confirmPassword", confirmPassword), ConfirmIssues(password, confirmPassword);
    NoMismatchMessage(u, m);
    NoMismatchMessage(p, m);
    NoMismatchMessage(c, m);
    CountMessageAppend(u, p, m);
    CountMessageAppend(u + p, c, m);
    CountMessageAppend(u + p + c, r, m);
  }

  /** A list without the mismatch message counts none of it. */
  lemma {:induction false} NoMismatchMessage(issues: seq<Issue>, m: string)
    requires forall i :: 0 <= i < |issues| ==> issues[i].message != m
    ensures CountMessage(issues, m) == 0
  {
    if issues != [] {
      NoMismatchMessage(issues[1..], m);
    }
  }

  /** `signInSchema`: both fields must be non-empty. */
  function SignInIssues(usernameOrEmail: string, password: string): (issues: seq<Issue>)
    ensures issues == [] <==> |usernameOrEmail| >= 1 && |password| >= 1
    ensures |issues| == (if usernameOrEmail == "" then 1 else 0) + (if password == "" then 1 else 0)
  {
    (if |usernameOrEmail| < 1 then [Issue("usernameOrEmail", "Username or email is required")] else []) +
    (if |password| < 1 then [Issue("password", "Password is required")] else [])
  }
}
