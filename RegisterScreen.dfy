/** The registration screen: the password rule, the email submit's guard and outcomes,
    and the Google sign-in path. */
module Register {
  import opened KotlinText
  import opened Models

  // ---- The password pattern ----
  // isPasswordValid tests `^(?=.*[0-9])(?=.*[a-z])(?=.*[A-Z])(?=.*[@#$%^&+=!])(?=\S+$).{8,}$`
  // with Kotlin's `Regex.matches`, i.e. java.util.regex with the whole input required to
  // match. Below, each part of the pattern is given its java.util.regex meaning.

  /** The line terminators that `.` does not match and `$` may stand before. */
  predicate LineTerminator(c: char) {
    c == '\n' || c == '\r' || c == '\U{0085}' || c == '\U{2028}' || c == '\U{2029}'
  }

  /** `\s` without UNICODE_CHARACTER_CLASS: `[ \t\n\x0B\f\r]`. */
  predicate RegexSpace(c: char) {
    c == ' ' || c == '\t' || c == '\n' || c == '\U{000B}' || c == '\U{000C}' || c == '\r'
  }

  predicate AsciiLower(c: char) { 'a' <= c <= 'z' }
  predicate AsciiUpper(c: char) { 'A' <= c <= 'Z' }
  predicate Special(c: char) { c in "@#$%^&+=!" }

  /** The four classes the lookaheads search for. */
  datatype CharClass = DigitClass | LowerClass | UpperClass | SpecialClass

  predicate InClass(c: char, cls: CharClass) {
    match cls
    case DigitClass => IsDigit(c)
    case LowerClass => AsciiLower(c)
    case UpperClass => AsciiUpper(c)
    case SpecialClass => Special(c)
  }

  /** `$` (no MULTILINE) at position j: at the end, before a final line terminator (not
      between '\r' and '\n'), or before a final "\r\n". */
  predicate DollarAt(s: string, j: nat) {
    j == |s|
    || (j == |s| - 1 && LineTerminator(s[j]) && !(s[j] == '\n' && j > 0 && s[j - 1] == '\r'))
    || (j == |s| - 2 && s[j] == '\r' && s[j + 1] == '\n')
  }

  /** The lookahead `(?=.*[cls])` at position 0: some character of the class is reached
      through characters that `.` matches. */
  predicate DotStarThen(s: string, cls: CharClass) {
    exists k :: 0 <= k < |s| && InClass(s[k], cls) && forall m :: 0 <= m < k ==> !LineTerminator(s[m])
  }

  /** The lookahead `(?=\S+$)` at position 0. */
  predicate NonSpaceRunThenDollar(s: string) {
    exists j :: 1 <= j <= |s| && (forall m :: 0 <= m < j ==> !RegexSpace(s[m])) && DollarAt(s, j)
  }

  /** `.{8,}$` from position 0, where `matches` also needs the match to end at the end. */
  predicate DotsToEnd(s: string) {
    exists k :: 8 <= k <= |s| && (forall m :: 0 <= m < k ==> !LineTerminator(s[m])) && DollarAt(s, k) && k == |s|
  }

  /** `isPasswordValid(pass)`: the pattern's lookaheads and body, all at position 0. */
  predicate IsPasswordValid(pass: string): (valid: bool)
    ensures valid ==> |pass| >= 8 && forall m :: 0 <= m < |pass| ==> !LineTerminator(pass[m])
  {
    DotStarThen(pass, DigitClass) && DotStarThen(pass, LowerClass) && DotStarThen(pass, UpperClass)
    && DotStarThen(pass, SpecialClass) && NonSpaceRunThenDollar(pass) && DotsToEnd(pass)
  }

  /** The rule the pattern implements, stated directly. */
  predicate PasswordRule(pass: string) {
    |pass| >= 8
    && (exists i :: 0 <= i < |pass| && IsDigit(pass[i]))
    && (exists i :: 0 <= i < |pass| && AsciiLower(pass[i]))
    && (exists i :: 0 <= i < |pass| && AsciiUpper(pass[i]))
    && (exists i :: 0 <= i < |pass| && Special(pass[i]))
    && (forall i :: 0 <= i < |pass| ==> !RegexSpace(pass[i]) && !LineTerminator(pass[i]))
  }

  lemma ClassFound(s: string, cls: CharClass)
    requires forall m :: 0 <= m < |s| ==> !LineTerminator(s[m])
    ensures DotStarThen(s, cls) <==> exists i :: 0 <= i < |s| && InClass(s[i], cls)
  {
    if exists i :: 0 <= i < |s| && InClass(s[i], cls) {
      var i :| 0 <= i < |s| && InClass(s[i], cls);
      assert forall m :: 0 <= m < i ==> !LineTerminator(s[m]);
    }
  }

  /** What a match implies: the `.{8,}$` part reaches the end, so no line terminator
      occurs, and so the `\S+` run must reach the end too. */
  lemma MatchFollowsRule(pass: string)
    requires IsPasswordValid(pass)
    ensures PasswordRule(pass)
  {
    var k :| 8 <= k <= |pass| && (forall m :: 0 <= m < k ==> !LineTerminator(pass[m])) && DollarAt(pass, k) && k == |pass|;
    var j :| 1 <= j <= |pass| && (forall m :: 0 <= m < j ==> !RegexSpace(pass[m])) && DollarAt(pass, j);
    if j < |pass| {
      assert LineTerminator(pass[j]);
      assert false;
    }
    ClassFound(pass, DigitClass);
    ClassFound(pass, LowerClass);
    ClassFound(pass, UpperClass);
    ClassFound(pass, SpecialClass);
    assert exists i :: 0 <= i < |pass| && InClass(pass[i], DigitClass);
    assert exists i :: 0 <= i < |pass| && InClass(pass[i], LowerClass);
    assert exists i :: 0 <= i < |pass| && InClass(pass[i], UpperClass);
    assert exists i :: 0 <= i < |pass| && InClass(pass[i], SpecialClass);
  }

  /** What the rule implies: each lookahead finds its character through a line with no
      terminator, and both `$` sit at the end. */
  lemma RuleGivesMatch(pass: string)
    requires PasswordRule(pass)
    ensures IsPasswordValid(pass)
  {
    ClassFound(pass, DigitClass);
    ClassFound(pass, LowerClass);
    ClassFound(pass, UpperClass);
    ClassFound(pass, SpecialClass);
    var i0 :| 0 <= i0 < |pass| && IsDigit(pass[i0]);
    assert InClass(pass[i0], DigitClass);
    var i1 :| 0 <= i1 < |pass| && AsciiLower(pass[i1]);
    assert InClass(pass[i1], LowerClass);
    var i2 :| 0 <= i2 < |pass| && AsciiUpper(pass[i2]);
    assert InClass(pass[i2], UpperClass);
    var i3 :| 0 <= i3 < |pass| && Special(pass[i3]);
    assert InClass(pass[i3], SpecialClass);
    assert DollarAt(pass, |pass|);
  }

  /** The pattern accepts a password exactly when it follows the rule: at least eight
      characters, an ASCII digit, lower-case and upper-case letter and one of
      `@#$%^&+=!`, no `\s` character and no line terminator. */
  lemma PasswordValidIff(pass: string)
    ensures IsPasswordValid(pass) <==> PasswordRule(pass)
  {
    if IsPasswordValid(pass) {
      MatchFollowsRule(pass);
    }
    if PasswordRule(pass) {
      RuleGivesMatch(pass);
    }
  }

  /** A `\s` character or a line terminator anywhere makes the password invalid. */
  lemma BlankOrBreakRejected(pass: string, i: nat)
    requires i < |pass| && (RegexSpace(pass[i]) || LineTerminator(pass[i]))
    ensures !IsPasswordValid(pass)
  {
    PasswordValidIff(pass);
  }

  /** A password that follows the rule. */
  lemma SampleAccepted()
    ensures IsPasswordValid("Nyam2024!")
  {
    var p := "Nyam2024!";
    assert IsDigit(p[4]) && AsciiLower(p[1]) && AsciiUpper(p[0]) && Special(p[8]);
    assert forall i :: 0 <= i < |p| ==> !RegexSpace(p[i]) && !LineTerminator(p[i]);
    RuleGivesMatch(p);
  }

  /** The same password with a space in it. */
  lemma SampleRejected()
    ensures !IsPasswordValid("Nyam 2024!")
  {
    BlankOrBreakRejected("Nyam 2024!", 4);
  }

  // ---- Submit and Google sign-in ----

  datatype RegisterEffect =
    | ToastWeakPassword
    | CreateAccount(email: string, password: string)
    | ToastRegistered
    | GoBack
    | ToastFailed
    | ToastGoogleFailed
    | RegisterSuccess(user: UserData)

  /** The "Daftar Sekarang" click, with the outcome of `createUserWithEmailAndPassword`
      (false when it throws). */
  function SubmitEffects(email: string, password: string, created: bool): (log: seq<RegisterEffect>)
    ensures !IsPasswordValid(password) ==> log == [ToastWeakPassword]
    ensures CreateAccount(email, password) in log <==> IsPasswordValid(password)
    ensures GoBack in log <==> IsPasswordValid(password) && created
    ensures GoBack in log ==> log[|log| - 1] == GoBack && ToastRegistered in log
    ensures forall e :: e in log ==> !e.RegisterSuccess?
  {
    if !IsPasswordValid(password) then [ToastWeakPassword]
    else if created then [CreateAccount(email, password), ToastRegistered, GoBack]
    else [CreateAccount(email, password), ToastFailed]
  }

  /** The Google account picker's result: `getResult` threw, or an account whose ID
      token may be null (a null account is an account without a token). */
  datatype GoogleResult = PickerFailed | Account(idToken: Option<string>)

  /** The activity-result callback, with what `handleGoogleSignIn` returns for the token. */
  function GoogleEffects(result: GoogleResult, signedIn: Option<UserData>): (log: seq<RegisterEffect>)
    ensures result.PickerFailed? <==> log == [ToastGoogleFailed]
    ensures forall u :: RegisterSuccess(u) in log <==> result.Account? && result.idToken.Some? && signedIn == Some(u)
    ensures |log| <= 1
  {
    match result
    case PickerFailed => [ToastGoogleFailed]
    case Account(idToken) =>
      if idToken.Some? && signedIn.Some? then [RegisterSuccess(signedIn.value)] else []
  }
}
