/** The password rules of the login form. The rules are checked in a fixed
    order and the first one that fails decides the message; the empty string
    means the password is acceptable. */
module Validation {
  import opened Regex

  const MinLength := 6
  const MaxLength := 18

  const LengthMessage := "Password must be 6\U{2013}18 characters."
  const DigitMessage := "Password must include at least one number."
  const SpecialMessage := "Password must include one special character."
  /** What the validator returns for an acceptable password. */
  const NoError := ""

  /** `[0-9]` */
  const DigitClass: CharClass := [Span('0', '9')]

  /** `[!@#$%^&*(),.?":{}|<>]`: twenty literal characters (`^` is literal
      here because it does not stand first). */
  const SpecialClass: CharClass :=
    [Single('!'), Single('@'), Single('#'), Single('$'), Single('%'),
     Single('^'), Single('&'), Single('*'), Single('('), Single(')'),
     Single(','), Single('.'), Single('?'), Single('"'), Single(':'),
     Single('{'), Single('}'), Single('|'), Single('<'), Single('>')]

  /** The characters the special-character rule accepts, as a set. */
  const SpecialChars: set<char> :=
    {'!', '@', '#', '$', '%', '^', '&', '*', '(', ')',
     ',', '.', '?', '"', ':', '{', '}', '|', '<', '>'}

  predicate IsDigit(ch: char) { '0' <= ch <= '9' }

  predicate IsSpecial(ch: char) { ch in SpecialChars }

  predicate LengthOk(pwd: string) { MinLength <= |pwd| <= MaxLength }

  predicate HasDigit(pwd: string)
  {
    exists i :: 0 <= i < |pwd| && IsDigit(pwd[i])
  }

  predicate HasSpecial(pwd: string)
  {
    exists i :: 0 <= i < |pwd| && IsSpecial(pwd[i])
  }

  /** The four strings the validator can return. */
  const Messages: set<string> := {LengthMessage, DigitMessage, SpecialMessage, NoError}

  lemma DigitClassIsDigits(ch: char)
    ensures ClassMatches(DigitClass, ch) <==> IsDigit(ch)
  {
    if IsDigit(ch) {
      assert ItemMatches(DigitClass[0], ch);
    }
  }

  /** A class made of literal characters only matches exactly those characters. */
  lemma LiteralClassMatches(cls: CharClass, ch: char)
    requires forall k :: 0 <= k < |cls| ==> cls[k].Single?
    ensures ClassMatches(cls, ch) <==> Single(ch) in cls
  {
    if ClassMatches(cls, ch) {
      var k :| 0 <= k < |cls| && ItemMatches(cls[k], ch);
      assert cls[k] == Single(ch);
    }
    if Single(ch) in cls {
      var k :| 0 <= k < |cls| && cls[k] == Single(ch);
      assert ItemMatches(cls[k], ch);
    }
  }

  lemma SpecialClassIsSpecialChars(ch: char)
    ensures ClassMatches(SpecialClass, ch) <==> IsSpecial(ch)
  {
    LiteralClassMatches(SpecialClass, ch);
  }

  /** `/[0-9]/.test(pwd)` is the digit rule. */
  lemma DigitTestIsHasDigit(pwd: string)
    ensures RegexTest(DigitClass, pwd) <==> HasDigit(pwd)
  {
    forall i | 0 <= i < |pwd| ensures ClassMatches(DigitClass, pwd[i]) <==> IsDigit(pwd[i]) {
      DigitClassIsDigits(pwd[i]);
    }
  }

  /** `/[!@#$%^&*(),.?":{}|<>]/.test(pwd)` is the special-character rule. */
  lemma SpecialTestIsHasSpecial(pwd: string)
    ensures RegexTest(SpecialClass, pwd) <==> HasSpecial(pwd)
  {
    forall i | 0 <= i < |pwd| ensures ClassMatches(SpecialClass, pwd[i]) <==> IsSpecial(pwd[i]) {
      SpecialClassIsSpecialChars(pwd[i]);
    }
  }

  /** The validator: the length rule first, then the digit rule, then the
      special-character rule; the first rule that fails names the message. */
  function Validate(pwd: string): (msg: string)
    ensures msg in Messages
    ensures msg == LengthMessage <==> !LengthOk(pwd)
    ensures msg == DigitMessage <==> LengthOk(pwd) && !HasDigit(pwd)
    ensures msg == SpecialMessage <==> LengthOk(pwd) && HasDigit(pwd) && !HasSpecial(pwd)
    ensures msg == NoError <==> LengthOk(pwd) && HasDigit(pwd) && HasSpecial(pwd)
  {
    DigitTestIsHasDigit(pwd);
    SpecialTestIsHasSpecial(pwd);
    if |pwd| < MinLength || |pwd| > MaxLength then LengthMessage
    else if !RegexTest(DigitClass, pwd) then DigitMessage
    else if !RegexTest(SpecialClass, pwd) then SpecialMessage
    else NoError
  }

  /** Only the characters of the password matter, not where a digit or a
      special character stands: rearranging it keeps the verdict. */
  lemma {:induction false} ValidateDependsOnCharacters(p: string, q: string)
    requires |p| == |q| && multiset(p) == multiset(q)
    ensures Validate(p) == Validate(q)
  {
    forall i | 0 <= i < |p| ensures p[i] in multiset(q) {
      assert p[i] in multiset(p);
    }
    forall i | 0 <= i < |q| ensures q[i] in multiset(p) {
      assert q[i] in multiset(q);
    }
    if HasDigit(p) {
      var i :| 0 <= i < |p| && IsDigit(p[i]);
      var j :| 0 <= j < |q| && q[j] == p[i];
      assert HasDigit(q);
    }
    if HasDigit(q) {
      var i :| 0 <= i < |q| && IsDigit(q[i]);
      var j :| 0 <= j < |p| && p[j] == q[i];
      assert HasDigit(p);
    }
    if HasSpecial(p) {
      var i :| 0 <= i < |p| && IsSpecial(p[i]);
      var j :| 0 <= j < |q| && q[j] == p[i];
      assert HasSpecial(q);
    }
    if HasSpecial(q) {
      var i :| 0 <= i < |q| && IsSpecial(q[i]);
      var j :| 0 <= j < |p| && p[j] == q[i];
      assert HasSpecial(p);
    }
  }

  /** "abc12" has five characters: the length rule fails first. */
  lemma ValidateTooShort()
    ensures Validate("abc12") == LengthMessage
  {
  }

  /** "abcdef!" has a valid length and a special character but no digit. */
  lemma ValidateNoDigit()
    ensures Validate("abcdef!") == DigitMessage
  {
    assert "abcdef!"[6] == '!';
  }

  /** "abcdef1" has a valid length and a digit but no special character. */
  lemma ValidateNoSpecial()
    ensures Validate("abcdef1") == SpecialMessage
  {
    var p := "abcdef1";
    assert IsDigit(p[6]);
    forall i | 0 <= i < |p| ensures !IsSpecial(p[i]) {
      assert p[i] == 'a' || p[i] == 'b' || p[i] == 'c' || p[i] == 'd' ||
             p[i] == 'e' || p[i] == 'f' || p[i] == '1';
    }
  }

  /** "abc123!" satisfies all three rules. */
  lemma ValidateAccepts()
    ensures Validate("abc123!") == NoError
  {
    assert IsDigit("abc123!"[3]);
    assert IsSpecial("abc123!"[6]);
  }
}
