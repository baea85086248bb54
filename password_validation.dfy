/** The password rules of the sign-up form: at least eight characters, a
    digit and a special character, with a message listing what is missing. */
module PasswordValidation {
  import opened Common
  import opened Text

  /** The characters of the class `[!@#$%^&*(),.?":{}|<>]`. */
  const SpecialChars: string := "!@#$%^&*(),.?\":{}|<>"

  /** `/\d/` without the unicode flag: an ASCII digit. */
  predicate IsDigit(c: char) {
    '0' <= c <= '9'
  }

  predicate HasMinLength(password: string) {
    |password| >= 8
  }

  predicate HasNumber(password: string) {
    exists i :: 0 <= i < |password| && IsDigit(password[i])
  }

  predicate HasSpecialChar(password: string) {
    exists i :: 0 <= i < |password| && password[i] in SpecialChars
  }

  predicate IsValid(password: string) {
    HasMinLength(password) && HasNumber(password) && HasSpecialChar(password)
  }

  /** The value the hook returns. */
  datatype Validation = Validation(
    isValid: bool,
    hasMinLength: bool,
    hasNumber: bool,
    hasSpecialChar: bool,
    message: string)

  const MessagePrefix: string := "Password needs: "
  const NeedLength: string := "8+ characters"
  const NeedNumber: string := "1 number"
  const NeedSpecial: string := "1 special character"

  /** The missing requirements, in the fixed order length, number, special character. */
  function Missing(password: string): (m: seq<string>)
    ensures NeedLength in m <==> !HasMinLength(password)
    ensures NeedNumber in m <==> !HasNumber(password)
    ensures NeedSpecial in m <==> !HasSpecialChar(password)
    ensures m == [] <==> IsValid(password)
    ensures IsSubsequence(m, [NeedLength, NeedNumber, NeedSpecial])
  {
    OptionalsInOrder(NeedLength, NeedNumber, NeedSpecial,
      !HasMinLength(password), !HasNumber(password), !HasSpecialChar(password));
    (if HasMinLength(password) then [] else [NeedLength])
    + (if HasNumber(password) then [] else [NeedNumber])
    + (if HasSpecialChar(password) then [] else [NeedSpecial])
  }

  /** Optional copies of three distinct values, kept in their order, form a
      subsequence of the three. */
  lemma OptionalsInOrder<T>(x: T, y: T, z: T, kx: bool, ky: bool, kz: bool)
    requires x != y && y != z && x != z
    ensures IsSubsequence((if kx then [x] else []) + (if ky then [y] else []) + (if kz then [z] else []), [x, y, z])
  {
    var c := if kz then [z] else [];
    var bc := (if ky then [y] else []) + c;
    var abc := (if kx then [x] else []) + bc;
    SubsequenceOfSelf(c);
    if ky { SubsequenceKeepHead(y, c, [z]); } else { SubsequenceSkipHead(y, c, [z]); }
    assert [y] + [z] == [y, z] && [x] + [y, z] == [x, y, z];
    if kx { SubsequenceKeepHead(x, bc, [y, z]); } else { SubsequenceSkipHead(x, bc, [y, z]); }
  }

  /** The message the hook computes: empty for an empty or valid password,
      otherwise the prefix followed by the missing items joined by ", ". */
  function ExpectedMessage(password: string): (msg: string)
    ensures msg == "" <==> |password| == 0 || IsValid(password)
    ensures msg != "" ==> StartsWith(msg, MessagePrefix)
  {
    if |password| > 0 && !IsValid(password) then
      var msg := MessagePrefix + Join(Missing(password), ", ");
      assert msg[..|MessagePrefix|] == MessagePrefix;
      msg
    else ""
  }

  /** `usePasswordValidation(password)`: the flags, and the message built by
      pushing the missing items onto a list. */
  method Validate(password: string) returns (v: Validation)
    ensures v.hasMinLength <==> |password| >= 8
    ensures v.hasNumber <==> exists i :: 0 <= i < |password| && '0' <= password[i] <= '9'
    ensures v.hasSpecialChar <==> exists i :: 0 <= i < |password| && password[i] in SpecialChars
    ensures v.isValid <==> v.hasMinLength && v.hasNumber && v.hasSpecialChar
    ensures v.message == ExpectedMessage(password)
  {
    var hasMinLength := |password| >= 8;
    var hasNumber := HasNumber(password);
    var hasSpecialChar := HasSpecialChar(password);
    var isValid := hasMinLength && hasNumber && hasSpecialChar;

    var message := "";
    if |password| > 0 && !isValid {
      var missing: seq<string> := [];
      if !hasMinLength { missing := missing + [NeedLength]; }
      if !hasNumber { missing := missing + [NeedNumber]; }
      if !hasSpecialChar { missing := missing + [NeedSpecial]; }
      assert missing == Missing(password);
      message := MessagePrefix + Join(missing, ", ");
    }
    v := Validation(isValid, hasMinLength, hasNumber, hasSpecialChar, message);
  }

  /** The empty password is invalid and gets no message. */
  lemma EmptyPasswordInvalidSilent()
    ensures !IsValid("") && ExpectedMessage("") == ""
  {
  }

  /** No letter or digit is a special character. */
  lemma NoAlphanumericSpecial(c: char)
    requires 'a' <= c <= 'z' || 'A' <= c <= 'Z' || IsDigit(c)
    ensures c !in SpecialChars
  {
    forall i | 0 <= i < |SpecialChars| ensures SpecialChars[i] != c {}
  }

  /** Three parts joined. */
  lemma JoinThree(a: string, b: string, c: string, sep: string)
    ensures Join([a, b, c], sep) == a + sep + b + sep + c
  {
    assert [a, b, c][1..] == [b, c];
    assert [b, c][1..] == [c];
    assert Join([b, c], sep) == b + sep + c;
  }

  /** A non-empty missing list `m` gives the prefix followed by `m` joined. */
  lemma MessageOfMissing(password: string, m: seq<string>)
    requires |password| > 0 && Missing(password) == m && m != []
    ensures ExpectedMessage(password) == MessagePrefix + Join(m, ", ")
  {
  }

  /** "abc" is short and has neither a digit nor a special character. */
  lemma AbcMissesAll()
    ensures Missing("abc") == [NeedLength, NeedNumber, NeedSpecial]
  {
    assert !HasNumber("abc") by {
      forall i | 0 <= i < 3 ensures !IsDigit("abc"[i]) {}
    }
    assert !HasSpecialChar("abc") by {
      forall i | 0 <= i < 3 ensures "abc"[i] !in SpecialChars {}
    }
  }

  /** A short password with neither digit nor special character lists all three, in order. */
  lemma AllMissingMessage()
    ensures ExpectedMessage("abc") == MessagePrefix + NeedLength + ", " + NeedNumber + ", " + NeedSpecial
  {
    var m := [NeedLength, NeedNumber, NeedSpecial];
    AbcMissesAll();
    MessageOfMissing("abc", m);
    JoinThree(NeedLength, NeedNumber, NeedSpecial, ", ");
  }

  /** A long password with a digit but no special character lacks only that. */
  lemma OnlySpecialMissingMessage()
    ensures ExpectedMessage("password1") == MessagePrefix + NeedSpecial
  {
    var pw := "password1";
    assert IsDigit(pw[8]);
    assert !HasSpecialChar(pw) by {
      forall i | 0 <= i < |pw| ensures pw[i] !in SpecialChars {
        NoAlphanumericSpecial(pw[i]);
      }
    }
    assert Missing(pw) == [NeedSpecial];
  }
}
