// The password rules of the `PasswordValidations` concern: a present
// password must differ from the e-mail address and from every entry of a
// fixed list of common passwords, both ignoring case.

module PasswordValidations {
  import opened Common

  /** The fixed list of passwords refused as too easy to guess. */
  const CommonPasswords: seq<string> := [
    "aaa", "aaa12345", "1234", "12345", "123456", "1234567", "12345678", "123456789",
    "password", "password1", "password12", "password123", "passw0rd", "pass1234",
    "qwerty", "qwerty123", "admin", "admin123", "administrator", "root", "guest",
    "letmein", "welcome", "welcome1", "monkey", "dragon", "master", "login",
    "abc123", "abcdef", "111111", "000000", "654321", "p@ssw0rd",
    "test", "test1234", "sample", "changeme", "default"]

  datatype PasswordError = SameAsEmail | TooCommon

  /** Whether the rule behind `e` fires; `None` is an absent attribute. */
  predicate PasswordViolates(e: PasswordError, password: Option<string>, email: Option<string>)
  {
    match e
    case SameAsEmail =>
      !BlankOpt(password) && !BlankOpt(email) && CaseEq(password.value, email.value)
    case TooCommon =>
      !BlankOpt(password) && IsCommon(password.value)
  }

  /** `list.any? { |common| password.casecmp(common).zero? }`. */
  predicate AnyCaseEq(password: string, list: seq<string>)
    decreases |list|
  {
    |list| > 0 && (CaseEq(password, list[0]) || AnyCaseEq(password, list[1..]))
  }

  predicate IsCommon(password: string)
  {
    AnyCaseEq(password, CommonPasswords)
  }

  /** The errors the two validations add to `password`. */
  function PasswordErrors(password: Option<string>, email: Option<string>): (r: set<PasswordError>)
    ensures SameAsEmail in r <==> PasswordViolates(SameAsEmail, password, email)
    ensures TooCommon in r <==> PasswordViolates(TooCommon, password, email)
  {
    (if PasswordViolates(SameAsEmail, password, email) then {SameAsEmail} else {})
    + (if PasswordViolates(TooCommon, password, email) then {TooCommon} else {})
  }

  /** No upper-case ASCII letter occurs in `s`. */
  predicate IsLower(s: string)
  {
    forall i :: 0 <= i < |s| ==> !('A' <= s[i] <= 'Z')
  }

  lemma LowerIsDowncased(s: string)
    requires IsLower(s)
    ensures Downcase(s) == s
  {
  }

  /** Every list entry is already in lower case. */
  lemma CommonPasswordsLower()
    ensures forall i :: 0 <= i < |CommonPasswords| ==> IsLower(CommonPasswords[i])
  {
    FirstEntriesLower();
    SecondEntriesLower();
    ThirdEntriesLower();
    LastEntriesLower();
  }

  lemma FirstEntriesLower()
    ensures forall i :: 0 <= i < 10 ==> IsLower(CommonPasswords[i])
  {
  }

  lemma SecondEntriesLower()
    ensures forall i :: 10 <= i < 20 ==> IsLower(CommonPasswords[i])
  {
  }

  lemma ThirdEntriesLower()
    ensures forall i :: 20 <= i < 30 ==> IsLower(CommonPasswords[i])
  {
  }

  lemma LastEntriesLower()
    ensures forall i :: 30 <= i < |CommonPasswords| ==> IsLower(CommonPasswords[i])
  {
  }

  /** The scan finds a match exactly when some entry equals the password ignoring case. */
  lemma {:induction false} AnyCaseEqExists(password: string, list: seq<string>)
    ensures AnyCaseEq(password, list) <==> exists i :: 0 <= i < |list| && CaseEq(password, list[i])
    decreases |list|
  {
    if |list| > 0 {
      AnyCaseEqExists(password, list[1..]);
      if exists i :: 0 <= i < |list| && CaseEq(password, list[i]) {
        var i :| 0 <= i < |list| && CaseEq(password, list[i]);
        if i > 0 {
          assert list[1..][i - 1] == list[i];
        }
      }
    }
  }

  /** Against an all-lower-case list the scan is membership of the lower-cased password. */
  lemma LowerListScan(password: string, list: seq<string>)
    requires forall i :: 0 <= i < |list| ==> IsLower(list[i])
    ensures AnyCaseEq(password, list) <==> Downcase(password) in list
  {
    AnyCaseEqExists(password, list);
    var d := Downcase(password);
    if d in list {
      var i :| 0 <= i < |list| && list[i] == d;
      LowerIsDowncased(list[i]);
      assert CaseEq(password, list[i]);
    }
    if AnyCaseEq(password, list) {
      var i :| 0 <= i < |list| && CaseEq(password, list[i]);
      LowerIsDowncased(list[i]);
    }
  }

  /** The common-password rule fires exactly for a present password whose
    * lower-cased form is on the list. */
  lemma TooCommonIffListed(password: Option<string>, email: Option<string>)
    ensures TooCommon in PasswordErrors(password, email)
            <==> !BlankOpt(password) && Downcase(password.value) in CommonPasswords
  {
    CommonPasswordsLower();
    if password.Some? {
      LowerListScan(password.value, CommonPasswords);
    }
  }

  /** Neither rule looks at a blank password. */
  lemma BlankPasswordNoErrors(password: Option<string>, email: Option<string>)
    requires BlankOpt(password)
    ensures PasswordErrors(password, email) == {}
  {
    assert !PasswordViolates(SameAsEmail, password, email);
  }

  /** The e-mail rule is case-insensitive and symmetric in upper and lower case. */
  lemma SameAsEmailIgnoresCase(password: string, email: string)
    requires Present(password) && Present(email)
    requires Downcase(password) == Downcase(email)
    ensures SameAsEmail in PasswordErrors(Some(password), Some(email))
  {
  }

  /** "password" is refused in every capitalisation. */
  lemma AnyCapitalisationRefused(password: string, email: Option<string>)
    requires Downcase(password) == "password"
    ensures TooCommon in PasswordErrors(Some(password), email)
  {
    DowncasedWordPresent(password);
    PasswordListed();
    TooCommonIffListed(Some(password), email);
  }

  lemma DowncasedWordPresent(password: string)
    requires Downcase(password) == "password"
    ensures !Blank(password)
  {
    assert Downcase(password)[0] == 'p';
    assert password[0] == 'p' || password[0] == 'P';
  }

  lemma PasswordListed()
    ensures "password" in CommonPasswords
  {
    assert CommonPasswords[8] == "password";
  }
}
