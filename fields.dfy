/** The Option type that the field checks return: `None` for a valid field,
    `Some(message)` for the message shown under an invalid one. */
module Options {
  datatype Option<+T> = None | Some(value: T)
}

/**
 Field rules shared by the sign-in and sign-up screens: the account role, the
 two regular expressions written out as predicates on strings, and the
 password rule both screens apply with the same messages.
 */
module Fields {
  import opened Text
  import opened Options

  /** The account type chosen with the two buttons at the top of both forms. */
  datatype Role = Student | Teacher
  {
    /** The string the screens store under `userType`. */
    function Name(): (s: string)
      ensures s == "student" || s == "teacher"
      ensures s == "teacher" <==> this == Teacher
    {
      match this
      case Student => "student"
      case Teacher => "teacher"
    }
  }

  // ---------------------------------------------------------------------------
  // The email pattern  ^[^\s@]+@[^\s@]+\.[^\s@]+$

  /** The class `[^\s@]`. */
  predicate Plain(c: char)
  {
    !IsWhitespace(c) && c != '@'
  }

  predicate AllPlain(s: string)
  {
    forall i | 0 <= i < |s| :: Plain(s[i])
  }

  /** The email regular expression read literally: three non-empty runs of
      `[^\s@]`, the first two separated by '@' (at index `i`) and the last two by
      '.' (at index `j`), covering the whole string. */
  ghost predicate EmailRegex(s: string)
  {
    exists i, j | 0 < i && i + 1 < j && j + 1 < |s| ::
      && s[i] == '@' && s[j] == '.'
      && AllPlain(s[..i]) && AllPlain(s[i + 1..j]) && AllPlain(s[j + 1..])
  }

  /** The domain part after '@': no whitespace and no '@', and a '.' that is
      neither its first nor its last character. */
  predicate DomainShape(d: string)
  {
    AllPlain(d) && exists j | 0 < j < |d| - 1 :: d[j] == '.'
  }

  /** The shape `L@R`: a non-empty local part `L` without whitespace or '@',
      then '@', then a domain part `R` of shape `DomainShape`. The screen runs
      the regular expression `EmailRegex`; this split at the '@' is proved to
      accept the same strings (`MatchesEmailIffRegex`) and is the executable
      form the rules evaluate. */
  predicate MatchesEmail(s: string)
  {
    exists i | 0 < i < |s| :: s[i] == '@' && AllPlain(s[..i]) && DomainShape(s[i + 1..])
  }

  /** Every string of `[^\s@]` characters splits into two such strings. */
  lemma AllPlainSlices(s: string, lo: nat, hi: nat)
    requires AllPlain(s) && lo <= hi <= |s|
    ensures AllPlain(s[lo..hi])
  {
    assert forall k | 0 <= k < hi - lo :: s[lo..hi][k] == s[lo + k];
  }

  /** A run of `[^\s@]`, a '.', and another run make one run. */
  lemma AllPlainJoin(a: string, b: string)
    requires AllPlain(a) && AllPlain(b)
    ensures AllPlain(a + ['.'] + b)
  {
    var s := a + ['.'] + b;
    forall k | 0 <= k < |s| ensures Plain(s[k]) {
      if k < |a| { assert s[k] == a[k]; }
      else if k > |a| { assert s[k] == b[k - |a| - 1]; }
    }
  }

  /** Cutting the suffix `s[a..]` around its index `k`. */
  lemma SuffixSplit(s: string, a: nat, k: nat)
    requires a + k < |s|
    ensures s[a..][0..k] == s[a..a + k]
    ensures s[a..][k + 1..|s| - a] == s[a + k + 1..]
  {
  }

  /** The suffix `s[lo..]` is what precedes index `j`, the character at `j`, and what follows it. */
  lemma SplitAround(s: string, lo: nat, j: nat)
    requires lo <= j < |s|
    ensures s[lo..] == s[lo..j] + [s[j]] + s[j + 1..]
  {
  }

  lemma MatchesEmailImpliesRegex(s: string)
    requires MatchesEmail(s)
    ensures EmailRegex(s)
  {
    var i :| 0 < i < |s| && s[i] == '@' && AllPlain(s[..i]) && DomainShape(s[i + 1..]);
    var d := s[i + 1..];
    var k :| 0 < k < |d| - 1 && d[k] == '.';
    var j := i + 1 + k;
    AllPlainSlices(d, 0, k);
    AllPlainSlices(d, k + 1, |d|);
    SuffixSplit(s, i + 1, k);
    assert s[j] == '.';
    assert 0 < i && i + 1 < j && j + 1 < |s| && s[i] == '@' && s[j] == '.'
      && AllPlain(s[..i]) && AllPlain(s[i + 1..j]) && AllPlain(s[j + 1..]);
  }

  lemma RegexImpliesMatchesEmail(s: string)
    requires EmailRegex(s)
    ensures MatchesEmail(s)
  {
    var i, j :| 0 < i && i + 1 < j && j + 1 < |s| && s[i] == '@' && s[j] == '.'
      && AllPlain(s[..i]) && AllPlain(s[i + 1..j]) && AllPlain(s[j + 1..]);
    var d := s[i + 1..];
    SplitAround(s, i + 1, j);
    AllPlainJoin(s[i + 1..j], s[j + 1..]);
    assert d[j - (i + 1)] == '.';
    assert DomainShape(d);
  }

  /** The `L@R` test accepts exactly the strings the regular expression accepts. */
  lemma MatchesEmailIffRegex(s: string)
    ensures MatchesEmail(s) <==> EmailRegex(s)
  {
    if MatchesEmail(s) { MatchesEmailImpliesRegex(s); }
    if EmailRegex(s) { RegexImpliesMatchesEmail(s); }
  }

  /** A string the email pattern accepts is not blank: its first character is
      neither whitespace nor '@'. */
  lemma {:induction false} EmailIsNotBlank(s: string)
    ensures EmailRegex(s) ==> !IsBlank(s)
  {
    if EmailRegex(s) {
      var i, j :| 0 < i && i + 1 < j && j + 1 < |s| && s[i] == '@' && s[j] == '.'
        && AllPlain(s[..i]) && AllPlain(s[i + 1..j]) && AllPlain(s[j + 1..]);
      assert s[..i][0] == s[0];
      BlankIffAllWhitespace(s);
    }
  }

  // ---------------------------------------------------------------------------
  // The phone pattern  ^[\d\s\+\-\(\)]+$

  /** The class `[\d\s\+\-\(\)]`. */
  predicate PhoneChar(c: char)
  {
    IsAsciiDigit(c) || IsWhitespace(c) || c == '+' || c == '-' || c == '(' || c == ')'
  }

  /** The phone regular expression: one or more characters, each in the class. */
  predicate MatchesPhone(s: string)
  {
    |s| > 0 && forall i | 0 <= i < |s| :: PhoneChar(s[i])
  }

  // ---------------------------------------------------------------------------
  // Field names and the password rule, shared by both screens

  /** The two field names both forms share, used as error-map keys. */
  const PasswordField := "password"
  const PhoneField := "phone"

  const PasswordRequired := "Введите пароль"
  const PasswordTooShort := "Пароль должен содержать минимум 6 символов"
  const MinPasswordLength := 6

  /** Empty: "required"; shorter than six characters: "too short"; otherwise
      valid. No trimming is applied. */
  function PasswordError(password: string): (r: Option<string>)
    ensures password == "" ==> r == Some(PasswordRequired)
    ensures 0 < |password| < MinPasswordLength ==> r == Some(PasswordTooShort)
    ensures r == None <==> |password| >= MinPasswordLength
  {
    if password == "" then Some(PasswordRequired)
    else if |password| < MinPasswordLength then Some(PasswordTooShort)
    else None
  }
}
