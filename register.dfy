/**
 The sign-up screen: its form state, the field rules `validateForm` applies,
 the per-field clearing of errors on edit, and the session entries a
 successful submit writes to the browser store.
 */
module Register {
  import opened Text
  import opened Options
  import opened Fields
  import opened Session

  /** The fixed teacher access code, compared literally. */
  const TeacherSecretCode := "060320"

  const FirstNameField := "firstName"
  const LastNameField := "lastName"
  const EmailField := "email"
  const ConfirmPasswordField := "confirmPassword"
  const TeacherCodeField := "teacherCode"
  const ClassNameField := "className"

  const FirstNameRequired := "Введите имя"
  const LastNameRequired := "Введите фамилию"
  const EmailRequired := "Введите email"
  const EmailBadFormat := "Неверный формат email"
  const PasswordsDiffer := "Пароли не совпадают"
  const TeacherCodeRequired := "Введите код доступа для учителя"
  const TeacherCodeWrong := "Неверный код доступа. Регистрация учителей доступна только по специальному коду."
  const ClassNameRequired := "Укажите класс"

  /** The keys of the form record; `phone` is among them but is never checked. */
  function FormFields(): set<string>
  {
    {FirstNameField, LastNameField, EmailField, PasswordField, ConfirmPasswordField,
     TeacherCodeField, ClassNameField, PhoneField}
  }

  /** The keys `validateForm` can report an error under. */
  function CheckedFields(): (ks: set<string>)
    ensures ks == FormFields() - {PhoneField}
  {
    {FirstNameField, LastNameField, EmailField, PasswordField, ConfirmPasswordField,
     TeacherCodeField, ClassNameField}
  }

  /** The eight field names are pairwise different (told apart by their first
      two characters). */
  lemma FieldNamesDistinct()
    ensures |FormFields()| == 8
    ensures FirstNameField !in {LastNameField, EmailField, PasswordField, ConfirmPasswordField, TeacherCodeField, ClassNameField, PhoneField}
    ensures LastNameField !in {EmailField, PasswordField, ConfirmPasswordField, TeacherCodeField, ClassNameField, PhoneField}
    ensures EmailField !in {PasswordField, ConfirmPasswordField, TeacherCodeField, ClassNameField, PhoneField}
    ensures PasswordField !in {ConfirmPasswordField, TeacherCodeField, ClassNameField, PhoneField}
    ensures ConfirmPasswordField !in {TeacherCodeField, ClassNameField, PhoneField}
    ensures TeacherCodeField !in {ClassNameField, PhoneField}
    ensures ClassNameField != PhoneField
  {
    assert FirstNameField[0] == 'f' && LastNameField[0] == 'l' && EmailField[0] == 'e' && TeacherCodeField[0] == 't';
    assert PasswordField[..2] == "pa" && PhoneField[..2] == "ph";
    assert ConfirmPasswordField[..2] == "co" && ClassNameField[..2] == "cl";
  }

  /** The checked keys in the order `validateForm` visits them. */
  lemma CheckedFieldsInOrder()
    ensures {} + {FirstNameField} + {LastNameField} + {EmailField} + {PasswordField}
      + {ConfirmPasswordField} + {TeacherCodeField} + {ClassNameField} == CheckedFields()
  {
  }

  /** The form record as the screen first renders it: every field empty. */
  function EmptyForm(): (form: map<string, string>)
    ensures form.Keys == FormFields()
    ensures forall k | k in form :: form[k] == ""
  {
    map k | k in FormFields() :: ""
  }

  /** A form record holds every field of the screen (edits may add more keys). */
  predicate WellFormed(form: map<string, string>)
  {
    FormFields() <= form.Keys
  }

  /** A well-formed record has a value under each field name. */
  lemma WellFormedHasFields(form: map<string, string>)
    requires WellFormed(form)
    ensures FirstNameField in form && LastNameField in form && EmailField in form && PasswordField in form
    ensures ConfirmPasswordField in form && TeacherCodeField in form && ClassNameField in form && PhoneField in form
  {
  }

  // ---------------------------------------------------------------------------
  // Field rules

  /** First and last name: required, where a whitespace-only value counts as empty. */
  function NameError(name: string, message: string): (r: Option<string>)
    ensures r.Some? <==> AllWhitespace(name)
    ensures r.Some? ==> r.value == message
  {
    BlankIffAllWhitespace(name);
    if IsBlank(name) then Some(message) else None
  }

  /** Email: blank gives "required"; otherwise any string the email pattern
      rejects gives "bad format"; the pattern is tested on the untrimmed value. */
  function EmailError(email: string): (r: Option<string>)
    ensures IsBlank(email) ==> r == Some(EmailRequired)
    ensures r == None <==> EmailRegex(email)
    ensures !IsBlank(email) && r != None ==> r == Some(EmailBadFormat)
  {
    MatchesEmailIffRegex(email);
    EmailIsNotBlank(email);
    if IsBlank(email) then Some(EmailRequired)
    else if !MatchesEmail(email) then Some(EmailBadFormat)
    else None
  }

  /** Confirmation: any difference from the password is an error, also when both are empty. */
  function ConfirmError(password: string, confirm: string): (r: Option<string>)
    ensures r == None <==> password == confirm
    ensures r.Some? ==> r.value == PasswordsDiffer
  {
    if password != confirm then Some(PasswordsDiffer) else None
  }

  /** Teacher code: checked only for the teacher role, without trimming;
      empty gives "required", anything but the secret gives "wrong code". */
  function TeacherCodeError(role: Role, code: string): (r: Option<string>)
    ensures role == Student ==> r == None
    ensures role == Teacher ==> (r == None <==> code == TeacherSecretCode)
    ensures role == Teacher && code == "" ==> r == Some(TeacherCodeRequired)
    ensures role == Teacher && code != "" && r != None ==> r == Some(TeacherCodeWrong)
  {
    if role == Teacher then
      if code == "" then Some(TeacherCodeRequired)
      else if code != TeacherSecretCode then Some(TeacherCodeWrong)
      else None
    else None
  }

  /** Class name: required (whitespace-only counts as empty) for students only. */
  function ClassNameError(role: Role, className: string): (r: Option<string>)
    ensures r.Some? <==> role == Student && AllWhitespace(className)
    ensures r.Some? ==> r.value == ClassNameRequired
  {
    BlankIffAllWhitespace(className);
    if role == Student && IsBlank(className) then Some(ClassNameRequired) else None
  }

  /** The rule for one key of the error map. */
  function FieldError(role: Role, form: map<string, string>, key: string): Option<string>
    requires WellFormed(form)
  {
    if key == FirstNameField then NameError(form[FirstNameField], FirstNameRequired)
    else if key == LastNameField then NameError(form[LastNameField], LastNameRequired)
    else if key == EmailField then EmailError(form[EmailField])
    else if key == PasswordField then PasswordError(form[PasswordField])
    else if key == ConfirmPasswordField then ConfirmError(form[PasswordField], form[ConfirmPasswordField])
    else if key == TeacherCodeField then TeacherCodeError(role, form[TeacherCodeField])
    else if key == ClassNameField then ClassNameError(role, form[ClassNameField])
    else None
  }

  /** Each checked key is dispatched to its own rule. */
  lemma FieldErrorTable(role: Role, form: map<string, string>)
    requires WellFormed(form)
    ensures FieldError(role, form, FirstNameField) == NameError(form[FirstNameField], FirstNameRequired)
    ensures FieldError(role, form, LastNameField) == NameError(form[LastNameField], LastNameRequired)
    ensures FieldError(role, form, EmailField) == EmailError(form[EmailField])
    ensures FieldError(role, form, PasswordField) == PasswordError(form[PasswordField])
    ensures FieldError(role, form, ConfirmPasswordField) == ConfirmError(form[PasswordField], form[ConfirmPasswordField])
    ensures FieldError(role, form, TeacherCodeField) == TeacherCodeError(role, form[TeacherCodeField])
    ensures FieldError(role, form, ClassNameField) == ClassNameError(role, form[ClassNameField])
  {
    FieldNamesDistinct();
  }

  /** The errors the rules report for the keys `ks`, each rule applied on its own. */
  function ErrorsOver(role: Role, form: map<string, string>, ks: set<string>): map<string, string>
    requires WellFormed(form)
  {
    map k | k in ks && FieldError(role, form, k).Some? :: FieldError(role, form, k).value
  }

  /** `m` with `k` set to the message `o` holds, if it holds one. */
  function Put(m: map<string, string>, k: string, o: Option<string>): map<string, string>
  {
    if o.Some? then m[k := o.value] else m
  }

  /** Taking one more key into account adds that key's error, if it has one,
      and changes nothing else. */
  lemma ErrorsOverAdd(role: Role, form: map<string, string>, ks: set<string>, k: string)
    requires WellFormed(form)
    ensures ErrorsOver(role, form, ks + {k}) == Put(ErrorsOver(role, form, ks), k, FieldError(role, form, k))
  {
  }

  /** The error map built key by key, in the order `validateForm` visits the fields. */
  lemma ErrorsInOrder(role: Role, form: map<string, string>)
    requires WellFormed(form)
    ensures Errors(role, form) ==
      Put(Put(Put(Put(Put(Put(Put(map[],
        FirstNameField, NameError(form[FirstNameField], FirstNameRequired)),
        LastNameField, NameError(form[LastNameField], LastNameRequired)),
        EmailField, EmailError(form[EmailField])),
        PasswordField, PasswordError(form[PasswordField])),
        ConfirmPasswordField, ConfirmError(form[PasswordField], form[ConfirmPasswordField])),
        TeacherCodeField, TeacherCodeError(role, form[TeacherCodeField])),
        ClassNameField, ClassNameError(role, form[ClassNameField]))
  {
    var k0: set<string> := {};
    var e0 := ErrorsOver(role, form, k0);
    assert e0 == map[];
    var k1 := k0 + {FirstNameField};
    var e1 := ErrorsOver(role, form, k1);
    assert e1 == Put(e0, FirstNameField, NameError(form[FirstNameField], FirstNameRequired)) by {
      ErrorsOverAdd(role, form, k0, FirstNameField);
      FieldErrorTable(role, form);
    }
    var k2 := k1 + {LastNameField};
    var e2 := ErrorsOver(role, form, k2);
    assert e2 == Put(e1, LastNameField, NameError(form[LastNameField], LastNameRequired)) by {
      ErrorsOverAdd(role, form, k1, LastNameField);
      FieldErrorTable(role, form);
    }
    var k3 := k2 + {EmailField};
    var e3 := ErrorsOver(role, form, k3);
    assert e3 == Put(e2, EmailField, EmailError(form[EmailField])) by {
      ErrorsOverAdd(role, form, k2, EmailField);
      FieldErrorTable(role, form);
    }
    var k4 := k3 + {PasswordField};
    var e4 := ErrorsOver(role, form, k4);
    assert e4 == Put(e3, PasswordField, PasswordError(form[PasswordField])) by {
      ErrorsOverAdd(role, form, k3, PasswordField);
      FieldErrorTable(role, form);
    }
    var k5 := k4 + {ConfirmPasswordField};
    var e5 := ErrorsOver(role, form, k5);
    assert e5 == Put(e4, ConfirmPasswordField, ConfirmError(form[PasswordField], form[ConfirmPasswordField])) by {
      ErrorsOverAdd(role, form, k4, ConfirmPasswordField);
      FieldErrorTable(role, form);
    }
    var k6 := k5 + {TeacherCodeField};
    var e6 := ErrorsOver(role, form, k6);
    assert e6 == Put(e5, TeacherCodeField, TeacherCodeError(role, form[TeacherCodeField])) by {
      ErrorsOverAdd(role, form, k5, TeacherCodeField);
      FieldErrorTable(role, form);
    }
    var k7 := k6 + {ClassNameField};
    var e7 := ErrorsOver(role, form, k7);
    assert e7 == Put(e6, ClassNameField, ClassNameError(role, form[ClassNameField])) by {
      ErrorsOverAdd(role, form, k6, ClassNameField);
      FieldErrorTable(role, form);
    }
    assert Errors(role, form) == e7 by {
      CheckedFieldsInOrder();
    }
  }

  /** The error map a submit produces: a key is present exactly when its rule
      fails, under the message the rule gives. */
  function Errors(role: Role, form: map<string, string>): (e: map<string, string>)
    requires WellFormed(form)
    ensures e.Keys <= CheckedFields()
    ensures forall k | k in e :: e[k] != ""
  {
    ErrorsOver(role, form, CheckedFields())
  }

  /** The error map is empty exactly when no checked key's rule fails. */
  lemma NoErrorsIffAllClear(role: Role, form: map<string, string>)
    requires WellFormed(form)
    ensures Errors(role, form) == map[] <==> forall k | k in CheckedFields() :: FieldError(role, form, k).None?
  {
    var e := Errors(role, form);
    if e == map[] {
      forall k | k in CheckedFields()
        ensures FieldError(role, form, k).None?
      {
        assert k !in e;
      }
    } else {
      var k :| k in e;
    }
  }

  /** No checked key's rule fails exactly when each of the seven rules passes. */
  lemma AllClearIffEachClear(role: Role, form: map<string, string>)
    requires WellFormed(form)
    ensures (forall k | k in CheckedFields() :: FieldError(role, form, k).None?) <==>
      && FieldError(role, form, FirstNameField).None? && FieldError(role, form, LastNameField).None?
      && FieldError(role, form, EmailField).None? && FieldError(role, form, PasswordField).None?
      && FieldError(role, form, ConfirmPasswordField).None? && FieldError(role, form, TeacherCodeField).None?
      && FieldError(role, form, ClassNameField).None?
  {
    CheckedFieldsInOrder();
  }

  /** A form passes exactly when every rule is met: both names hold a
      non-whitespace character, the email matches the pattern, the password has
      at least six characters and equals its confirmation, a teacher gives the
      secret code and a student gives a class. */
  lemma {:induction false} ErrorsEmptyIff(role: Role, form: map<string, string>)
    requires WellFormed(form)
    ensures Errors(role, form) == map[] <==>
      && !AllWhitespace(form[FirstNameField]) && !AllWhitespace(form[LastNameField])
      && EmailRegex(form[EmailField])
      && |form[PasswordField]| >= MinPasswordLength
      && form[PasswordField] == form[ConfirmPasswordField]
      && (role == Teacher ==> form[TeacherCodeField] == TeacherSecretCode)
      && (role == Student ==> !AllWhitespace(form[ClassNameField]))
  {
    NoErrorsIffAllClear(role, form);
    AllClearIffEachClear(role, form);
    FieldErrorTable(role, form);
  }

  /** Blank first or last name gives that key its message; otherwise the key is absent. */
  lemma NameRule(role: Role, form: map<string, string>)
    requires WellFormed(form)
    ensures FirstNameField in Errors(role, form) <==> AllWhitespace(form[FirstNameField])
    ensures FirstNameField in Errors(role, form) ==> Errors(role, form)[FirstNameField] == FirstNameRequired
    ensures LastNameField in Errors(role, form) <==> AllWhitespace(form[LastNameField])
    ensures LastNameField in Errors(role, form) ==> Errors(role, form)[LastNameField] == LastNameRequired
  {
  }

  /** The four email cases: blank, accepted by the pattern, or rejected. */
  lemma EmailRule(role: Role, form: map<string, string>)
    requires WellFormed(form)
    ensures IsBlank(form[EmailField]) ==> Errors(role, form)[EmailField] == EmailRequired
    ensures EmailField !in Errors(role, form) <==> MatchesEmail(form[EmailField])
    ensures !IsBlank(form[EmailField]) && !MatchesEmail(form[EmailField]) ==>
      Errors(role, form)[EmailField] == EmailBadFormat
  {
    MatchesEmailIffRegex(form[EmailField]);
  }

  /** The password cases, and the confirmation checked independently of them. */
  lemma PasswordRule(role: Role, form: map<string, string>)
    requires WellFormed(form)
    ensures form[PasswordField] == "" ==> Errors(role, form)[PasswordField] == PasswordRequired
    ensures 0 < |form[PasswordField]| < MinPasswordLength ==> Errors(role, form)[PasswordField] == PasswordTooShort
    ensures PasswordField !in Errors(role, form) <==> |form[PasswordField]| >= MinPasswordLength
    ensures ConfirmPasswordField in Errors(role, form) <==> form[PasswordField] != form[ConfirmPasswordField]
  {
  }

  /** The teacher-code key appears only for teachers; the class-name key only for students. */
  lemma RoleRules(form: map<string, string>)
    requires WellFormed(form)
    ensures TeacherCodeField !in Errors(Student, form)
    ensures ClassNameField !in Errors(Teacher, form)
    ensures form[TeacherCodeField] == "" ==> Errors(Teacher, form)[TeacherCodeField] == TeacherCodeRequired
    ensures form[TeacherCodeField] != "" && form[TeacherCodeField] != TeacherSecretCode ==>
      Errors(Teacher, form)[TeacherCodeField] == TeacherCodeWrong
    ensures TeacherCodeField !in Errors(Teacher, form) <==> form[TeacherCodeField] == TeacherSecretCode
    ensures ClassNameField in Errors(Student, form) <==> AllWhitespace(form[ClassNameField])
  {
  }

  /** A wrong teacher code adds its own key and leaves every other key as it
      would be with the right code: it does not hide the other errors. */
  lemma {:induction false} WrongCodeKeepsOtherErrors(form: map<string, string>)
    requires WellFormed(form)
    ensures Errors(Teacher, form) - {TeacherCodeField} == Errors(Teacher, form[TeacherCodeField := TeacherSecretCode])
  {
    var fixed := form[TeacherCodeField := TeacherSecretCode];
    forall k | k != TeacherCodeField
      ensures FieldError(Teacher, form, k) == FieldError(Teacher, fixed, k)
    {
      assert form[FirstNameField] == fixed[FirstNameField];
      assert form[LastNameField] == fixed[LastNameField];
      assert form[EmailField] == fixed[EmailField];
      assert form[PasswordField] == fixed[PasswordField];
      assert form[ConfirmPasswordField] == fixed[ConfirmPasswordField];
      assert form[ClassNameField] == fixed[ClassNameField];
    }
  }

  /** The error map depends on the seven checked fields only. */
  lemma SameFieldsSameErrors(role: Role, a: map<string, string>, b: map<string, string>)
    requires WellFormed(a) && WellFormed(b)
    requires a[FirstNameField] == b[FirstNameField] && a[LastNameField] == b[LastNameField]
    requires a[EmailField] == b[EmailField] && a[PasswordField] == b[PasswordField]
    requires a[ConfirmPasswordField] == b[ConfirmPasswordField]
    requires a[TeacherCodeField] == b[TeacherCodeField] && a[ClassNameField] == b[ClassNameField]
    ensures Errors(role, a) == Errors(role, b)
  {
    assert forall k :: FieldError(role, a, k) == FieldError(role, b, k);
  }

  /** The phone is never validated: no value of it changes the error map. */
  lemma {:induction false} PhoneNeverChecked(role: Role, form: map<string, string>, phone: string)
    requires WellFormed(form)
    ensures Errors(role, form[PhoneField := phone]) == Errors(role, form)
  {
    FieldNamesDistinct();
    SameFieldsSameErrors(role, form, form[PhoneField := phone]);
  }

  /** A sign-up form filled in as the screen expects: Иван Петров,
      ivan@school.ru, class 9-А, password 123456 typed twice. The phone and the
      teacher code are left open. */
  predicate SampleFields(form: map<string, string>)
  {
    && WellFormed(form)
    && form[FirstNameField] == "Иван" && form[LastNameField] == "Петров"
    && form[EmailField] == "ivan@school.ru"
    && form[PasswordField] == "123456" && form[ConfirmPasswordField] == "123456"
    && form[ClassNameField] == "9-А"
  }

  /** The sample address passes the screen's email test. */
  lemma {:induction false} EmailSample(s: string)
    requires s == "ivan@school.ru"
    ensures MatchesEmail(s)
  {
    assert s[4] == '@' && AllPlain(s[..4]);
    var d := s[5..];
    assert d == "school.ru" && d[6] == '.';
    assert DomainShape(d);
  }

  /** Every rule but the role-dependent ones is met by the sample. */
  lemma SampleCommonRules(form: map<string, string>)
    requires SampleFields(form)
    ensures !AllWhitespace(form[FirstNameField]) && !AllWhitespace(form[LastNameField])
    ensures EmailRegex(form[EmailField])
    ensures |form[PasswordField]| >= MinPasswordLength && form[PasswordField] == form[ConfirmPasswordField]
    ensures !AllWhitespace(form[ClassNameField])
  {
    EmailSample(form[EmailField]);
    MatchesEmailIffRegex(form[EmailField]);
    assert !IsWhitespace(form[FirstNameField][0]);
    assert !IsWhitespace(form[LastNameField][0]);
    assert !IsWhitespace(form[ClassNameField][0]);
  }

  /** The sample passes as a student, whatever the teacher code and phone hold. */
  lemma StudentSampleAccepted(form: map<string, string>)
    requires SampleFields(form)
    ensures Errors(Student, form) == map[]
  {
    SampleCommonRules(form);
    ErrorsEmptyIff(Student, form);
  }

  /** The sample passes as a teacher who enters the secret code. */
  lemma TeacherRightCodeAccepted(form: map<string, string>)
    requires SampleFields(form) && form[TeacherCodeField] == TeacherSecretCode
    ensures Errors(Teacher, form) == map[]
  {
    SampleCommonRules(form);
    ErrorsEmptyIff(Teacher, form);
  }

  /** A map whose only key is `k` is the one-entry map. */
  lemma SingleEntry(e: map<string, string>, k: string)
    requires k in e && e - {k} == map[]
    ensures e == map[k := e[k]]
  {
    assert forall j :: j in e - {k} <==> j in e && j != k;
  }

  /** A teacher whose form would pass with the secret code, but who types a
      different non-empty code, gets exactly one error: the wrong-code message. */
  lemma {:induction false} OnlyWrongCodeRejected(form: map<string, string>)
    requires WellFormed(form) && Errors(Teacher, form[TeacherCodeField := TeacherSecretCode]) == map[]
    requires form[TeacherCodeField] != "" && form[TeacherCodeField] != TeacherSecretCode
    ensures Errors(Teacher, form) == map[TeacherCodeField := TeacherCodeWrong]
  {
    var e := Errors(Teacher, form);
    WrongCodeKeepsOtherErrors(form);
    assert TeacherCodeField in e && e[TeacherCodeField] == TeacherCodeWrong by {
      FieldNamesDistinct();
      assert FieldError(Teacher, form, TeacherCodeField) == Some(TeacherCodeWrong);
    }
    SingleEntry(e, TeacherCodeField);
  }

  // Each branch of `validateForm` inserts exactly what its rule reports.

  lemma NameStep(key: string, name: string, message: string, before: map<string, string>, after: map<string, string>)
    requires after == if IsBlank(name) then before[key := message] else before
    ensures after == Put(before, key, NameError(name, message))
  {
  }

  lemma EmailStep(email: string, before: map<string, string>, after: map<string, string>)
    requires after == if IsBlank(email) then before[EmailField := EmailRequired]
                      else if !MatchesEmail(email) then before[EmailField := EmailBadFormat]
                      else before
    ensures after == Put(before, EmailField, EmailError(email))
  {
  }

  lemma PasswordStep(password: string, before: map<string, string>, after: map<string, string>)
    requires after == if password == "" then before[PasswordField := PasswordRequired]
                      else if |password| < MinPasswordLength then before[PasswordField := PasswordTooShort]
                      else before
    ensures after == Put(before, PasswordField, PasswordError(password))
  {
  }

  lemma ConfirmStep(password: string, confirm: string, before: map<string, string>, after: map<string, string>)
    requires after == if password != confirm then before[ConfirmPasswordField := PasswordsDiffer] else before
    ensures after == Put(before, ConfirmPasswordField, ConfirmError(password, confirm))
  {
  }

  lemma TeacherCodeStep(role: Role, code: string, before: map<string, string>, after: map<string, string>)
    requires after == if role != Teacher then before
                      else if code == "" then before[TeacherCodeField := TeacherCodeRequired]
                      else if code != TeacherSecretCode then before[TeacherCodeField := TeacherCodeWrong]
                      else before
    ensures after == Put(before, TeacherCodeField, TeacherCodeError(role, code))
  {
  }

  lemma ClassNameStep(role: Role, className: string, before: map<string, string>, after: map<string, string>)
    requires after == if role == Student && IsBlank(className) then before[ClassNameField := ClassNameRequired] else before
    ensures after == Put(before, ClassNameField, ClassNameError(role, className))
  {
  }

  /** The body of `validateForm`: starting from an empty map, each rule in turn
      inserts its key when it fails. The result is the error map `Errors`. */
  method BuildErrors(role: Role, form: map<string, string>) returns (newErrors: map<string, string>)
    requires WellFormed(form)
    ensures newErrors == Errors(role, form)
  {
    WellFormedHasFields(form);
    var firstName := form[FirstNameField];
    var lastName := form[LastNameField];
    var email := form[EmailField];
    var password := form[PasswordField];
    var confirmPassword := form[ConfirmPasswordField];
    var teacherCode := form[TeacherCodeField];
    var className := form[ClassNameField];
    newErrors := map[];
    if IsBlank(firstName) {
      newErrors := newErrors[FirstNameField := FirstNameRequired];
    }
    assert newErrors == Put(map[], FirstNameField, NameError(firstName, FirstNameRequired)) by {
      NameStep(FirstNameField, firstName, FirstNameRequired, map[], newErrors);
    }
    ghost var m1 := newErrors;
    if IsBlank(lastName) {
      newErrors := newErrors[LastNameField := LastNameRequired];
    }
    assert newErrors == Put(m1, LastNameField, NameError(lastName, LastNameRequired)) by {
      NameStep(LastNameField, lastName, LastNameRequired, m1, newErrors);
    }
    ghost var m2 := newErrors;
    if IsBlank(email) {
      newErrors := newErrors[EmailField := EmailRequired];
    } else if !MatchesEmail(email) {
      newErrors := newErrors[EmailField := EmailBadFormat];
    }
    assert newErrors == Put(m2, EmailField, EmailError(email)) by {
      EmailStep(email, m2, newErrors);
    }
    ghost var m3 := newErrors;
    if password == "" {
      newErrors := newErrors[PasswordField := PasswordRequired];
    } else if |password| < MinPasswordLength {
      newErrors := newErrors[PasswordField := PasswordTooShort];
    }
    assert newErrors == Put(m3, PasswordField, PasswordError(password)) by {
      PasswordStep(password, m3, newErrors);
    }
    ghost var m4 := newErrors;
    if password != confirmPassword {
      newErrors := newErrors[ConfirmPasswordField := PasswordsDiffer];
    }
    assert newErrors == Put(m4, ConfirmPasswordField, ConfirmError(password, confirmPassword)) by {
      ConfirmStep(password, confirmPassword, m4, newErrors);
    }
    ghost var m5 := newErrors;
    if role == Teacher {
      if teacherCode == "" {
        newErrors := newErrors[TeacherCodeField := TeacherCodeRequired];
      } else if teacherCode != TeacherSecretCode {
        newErrors := newErrors[TeacherCodeField := TeacherCodeWrong];
      }
    }
    assert newErrors == Put(m5, TeacherCodeField, TeacherCodeError(role, teacherCode)) by {
      TeacherCodeStep(role, teacherCode, m5, newErrors);
    }
    ghost var m6 := newErrors;
    if role == Student && IsBlank(className) {
      newErrors := newErrors[ClassNameField := ClassNameRequired];
    }
    assert newErrors == Put(m6, ClassNameField, ClassNameError(role, className)) by {
      ClassNameStep(role, className, m6, newErrors);
    }
    ErrorsInOrder(role, form);
  }

  // ---------------------------------------------------------------------------
  // The screen's state

  class RegisterPage {
    var role: Role
    var formData: map<string, string>
    var errors: map<string, string>
    /** Set when a successful submit schedules the move to the main page. */
    var navigationRequested: bool
    /** The browser store, shared with the other screens. */
    const store: Storage

    /** Every field is present and every recorded error has a non-empty message,
        so the truthiness test in `HandleInputChange` is a membership test. */
    ghost predicate Valid()
      reads this
    {
      WellFormed(formData) && forall k | k in errors :: errors[k] != ""
    }

    constructor (store: Storage)
      ensures Valid()
      ensures role == Student && formData == EmptyForm() && errors == map[] && !navigationRequested
      ensures this.store == store
    {
      role := Student;
      formData := EmptyForm();
      errors := map[];
      navigationRequested := false;
      this.store := store;
    }

    /** The role buttons; the error map is left as it is. */
    method SetRole(r: Role)
      modifies this`role
      ensures role == r
    {
      role := r;
    }

    /** `validateForm`: replaces the recorded error map with a freshly built one
        (stale entries disappear) and reports whether it is empty. */
    method ValidateForm() returns (ok: bool)
      requires Valid()
      modifies this`errors
      ensures Valid()
      ensures errors == Errors(role, formData)
      ensures ok <==> errors == map[]
    {
      var newErrors := BuildErrors(role, formData);
      errors := newErrors;
      ok := |newErrors| == 0;
    }

    /** `handleSubmit`: validate; on success write the session entries (the phone
        as typed, never validated) and request navigation; on failure change
        nothing but the error map. */
    method Submit() returns (ok: bool)
      requires Valid()
      modifies this`errors, this`navigationRequested, store
      ensures Valid()
      ensures errors == Errors(role, formData)
      ensures ok <==> errors == map[]
      ensures store.items == if ok then SessionWrite(old(store.items), role.Name(), formData[PhoneField])
                             else old(store.items)
      ensures navigationRequested == (old(navigationRequested) || ok)
    {
      ok := ValidateForm();
      if !ok {
        return;
      }
      store.SetItem(IsLoggedInKey, "true");
      store.SetItem(UserTypeKey, role.Name());
      store.SetItem(UserPhoneKey, formData[PhoneField]);
      navigationRequested := true;
    }

    /** `handleInputChange`: stores the value under its key and drops that key's
        error, if any; every other field and error entry is unchanged. */
    method HandleInputChange(field: string, value: string)
      requires Valid()
      modifies this`formData, this`errors
      ensures Valid()
      ensures formData == old(formData)[field := value]
      ensures errors == old(errors) - {field}
    {
      formData := formData[field := value];
      if field in errors && errors[field] != "" {
        errors := errors - {field};
      }
    }
  }
}
