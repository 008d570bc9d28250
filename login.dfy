/**
 The sign-in screen: phone and password with their rules, the per-field
 clearing of errors on edit, and the session entries a successful submit
 writes. The chosen account type is only stored; it takes no part in the checks.
 */
module Login {
  import opened Text
  import opened Options
  import opened Fields
  import opened Session

  const PhoneRequired := "Введите номер телефона"
  const PhoneBadFormat := "Неверный формат номера телефона"

  /** The keys the sign-in checks can report an error under. */
  function LoginFields(): (ks: set<string>)
    ensures |ks| == 2
  {
    assert PhoneField[1] != PasswordField[1];
    {PhoneField, PasswordField}
  }

  /** Phone: blank (whitespace-only counts) gives "required"; otherwise any
      character outside digits, whitespace, '+', '-', '(' and ')' gives "bad format".
      The pattern is tested on the untrimmed value. */
  function PhoneError(phone: string): (r: Option<string>)
    ensures AllWhitespace(phone) ==> r == Some(PhoneRequired)
    ensures !AllWhitespace(phone) ==> (r == None <==> forall i | 0 <= i < |phone| :: PhoneChar(phone[i]))
    ensures !AllWhitespace(phone) && r != None ==> r == Some(PhoneBadFormat)
  {
    BlankIffAllWhitespace(phone);
    if IsBlank(phone) then Some(PhoneRequired)
    else if !MatchesPhone(phone) then Some(PhoneBadFormat)
    else None
  }

  /** The error map a submit produces from the phone and the password. */
  function Errors(phone: string, password: string): (e: map<string, string>)
    ensures e.Keys <= LoginFields()
    ensures PhoneField in e <==> PhoneError(phone).Some?
    ensures PhoneField in e ==> e[PhoneField] == PhoneError(phone).value
    ensures PasswordField in e <==> PasswordError(password).Some?
    ensures PasswordField in e ==> e[PasswordField] == PasswordError(password).value
    ensures forall k | k in e :: e[k] != ""
  {
    assert PhoneField[1] != PasswordField[1];
    var withPhone := if PhoneError(phone).Some? then map[PhoneField := PhoneError(phone).value] else map[];
    if PasswordError(password).Some? then withPhone[PasswordField := PasswordError(password).value] else withPhone
  }

  /** A submit passes exactly when the phone is a non-empty string of
      digits, whitespace, '+', '-', '(' and ')' holding at least one
      non-whitespace character, and the password has at least six characters. */
  lemma {:induction false} ErrorsEmptyIff(phone: string, password: string)
    ensures Errors(phone, password) == map[] <==>
      !AllWhitespace(phone) && MatchesPhone(phone) && |password| >= MinPasswordLength
  {
    var e := Errors(phone, password);
    if e != map[] {
      var k :| k in e;
    }
  }

  /** A phone of letters with a five-character password fails both checks. */
  lemma LettersAndShortPassword(phone: string, password: string)
    requires phone == "abc" && password == "abc12"
    ensures Errors(phone, password) == map[PhoneField := PhoneBadFormat, PasswordField := PasswordTooShort]
  {
    assert PhoneError(phone) == Some(PhoneBadFormat) by {
      assert !IsWhitespace(phone[0]) && !PhoneChar(phone[0]);
    }
    assert PasswordError(password) == Some(PasswordTooShort);
  }

  /** The body of `validateForm`: each rule in turn inserts its key when it fails. */
  method BuildErrors(phone: string, password: string) returns (newErrors: map<string, string>)
    ensures newErrors == Errors(phone, password)
  {
    ghost var phoneError := PhoneError(phone);
    ghost var passwordError := PasswordError(password);
    newErrors := map[];
    if IsBlank(phone) {
      newErrors := newErrors[PhoneField := PhoneRequired];
    } else if !MatchesPhone(phone) {
      newErrors := newErrors[PhoneField := PhoneBadFormat];
    }
    assert newErrors == if phoneError.Some? then map[PhoneField := phoneError.value] else map[];
    ghost var withPhone := newErrors;
    if password == "" {
      newErrors := newErrors[PasswordField := PasswordRequired];
    } else if |password| < MinPasswordLength {
      newErrors := newErrors[PasswordField := PasswordTooShort];
    }
    assert newErrors == if passwordError.Some? then withPhone[PasswordField := passwordError.value] else withPhone;
  }

  class LoginPage {
    var loginType: Role
    var phone: string
    var password: string
    var errors: map<string, string>
    /** Set when a successful submit schedules the move to the main page. */
    var navigationRequested: bool
    /** The browser store, shared with the other screens. */
    const store: Storage

    /** Every recorded error has a non-empty message and is under one of the two
        keys, so the truthiness test in `HandleInputChange` is a membership test. */
    ghost predicate Valid()
      reads this
    {
      errors.Keys <= LoginFields() && forall k | k in errors :: errors[k] != ""
    }

    constructor (store: Storage)
      ensures Valid()
      ensures loginType == Student && phone == "" && password == "" && errors == map[] && !navigationRequested
      ensures this.store == store
    {
      loginType := Student;
      phone := "";
      password := "";
      errors := map[];
      navigationRequested := false;
      this.store := store;
    }

    /** The account-type buttons. */
    method SetLoginType(t: Role)
      modifies this`loginType
      ensures loginType == t
    {
      loginType := t;
    }

    /** `validateForm`: replaces the recorded error map with a freshly built one
        that depends on the phone and password only, never on the account type,
        and reports whether it is empty. */
    method ValidateForm() returns (ok: bool)
      requires Valid()
      modifies this`errors
      ensures Valid()
      ensures errors == Errors(phone, password)
      ensures ok <==> errors == map[]
    {
      var newErrors := BuildErrors(phone, password);
      errors := newErrors;
      ok := |newErrors| == 0;
    }

    /** `handleSubmit`: validate; on success write the session entries and request
        navigation; on failure change nothing but the error map. */
    method Submit() returns (ok: bool)
      requires Valid()
      modifies this`errors, this`navigationRequested, store
      ensures Valid()
      ensures errors == Errors(phone, password)
      ensures ok <==> errors == map[]
      ensures store.items == if ok then SessionWrite(old(store.items), loginType.Name(), phone)
                             else old(store.items)
      ensures navigationRequested == (old(navigationRequested) || ok)
    {
      ok := ValidateForm();
      if !ok {
        return;
      }
      store.SetItem(IsLoggedInKey, "true");
      store.SetItem(UserTypeKey, loginType.Name());
      store.SetItem(UserPhoneKey, phone);
      navigationRequested := true;
    }

    /** `handleInputChange`: the name "phone" sets the phone and any other name
        sets the password; only the error under that same name is dropped. */
    method HandleInputChange(field: string, value: string)
      requires Valid()
      modifies this`phone, this`password, this`errors
      ensures Valid()
      ensures phone == if field == PhoneField then value else old(phone)
      ensures password == if field == PhoneField then old(password) else value
      ensures errors == old(errors) - {field}
    {
      if field == PhoneField {
        phone := value;
      } else {
        password := value;
      }
      if field in errors && errors[field] != "" {
        errors := errors - {field};
      }
    }
  }
}
