/** The login/signup form (mini-marketplace/src/components/AuthPage.jsx):
    the field rules, the order they are checked in, what a submit hands to
    the parent, and how the mode toggle and typing change the form. The
    regular expressions are stated as predicates over the text. */
module AuthPage {
  import opened Wrappers
  import opened Text
  import opened Lists

  /** The four inputs. */
  datatype FormData = FormData(name: string, phone: string, email: string, password: string)

  datatype Field = NameField | PhoneField | EmailField | PasswordField

  /** What a submit calls: nothing, `onLogin` or `onSignup`. */
  datatype Submission =
    | NoCall
    | LoginCall(email: string, password: string, role: string)
    | SignupCall(name: string, phone: string, email: string, password: string, role: string)

  const EmptyForm := FormData("", "", "", "")

  const NameError := "Name must be at least 2 characters"
  const PhoneError := "Please enter a valid 10-digit phone number"
  const EmailError := "Please enter a valid email address"
  const PasswordError := "Password must be at least 6 characters"

  /** `name.trim().length >= 2`. */
  predicate NameValid(name: string)
    ensures NameValid(name) ==> |name| >= 2
  {
    |Trim(name)| >= 2
  }

  /** A name passes exactly when it has two characters that are not
      whitespace. */
  lemma NameValidIff(name: string)
    ensures NameValid(name) <==> exists i, j :: 0 <= i < j < |name| && !IsSpace(name[i]) && !IsSpace(name[j])
  {
    TrimLengthAtLeastTwo(name);
  }

  /** The characters `replace(/[-()\s]/g, '')` deletes. */
  predicate IsPhoneSeparator(c: char) {
    c == '-' || c == '(' || c == ')' || IsSpace(c)
  }

  predicate KeptInPhone(c: char) {
    !IsPhoneSeparator(c)
  }

  /** The phone number with its separators deleted. */
  function Digits(phone: string): (r: string)
    ensures |r| <= |phone|
    ensures forall k :: 0 <= k < |r| ==> !IsPhoneSeparator(r[k])
  {
    Filter(phone, KeptInPhone)
  }

  /** `/^\d{10}$/` on the digits: exactly ten characters, each a digit. */
  predicate PhoneValid(phone: string)
    ensures PhoneValid(phone) ==> |phone| >= 10
  {
    var d := Digits(phone);
    |d| == 10 && forall k :: 0 <= k < |d| ==> IsDigit(d[k])
  }

  /** A phone number passes exactly when every character is a digit or a
      separator and ten characters remain once the separators go. */
  lemma PhoneValidIff(phone: string)
    ensures PhoneValid(phone) <==>
      |Digits(phone)| == 10 && forall i :: 0 <= i < |phone| ==> IsDigit(phone[i]) || IsPhoneSeparator(phone[i])
  {
    var d := Digits(phone);
    var idx := FilterSelects(phone, KeptInPhone);
    if PhoneValid(phone) {
      forall i | 0 <= i < |phone| && !IsPhoneSeparator(phone[i])
        ensures IsDigit(phone[i])
      {
        assert KeptInPhone(phone[i]);
        var k :| 0 <= k < |idx| && idx[k] == i;
        assert d[k] == phone[i];
      }
    }
    if |d| == 10 && forall i :: 0 <= i < |phone| ==> IsDigit(phone[i]) || IsPhoneSeparator(phone[i]) {
      forall k | 0 <= k < |d|
        ensures IsDigit(d[k])
      {
        assert d[k] == phone[idx[k]];
      }
    }
  }

  /** A character `[^\s@]` matches. */
  predicate Plain(c: char) {
    !IsSpace(c) && c != '@'
  }

  /** The email test, stated on positions: no whitespace, exactly one `@`,
      not first, and after it a `.` with at least one character on each
      side. */
  predicate EmailValid(email: string)
    ensures EmailValid(email) ==> |email| >= 5 && '@' in email && ' ' !in email
  {
    && (forall k :: 0 <= k < |email| ==> !IsSpace(email[k]))
    && exists i :: 0 < i < |email| && email[i] == '@'
         && (forall k :: 0 <= k < |email| && k != i ==> email[k] != '@')
         && exists j :: i + 1 < j < |email| - 1 && email[j] == '.'
  }

  /** A run `[^\s@]+`. */
  ghost predicate PlainRun(s: string) {
    s != [] && forall k :: 0 <= k < |s| ==> Plain(s[k])
  }

  /** `/^[^\s@]+@[^\s@]+\.[^\s@]+$/`: the whole text is a run, `@`, a run,
      `.`, and a run. */
  ghost predicate MatchesEmailPattern(email: string) {
    exists local, host, top :: PlainRun(local) && PlainRun(host) && PlainRun(top)
      && email == local + "@" + host + "." + top
  }

  /** The positional test and the regular expression accept the same texts. */
  lemma EmailValidIff(email: string)
    ensures EmailValid(email) <==> MatchesEmailPattern(email)
  {
    if EmailValid(email) {
      ValidEmailMatches(email);
    }
    if MatchesEmailPattern(email) {
      MatchingEmailValid(email);
    }
  }

  /** A text the positional test accepts splits at its `@` and at a later
      `.` into three runs. */
  lemma ValidEmailMatches(email: string)
    requires EmailValid(email)
    ensures MatchesEmailPattern(email)
  {
    var i :| 0 < i < |email| && email[i] == '@'
       && (forall k :: 0 <= k < |email| && k != i ==> email[k] != '@')
       && exists j :: i + 1 < j < |email| - 1 && email[j] == '.';
    var j :| i + 1 < j < |email| - 1 && email[j] == '.';
    var local, host, top := email[..i], email[i + 1..j], email[j + 1..];
    assert email == local + "@" + host + "." + top by {
      assert email == email[..i] + [email[i]] + email[i + 1..j] + [email[j]] + email[j + 1..];
    }
    PlainSlice(email, i, 0, i);
    PlainSlice(email, i, i + 1, j);
    PlainSlice(email, i, j + 1, |email|);
    PatternOfRuns(local, host, top);
  }

  /** Three runs joined by `@` and `.` match the pattern. */
  lemma PatternOfRuns(local: string, host: string, top: string)
    requires PlainRun(local) && PlainRun(host) && PlainRun(top)
    ensures MatchesEmailPattern(local + "@" + host + "." + top)
  {
  }

  /** A non-empty slice of a text without whitespace that stays clear of its
      only `@` is a run. */
  lemma PlainSlice(email: string, at: int, lo: int, hi: int)
    requires 0 <= lo < hi <= |email|
    requires forall k :: 0 <= k < |email| ==> !IsSpace(email[k])
    requires forall k :: 0 <= k < |email| && k != at ==> email[k] != '@'
    requires !(lo <= at < hi)
    ensures PlainRun(email[lo..hi])
  {
    forall k | 0 <= k < hi - lo
      ensures Plain(email[lo..hi][k])
    {
      assert email[lo..hi][k] == email[lo + k];
    }
  }

  /** A text of the form run `@` run `.` run passes the positional test, its
      `@` being the one after the first run. */
  lemma MatchingEmailValid(email: string)
    requires MatchesEmailPattern(email)
    ensures EmailValid(email)
  {
    var local, host, top :| PlainRun(local) && PlainRun(host) && PlainRun(top)
      && email == local + "@" + host + "." + top;
    var i, j := |local|, |local| + 1 + |host|;
    assert email[i] == '@' && email[j] == '.';
    forall k | 0 <= k < |email|
      ensures !IsSpace(email[k]) && (k != i ==> email[k] != '@')
    {
      if k < i {
        assert email[k] == local[k];
      } else if i < k < j {
        assert email[k] == host[k - i - 1];
      } else if j < k {
        assert email[k] == top[k - j - 1];
      }
    }
  }

  /** `password.length >= 6`: in particular the empty password never passes. */
  predicate PasswordValid(password: string)
    ensures PasswordValid(password) ==> password != ""
  {
    |password| >= 6
  }

  /** `validateForm`: the message of the first rule that fails, checked in
      the order name, phone (both only when signing up), email, password;
      `None` when the form passes. */
  function FirstError(isLogin: bool, f: FormData): (err: Option<string>)
    ensures err.None? <==>
      (isLogin || (NameValid(f.name) && PhoneValid(f.phone))) && EmailValid(f.email) && PasswordValid(f.password)
    ensures !isLogin && !NameValid(f.name) ==> err == Some(NameError)
    ensures !isLogin && NameValid(f.name) && !PhoneValid(f.phone) ==> err == Some(PhoneError)
    ensures (isLogin || (NameValid(f.name) && PhoneValid(f.phone))) && !EmailValid(f.email) ==> err == Some(EmailError)
    ensures (isLogin || (NameValid(f.name) && PhoneValid(f.phone))) && EmailValid(f.email) && !PasswordValid(f.password) ==>
      err == Some(PasswordError)
  {
    if !isLogin && !NameValid(f.name) then Some(NameError)
    else if !isLogin && !PhoneValid(f.phone) then Some(PhoneError)
    else if !EmailValid(f.email) then Some(EmailError)
    else if !PasswordValid(f.password) then Some(PasswordError)
    else None
  }

  /** In login mode the name and phone fields are never looked at. */
  lemma LoginIgnoresNameAndPhone(f: FormData, name: string, phone: string)
    ensures FirstError(true, f) == FirstError(true, f.(name := name, phone := phone))
  {
  }

  /** The form's state: the mode, the four inputs and the local error; the
      role is fixed by the page that shows the form. */
  class AuthForm {
    const role: string
    var isLogin: bool
    var form: FormData
    var localError: string

    constructor (role: string)
      ensures this.role == role && isLogin && form == EmptyForm && localError == ""
    {
      this.role := role;
      isLogin := true;
      form := EmptyForm;
      localError := "";
    }

    /** `handleChange`: the error is cleared and only the named field takes
        the new value. */
    method HandleChange(field: Field, value: string)
      modifies this
      ensures localError == "" && isLogin == old(isLogin)
      ensures form.name == (if field == NameField then value else old(form.name))
      ensures form.phone == (if field == PhoneField then value else old(form.phone))
      ensures form.email == (if field == EmailField then value else old(form.email))
      ensures form.password == (if field == PasswordField then value else old(form.password))
    {
      localError := "";
      match field
      case NameField => form := form.(name := value);
      case PhoneField => form := form.(phone := value);
      case EmailField => form := form.(email := value);
      case PasswordField => form := form.(password := value);
    }

    /** `switchMode`: the other mode, no error, all four fields empty. */
    method SwitchMode()
      modifies this
      ensures isLogin == !old(isLogin) && localError == "" && form == EmptyForm
    {
      isLogin := !isLogin;
      localError := "";
      form := EmptyForm;
    }

    /** A mode tab: switches only when the form is in the other mode. */
    method SelectMode(login: bool)
      modifies this
      ensures isLogin == login
      ensures old(isLogin) == login ==> form == old(form) && localError == old(localError)
      ensures old(isLogin) != login ==> localError == "" && form == EmptyForm
    {
      if isLogin != login {
        SwitchMode();
      }
    }

    /** `handleSubmit`: the first failing rule's message and no call, or a
        login call with email, password and role, or a signup call with all
        four fields and the role. The form itself is left as it is. */
    method HandleSubmit() returns (call: Submission)
      modifies this
      ensures form == old(form) && isLogin == old(isLogin)
      ensures call.NoCall? <==> FirstError(isLogin, form).Some?
      ensures call.NoCall? ==> localError == FirstError(isLogin, form).value
      ensures !call.NoCall? ==> localError == ""
      ensures call.LoginCall? <==> isLogin && FirstError(isLogin, form).None?
      ensures call.LoginCall? ==> call == LoginCall(form.email, form.password, role)
      ensures call.SignupCall? ==> call == SignupCall(form.name, form.phone, form.email, form.password, role)
    {
      localError := "";
      var err := FirstError(isLogin, form);
      if err.Some? {
        localError := err.value;
        return NoCall;
      }
      if isLogin {
        call := LoginCall(form.email, form.password, role);
      } else {
        call := SignupCall(form.name, form.phone, form.email, form.password, role);
      }
    }
  }
}
