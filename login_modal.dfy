/**
 * The sign-in modal (`src/components/LoginModal.tsx`): form fields edited one at a
 * time, a sign-in/sign-up toggle, a role choice, and a submit that validates the two
 * required fields and builds the user record handed to `onLogin`. `Date.now()` and
 * `new Date().toISOString()` are parameters; `alert` is counted.
 */
module LoginModal {
  import opened Common
  import opened Text

  datatype UserType = Student | Teacher | Admin
  {
    function Key(): string
    {
      match this
      case Student => "student"
      case Teacher => "teacher"
      case Admin => "admin"
    }
  }

  datatype FormData = FormData(name: string, email: string, password: string, age: string, grade: string, school: string)

  datatype Field = Name | Email | Password | Age | Grade | School

  datatype UserData = UserData(
    id: string,
    name: string,
    email: string,
    role: string,
    age: string,
    grade: string,
    school: string,
    avatar: string,
    createdAt: string)

  function EmptyForm(): FormData
  {
    FormData("", "", "", "", "", "")
  }

  function Get(form: FormData, f: Field): string
  {
    match f
    case Name => form.name
    case Email => form.email
    case Password => form.password
    case Age => form.age
    case Grade => form.grade
    case School => form.school
  }

  /** A field's `onChange`: `{ ...prev, [field]: value }`. */
  function UpdateField(form: FormData, f: Field, value: string): (r: FormData)
    ensures Get(r, f) == value
    ensures forall g :: g != f ==> Get(r, g) == Get(form, g)
  {
    match f
    case Name => form.(name := value)
    case Email => form.(email := value)
    case Password => form.(password := value)
    case Age => form.(age := value)
    case Grade => form.(grade := value)
    case School => form.(school := value)
  }

  /** 🎓 for a student, 👨‍🏫 for a teacher, 👨‍💼 for an administrator. */
  function Avatar(t: UserType): (a: string)
    ensures t == Student <==> a == "\U{1F393}"
    ensures t == Teacher <==> a == "\U{1F468}\U{200D}\U{1F3EB}"
    ensures t == Admin <==> a == "\U{1F468}\U{200D}\U{1F4BC}"
  {
    assert "\U{1F468}\U{200D}\U{1F3EB}"[2] != "\U{1F468}\U{200D}\U{1F4BC}"[2];
    match t
    case Student => "\U{1F393}"
    case Teacher => "\U{1F468}\U{200D}\U{1F3EB}"
    case Admin => "\U{1F468}\U{200D}\U{1F4BC}"
  }

  /** `handleSubmit`: no record while the name or e-mail is empty, else the fields copied verbatim. */
  function Submit(form: FormData, userType: UserType, now: nat, createdAt: string): (r: Option<UserData>)
    ensures r.None? <==> form.name == "" || form.email == ""
    ensures r.Some? ==>
      r.value.id == NatToString(now) && r.value.name == form.name && r.value.email == form.email &&
      r.value.role == userType.Key() && r.value.age == form.age && r.value.grade == form.grade &&
      r.value.school == form.school && r.value.avatar == Avatar(userType) && r.value.createdAt == createdAt
  {
    if form.name == "" || form.email == "" then None
    else Some(UserData(NatToString(now), form.name, form.email, userType.Key(), form.age, form.grade,
                       form.school, Avatar(userType), createdAt))
  }

  /** The password never reaches the user record: changing it changes nothing about the submission. */
  lemma SubmitIgnoresPassword(form: FormData, password: string, userType: UserType, now: nat, createdAt: string)
    ensures Submit(UpdateField(form, Password, password), userType, now, createdAt) == Submit(form, userType, now, createdAt)
  {
  }

  class Modal {
    var isLogin: bool
    var userType: UserType
    var showPassword: bool
    var formData: FormData
    /** Every record passed to `onLogin`, in order. */
    var logins: seq<UserData>
    /** How many times the "required fields" alert was shown. */
    var alerts: nat

    constructor ()
      ensures isLogin && userType == Student && !showPassword && formData == EmptyForm()
      ensures logins == [] && alerts == 0
    {
      isLogin := true;
      userType := Student;
      showPassword := false;
      formData := EmptyForm();
      logins := [];
      alerts := 0;
    }

    method ChangeField(f: Field, value: string)
      modifies this`formData
      ensures formData == UpdateField(old(formData), f, value)
    {
      formData := UpdateField(formData, f, value);
    }

    method SelectUserType(t: UserType)
      modifies this`userType
      ensures userType == t
    {
      userType := t;
    }

    method ToggleShowPassword()
      modifies this`showPassword
      ensures showPassword == !old(showPassword)
    {
      showPassword := !showPassword;
    }

    /** The sign-up/sign-in link: flips `isLogin` and nothing else. */
    method ToggleIsLogin()
      modifies this`isLogin
      ensures isLogin == !old(isLogin)
    {
      isLogin := !isLogin;
    }

    method HandleSubmit(now: nat, createdAt: string)
      modifies this`logins, this`alerts
      ensures Submit(formData, userType, now, createdAt).None? ==> logins == old(logins) && alerts == old(alerts) + 1
      ensures Submit(formData, userType, now, createdAt).Some? ==>
        logins == old(logins) + [Submit(formData, userType, now, createdAt).value] && alerts == old(alerts)
    {
      match Submit(formData, userType, now, createdAt)
      case None =>
        alerts := alerts + 1;
      case Some(userData) =>
        logins := logins + [userData];
    }
  }
}
