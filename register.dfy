/** The registration page: a four-field form, the password confirmation
    check, and the error and loading flags around the sign-up request. */
module Register {
  import opened Api

  datatype RegisterForm = RegisterForm(
    email: string,
    password: string,
    confirmPassword: string,
    full_name: string)

  /** The `name` attributes of the form's four inputs. */
  datatype FieldName = Email | Password | ConfirmPassword | FullName

  /** The body of the sign-up request: the confirmation is not part of it. */
  datatype UserCreate = UserCreate(email: string, password: string, full_name: string)

  datatype Effect = Send(body: UserCreate) | Navigate(path: string)

  const MismatchMessage: string := "Passwords do not match"
  const RegisterFallback: string := "Registration failed"
  const LoginPath: string := "/login"

  const EmptyForm: RegisterForm := RegisterForm("", "", "", "")

  function Field(form: RegisterForm, name: FieldName): string {
    match name
    case Email => form.email
    case Password => form.password
    case ConfirmPassword => form.confirmPassword
    case FullName => form.full_name
  }

  /** `{...formData, [name]: value}`: the named field takes the value and
      the other three keep theirs. */
  function WithField(form: RegisterForm, name: FieldName, value: string): (r: RegisterForm)
    ensures Field(r, name) == value
    ensures forall other :: other != name ==> Field(r, other) == Field(form, other)
  {
    match name
    case Email => form.(email := value)
    case Password => form.(password := value)
    case ConfirmPassword => form.(confirmPassword := value)
    case FullName => form.(full_name := value)
  }

  /** The message a failed sign-up shows: the server's detail when it is a
      non-empty text, the fixed fallback otherwise. It is never empty. */
  function FailureMessage(detail: Option<string>): (m: string)
    ensures m != ""
    ensures Truthy(detail) ==> Some(m) == detail
    ensures !Truthy(detail) ==> m == RegisterFallback
  {
    OrElse(detail, RegisterFallback)
  }

  /** The page component's state and the ghost log of its effects. */
  class RegisterPage {
    var formData: RegisterForm
    var error: string
    var loading: bool
    ghost var effects: seq<Effect>

    constructor ()
      ensures formData == EmptyForm && error == "" && !loading && effects == []
    {
      formData := EmptyForm;
      error := "";
      loading := false;
      effects := [];
    }

    /** `handleChange` for the input named `name`. */
    method HandleChange(name: FieldName, value: string)
      modifies this
      ensures formData == WithField(old(formData), name, value)
      ensures error == old(error) && loading == old(loading) && effects == old(effects)
    {
      formData := WithField(formData, name, value);
    }

    /** `handleSubmit` up to its request: clears the error; on a password
        mismatch shows the mismatch message and stops without sending or
        touching `loading`; otherwise sets `loading` and sends the body. */
    method SubmitStart() returns (sent: bool)
      modifies this
      ensures sent <==> old(formData).password == old(formData).confirmPassword
      ensures formData == old(formData)
      ensures !sent ==> error == MismatchMessage && loading == old(loading) && effects == old(effects)
      ensures sent ==>
                && error == "" && loading
                && effects == old(effects) + [Send(UserCreate(formData.email, formData.password, formData.full_name))]
    {
      error := "";
      if formData.password != formData.confirmPassword {
        error := MismatchMessage;
        return false;
      }
      loading := true;
      effects := effects + [Send(UserCreate(formData.email, formData.password, formData.full_name))];
      sent := true;
    }

    /** `handleSubmit` after its request settles: navigate to the login page
        on success, show the failure message otherwise, and in both cases
        clear `loading`. */
    method SubmitSettled(response: Response<()>)
      modifies this
      ensures !loading && formData == old(formData)
      ensures response.Ok? ==> effects == old(effects) + [Navigate(LoginPath)] && error == old(error)
      ensures response.Err? ==> effects == old(effects) && error == FailureMessage(response.detail)
    {
      if response.Ok? {
        effects := effects + [Navigate(LoginPath)];
      } else {
        error := FailureMessage(response.detail);
      }
      loading := false;
    }

    /** The whole of `handleSubmit`, where `response` is the outcome of the
        request if one is sent. */
    method HandleSubmit(response: Response<()>)
      modifies this
      ensures formData == old(formData)
      ensures old(formData).password != old(formData).confirmPassword ==>
                error == MismatchMessage && loading == old(loading) && effects == old(effects)
      ensures old(formData).password == old(formData).confirmPassword ==>
                var body := UserCreate(formData.email, formData.password, formData.full_name);
                && !loading
                && (response.Ok? ==> error == "" && effects == old(effects) + [Send(body), Navigate(LoginPath)])
                && (response.Err? ==> error == FailureMessage(response.detail) && effects == old(effects) + [Send(body)])
    {
      var sent := SubmitStart();
      if sent {
        SubmitSettled(response);
      }
    }
  }
}
