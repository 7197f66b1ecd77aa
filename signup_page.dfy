/** The form logic of frontend/src/components/SignupPage.js: field updates, the
    order of the two password checks, and what a registration answer does to
    the stored tokens, the error and the loading flag. `localStorage` and
    navigation are fields of the form object; the `register` request's outcome
    is an input. */
module SignupPage {
  import opened Wrappers
  import opened RestClient

  datatype Field = Username | Email | Password | ConfirmPassword

  datatype FormData = FormData(username: string, email: string, password: string, confirmPassword: string) {
    function Get(f: Field): string {
      match f
      case Username => username
      case Email => email
      case Password => password
      case ConfirmPassword => confirmPassword
    }

    /** `{...formData, [name]: value}`. */
    function With(f: Field, value: string): (d: FormData)
      ensures d.Get(f) == value
    {
      match f
      case Username => this.(username := value)
      case Email => this.(email := value)
      case Password => this.(password := value)
      case ConfirmPassword => this.(confirmPassword := value)
    }
  }

  /** Updating one field leaves every other field as it was. */
  lemma WithKeepsOthers(d: FormData, f: Field, value: string, g: Field)
    ensures d.With(f, value).Get(g) == if g == f then value else d.Get(g)
  {
  }

  const MismatchMessage: string := "비밀번호가 일치하지 않습니다."
  const TooShortMessage: string := "비밀번호는 최소 8자 이상이어야 합니다."
  const SignupFailedMessage: string := "회원가입에 실패했습니다. 다시 시도해주세요."
  const MinPasswordLength: nat := 8

  /** The two checks before the request, the mismatch first. */
  function Validate(d: FormData): (error: Option<string>)
    ensures error.None? <==> d.password == d.confirmPassword && |d.password| >= MinPasswordLength
    ensures d.password != d.confirmPassword ==> error == Some(MismatchMessage)
    ensures d.password == d.confirmPassword && |d.password| < MinPasswordLength ==> error == Some(TooShortMessage)
  {
    if d.password != d.confirmPassword then Some(MismatchMessage)
    else if |d.password| < MinPasswordLength then Some(TooShortMessage)
    else None
  }

  /** A short password that is also mistyped is reported as a mismatch. */
  lemma MismatchCheckedFirst(d: FormData)
    requires |d.password| < MinPasswordLength && d.password != d.confirmPassword
    ensures Validate(d) == Some(MismatchMessage)
  {
  }

  /** The `tokens` of a registration answer. */
  datatype Tokens = Tokens(access: Option<string>, refresh: Option<string>)

  /** What `register` does: answer with optional tokens, or throw. */
  datatype RegisterOutcome = Registered(tokens: Option<Tokens>) | RegisterFailed(message: string)

  class SignupForm {
    var form: FormData
    var error: string
    var loading: bool
    var accessToken: Option<string>    // localStorage `access_token`
    var refreshToken: Option<string>   // localStorage `refresh_token`
    var navigatedTo: Option<string>
    var requests: seq<FormData>         // the `register` calls made

    constructor (accessToken: Option<string>, refreshToken: Option<string>)
      ensures form == FormData("", "", "", "") && error == "" && !loading
      ensures this.accessToken == accessToken && this.refreshToken == refreshToken
      ensures navigatedTo == None && requests == []
    {
      form := FormData("", "", "", "");
      error := "";
      loading := false;
      this.accessToken := accessToken;
      this.refreshToken := refreshToken;
      navigatedTo := None;
      requests := [];
    }

    /** `handleChange`: set the named field and clear the error. */
    method HandleChange(f: Field, value: string)
      modifies this`form, this`error
      ensures form == old(form).With(f, value) && error == ""
    {
      form := form.With(f, value);
      error := "";
    }

    /** `handleSubmit`. */
    method HandleSubmit(outcome: RegisterOutcome)
      modifies this
      ensures form == old(form)
      ensures Validate(old(form)).Some? ==>
                error == Validate(old(form)).value && requests == old(requests) &&
                loading == old(loading) && accessToken == old(accessToken) &&
                refreshToken == old(refreshToken) && navigatedTo == old(navigatedTo)
      ensures Validate(old(form)).None? ==> requests == old(requests) + [old(form)] && !loading
      ensures Validate(old(form)).None? && outcome.RegisterFailed? ==>
                error == (if outcome.message != "" then outcome.message else SignupFailedMessage) &&
                accessToken == old(accessToken) && refreshToken == old(refreshToken) &&
                navigatedTo == old(navigatedTo)
      ensures Validate(old(form)).None? && outcome.Registered? ==>
                error == "" &&
                var tokens := outcome.tokens;
                if tokens.Some? && Truthy(tokens.value.access) then
                  accessToken == tokens.value.access && navigatedTo == Some("/dashboard") &&
                  refreshToken == (if Truthy(tokens.value.refresh) then tokens.value.refresh else old(refreshToken))
                else
                  accessToken == old(accessToken) && refreshToken == old(refreshToken) &&
                  navigatedTo == old(navigatedTo)
    {
      error := "";
      if form.password != form.confirmPassword {
        error := MismatchMessage;
        return;
      }
      if |form.password| < MinPasswordLength {
        error := TooShortMessage;
        return;
      }
      loading := true;
      requests := requests + [form];
      match outcome {
        case Registered(tokens) =>
          if tokens.Some? && Truthy(tokens.value.access) {
            accessToken := tokens.value.access;
            if Truthy(tokens.value.refresh) {
              refreshToken := tokens.value.refresh;
            }
            navigatedTo := Some("/dashboard");
          }
        case RegisterFailed(message) =>
          error := if message != "" then message else SignupFailedMessage;
      }
      loading := false;
    }
  }
}
