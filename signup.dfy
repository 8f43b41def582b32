/**
 * The sign-up page (Signup): the checks it makes before posting (a ten-digit number
 * for an Indian phone, then a strong password), the body it posts to the register
 * endpoint, and what it does with the answer.
 */
module SignupPage {
  import opened Wrappers
  import opened Text
  import opened Json
  import Env
  import AuthController

  datatype Form = Form(name: string, email: string, password: string, phone: string,
                       countryCode: string, adminCode: string)

  /** The form and role as the page opens. */
  const InitialForm := Form("", "", "", "", "+91", "")
  const InitialRole := "user"

  const MinPasswordLength := 6

  function UpperLetter(): char -> bool { c => IsUpper(c) }

  function Digit(): char -> bool { c => IsDigit(c) }

  /** `isStrongPassword`: at least six characters, one of them a capital letter A-Z and
      one a digit 0-9. */
  function IsStrongPassword(pwd: string): (r: bool)
    ensures r <==> |pwd| >= MinPasswordLength
                   && (exists i :: 0 <= i < |pwd| && IsUpper(pwd[i]))
                   && (exists i :: 0 <= i < |pwd| && IsDigit(pwd[i]))
  {
    |pwd| >= MinPasswordLength && Any(pwd, UpperLetter()) && Any(pwd, Digit())
  }

  /** A password is not strong without a capital letter, however long it is. */
  lemma NoCapitalNotStrong(pwd: string)
    requires forall i :: 0 <= i < |pwd| ==> !IsUpper(pwd[i])
    ensures !IsStrongPassword(pwd)
  {
  }

  /** Six characters with a capital and a digit are enough, whatever the others are. */
  lemma ShortestStrong()
    ensures IsStrongPassword("Abcde1")
    ensures !IsStrongPassword("Abcd1")
    ensures !IsStrongPassword("abcdef1")
  {
    assert IsUpper("Abcde1"[0]) && IsDigit("Abcde1"[5]);
    NoCapitalNotStrong("abcdef1");
  }

  const IndiaCode := "+91"
  const PhoneLength := 10
  const PhoneMessage := "Please enter a valid 10-digit Indian mobile number."
  const PasswordMessage := "Password must be at least 6 chars, with 1 uppercase & 1 number."

  /** With the Indian code the number must have ten characters; any other code is not
      checked. */
  predicate PhoneOk(form: Form) {
    form.countryCode != IndiaCode || |form.phone| == PhoneLength
  }

  /** The checks of `handleSubmit` in their order: the error shown, or `None` when the
      page goes on to post. */
  function Validate(form: Form): (r: Option<string>)
    ensures r == Some(PhoneMessage) <==> !PhoneOk(form)
    ensures r == Some(PasswordMessage) <==> PhoneOk(form) && !IsStrongPassword(form.password)
    ensures r.None? <==> PhoneOk(form) && IsStrongPassword(form.password)
  {
    assert |PhoneMessage| != |PasswordMessage|;
    if !PhoneOk(form) then Some(PhoneMessage)
    else if !IsStrongPassword(form.password) then Some(PasswordMessage)
    else None
  }

  /** The phone check comes first: a bad number is reported even when the password is
      weak too. */
  lemma PhoneCheckedFirst(form: Form)
    requires !PhoneOk(form) && !IsStrongPassword(form.password)
    ensures Validate(form) == Some(PhoneMessage)
  {
  }

  /** The form as it opens fails on the phone check. */
  lemma InitialFormRefused()
    ensures Validate(InitialForm) == Some(PhoneMessage)
  {
  }

  /** `{ ...form, role }`: every field of the form, and the role. */
  function RequestBody(form: Form, role: string): (r: Doc)
    ensures r.Keys == {"name", "email", "password", "phone", "countryCode", "adminCode", "role"}
    ensures r["name"] == Str(form.name) && r["email"] == Str(form.email)
    ensures r["password"] == Str(form.password) && r["phone"] == Str(form.phone)
    ensures r["countryCode"] == Str(form.countryCode) && r["adminCode"] == Str(form.adminCode)
    ensures r["role"] == Str(role)
  {
    map["name" := Str(form.name), "email" := Str(form.email), "password" := Str(form.password),
        "phone" := Str(form.phone), "countryCode" := Str(form.countryCode),
        "adminCode" := Str(form.adminCode), "role" := Str(role)]
  }

  /** The page does not check the name: a form that passes its checks with an empty name
      is refused by the server with 400. */
  lemma EmptyNameRefusedByServer(env: Env.Env, docs: map<Json.Id, Doc>, form: Form, role: string)
    requires form.name == ""
    ensures Validate(form).None? ==>
      AuthController.RegisterGuard(env, docs, RequestBody(form, role))
        == Some(AuthController.Fail(400, "All fields are required"))
  {
    assert !Has(RequestBody(form, role), "name");
  }

  datatype Outcome = Failed(error: string) | Registered(success: string)

  const SuccessMessage := "Registration successful! Redirecting to login..."

  /** What the page does with the answer `data`: without a truthy `success` it shows the
      answer's message (or "Registration failed") and stores nothing; otherwise it
      stores the token under "token". */
  function HandleResponse(data: Doc, storage: map<string, string>): (r: (Outcome, map<string, string>))
    ensures r.0.Failed? <==> !Has(data, "success")
    ensures r.0.Failed? ==> r.0.error == MessageOr(data, "message", "Registration failed") && r.1 == storage
    ensures r.0.Registered? ==>
      r.0.success == SuccessMessage && r.1 == storage["token" := JsString(Get(data, "token")).GetOr("")]
  {
    if !Has(data, "success") then (Failed(MessageOr(data, "message", "Registration failed")), storage)
    else (Registered(SuccessMessage), storage["token" := JsString(Get(data, "token")).GetOr("")])
  }

  /** A failed answer leaves an earlier stored token as it was. */
  lemma FailureKeepsToken(data: Doc, storage: map<string, string>)
    requires !Has(data, "success")
    ensures var (_, after) := HandleResponse(data, storage);
      ("token" in after <==> "token" in storage) && ("token" in storage ==> after["token"] == storage["token"])
  {
  }
}
