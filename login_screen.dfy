/**
 * src/screens/Auth/LoginScreen.jsx: the phone/password form and its hand-off
 * to the authentication context's `login`.
 */
module LoginScreen {
  import opened Wrappers
  import Json
  import Validation
  import Formik
  import AuthContext

  /** The phone number travels in a field named `email`. */
  const InitialValues: Json.Object := [("email", ""), ("password", "")]

  /** The schema's password minimum (its message says 8). */
  const PasswordMin: nat := 6

  /** The yup schema: the phone rule on `email`; a required password of at least six characters. */
  predicate Valid(values: Json.Object) {
    Validation.PhoneValid(Json.Get(values, "email"))
    && Validation.Required(Json.Get(values, "password"))
    && Validation.MinLength(Json.Get(values, "password"), PasswordMin)
  }

  /** The schema written out: an Egyptian mobile number and a password of six or more characters. */
  lemma ValidMeans(values: Json.Object)
    ensures Valid(values) <==>
      && Json.Get(values, "email").Some? && Validation.IsMobileNumber(Json.Get(values, "email").value)
      && Json.Get(values, "password").Some? && |Json.Get(values, "password").value| >= 6
  {
    if Json.Get(values, "email").Some? {
      Validation.PhonePatternIsMobileNumber(Json.Get(values, "email").value);
    }
  }

  /** A six-character password passes, although the message asks for eight. */
  lemma SixCharacterPasswordAccepted(phone: string)
    requires Validation.IsMobileNumber(phone)
    ensures Valid([("email", phone), ("password", "secret")])
  {
    Validation.PhonePatternIsMobileNumber(phone);
    Json.GetAt([("email", phone), ("password", "secret")], 1);
  }

  class Screen {
    var values: Json.Object

    constructor ()
      ensures values == InitialValues
    {
      values := InitialValues;
    }

    method HandleChange(field: string, text: string)
      modifies this`values
      ensures values == Formik.SetFieldValue(old(values), field, text)
    {
      values := Formik.SetFieldValue(values, field, text);
    }

    /**
     * The login button: only with a valid form, `login(values.email,
     * values.password)` posts the credentials and shows the context's spinner.
     */
    method HandleSubmit(auth: AuthContext.AuthProvider) returns (posted: Option<Json.Object>)
      modifies auth`isLoading
      ensures posted.Some? <==> Valid(values)
      ensures posted.Some? ==> auth.isLoading
      ensures posted.Some? ==>
                posted.value == [("username", Json.Get(values, "email").value), ("password", Json.Get(values, "password").value)]
      ensures posted.None? ==> auth.isLoading == old(auth.isLoading)
    {
      posted := None;
      if Valid(values) {
        var body := auth.Login(Json.Get(values, "email").value, Json.Get(values, "password").value);
        posted := Some(body);
      }
    }
  }
}
