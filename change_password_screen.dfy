/**
 * src/screens/Auth/ChangePasswordScreen.jsx: the new-password form, which
 * finishes a password reset when the route carries the reset's identity and
 * otherwise changes the signed-in user's password.
 */
module ChangePasswordScreen {
  import opened Wrappers
  import Json
  import FormData
  import AxiosInstance
  import Validation
  import Formik
  import Steps
  import ResetPasswordScreen
  import OtpVerificationScreen

  const InitialValues: Json.Object := [("password", ""), ("confirm_password", "")]

  predicate Valid(values: Json.Object) {
    Validation.Required(Json.Get(values, "password")) && Validation.MinLength(Json.Get(values, "password"), 8)
    && Validation.MatchesRef(Json.Get(values, "confirm_password"), Json.Get(values, "password"))
  }

  /** Where a successful request leads. */
  datatype Next = ToLogin | ToHome

  /**
   * The endpoint and form of a submit: the reset's identity and
   * `new_password` when the route carries user data, otherwise the
   * session's identity and `password`.
   */
  function Request(userData: Option<OtpVerificationScreen.UserData>, user: Option<Json.Object>, password: string)
    : (r: (string, seq<FormData.Entry>))
    requires userData.Some? || user.Some?
    ensures |r.1| == 3 && r.1[2].1 == FormData.Text(password)
    ensures userData.Some? <==> r.0 == "/forgot_password_update_new_pass.php"
    ensures userData.None? <==> r.0 == "/user_change_password.php"
    ensures FormData.Keys(r.1) == if userData.Some? then ["userId", "role", "new_password"] else ["userId", "role", "password"]
    ensures userData.Some? ==> r.1[0].1 == FormData.Text(Json.Text(userData.value.userId))
                               && r.1[1].1 == FormData.Text(Json.Text(userData.value.role))
    ensures userData.None? ==> r.1[..2] == FormData.SessionEntries(user.value)
  {
    match userData
    case Some(d) =>
      var fd := [("userId", FormData.Text(Json.Text(d.userId))), ("role", FormData.Text(Json.Text(d.role))),
                 ("new_password", FormData.Text(password))];
      assert FormData.Keys(fd[2..]) == ["new_password"];
      assert FormData.Keys(fd[1..]) == ["role", "new_password"];
      ("/forgot_password_update_new_pass.php", fd)
    case None =>
      var fd := [("userId", FormData.Text(FormData.UserField(user.value, "userId"))),
                 ("role", FormData.Text(FormData.UserField(user.value, "role"))),
                 ("password", FormData.Text(password))];
      assert FormData.Keys(fd[2..]) == ["password"];
      assert FormData.Keys(fd[1..]) == ["role", "password"];
      ("/user_change_password.php", fd)
  }

  /** The progress bar is drawn only during a reset, as its last step. */
  function Progress(userData: Option<OtpVerificationScreen.UserData>): (d: Option<Steps.Drawing>)
    ensures d.Some? <==> userData.Some?
    ensures d.Some? ==> d.value.icons == [Steps.Done, Steps.Done, Steps.Current] && d.value.lines == [true, true]
  {
    Steps.DrawShape(3, 3);
    if userData.Some? then Some(Steps.Draw(3, 3)) else None
  }

  /**
   * The whole reset: the new password reaches the server under the identity
   * the first step's reply named, and only when the typed code is the code
   * that reply carried.
   */
  lemma ResetSendsServerIdentity(data: Json.Object, otpInput: string, user: Option<Json.Object>, password: string)
    ensures var userData := OtpVerificationScreen.Verify(otpInput, ResetPasswordScreen.OtpRouteOf(data));
      && (userData.Some? <==> Json.Get(data, "v_code") == Some(otpInput))
      && (userData.Some? ==>
            (Request(userData, user, password).1 ==
               [("userId", FormData.Text(Json.Get(data, "userId").GetOr("undefined"))),
                ("role", FormData.Text(Json.Get(data, "role").GetOr("undefined"))),
                ("new_password", FormData.Text(password))]))
  {
  }

  class Screen {
    var values: Json.Object
    var isLoading: bool
    const userData: Option<OtpVerificationScreen.UserData>

    constructor (userData: Option<OtpVerificationScreen.UserData>)
      ensures values == InitialValues && !isLoading && this.userData == userData
    {
      values := InitialValues;
      isLoading := false;
      this.userData := userData;
    }

    method HandleChange(field: string, text: string)
      modifies this`values
      ensures values == Formik.SetFieldValue(old(values), field, text)
    {
      values := Formik.SetFieldValue(values, field, text);
    }

    /**
     * Formik's submit: with a valid form, `resetPassword` or
     * `userChangePassword` posts the new password; on `OK` the reset goes
     * to the login screen and the change to Home. Outside a reset the
     * screen reads the session user, so one must exist.
     */
    method HandleSubmit(user: Option<Json.Object>, reply: AxiosInstance.Settled<Json.Object>)
      returns (request: Option<(string, seq<FormData.Entry>)>, next: Option<Next>)
      requires userData.Some? || user.Some?
      modifies this`isLoading
      ensures request.Some? <==> Valid(values)
      ensures request.Some? ==> request.value == Request(userData, user, Json.Get(values, "password").value)
      ensures next.Some? <==> request.Some? && Formik.StatusOk(reply)
      ensures next.Some? ==> next.value == if userData.Some? then ToLogin else ToHome
      ensures if request.Some? then !isLoading else isLoading == old(isLoading)
    {
      request := None;
      next := None;
      if Valid(values) {
        isLoading := true;
        var password := Json.Get(values, "password").value;
        var fd: seq<FormData.Entry>;
        var url: string;
        if userData.Some? {
          fd := [("userId", FormData.Text(Json.Text(userData.value.userId))),
                 ("role", FormData.Text(Json.Text(userData.value.role))),
                 ("new_password", FormData.Text(password))];
          url := "/forgot_password_update_new_pass.php";
        } else {
          fd := [("userId", FormData.Text(FormData.UserField(user.value, "userId"))),
                 ("role", FormData.Text(FormData.UserField(user.value, "role"))),
                 ("password", FormData.Text(password))];
          url := "/user_change_password.php";
        }
        request := Some((url, fd));
        isLoading := false;
        if Formik.StatusOk(reply) {
          next := Some(if userData.Some? then ToLogin else ToHome);
        }
      }
    }
  }
}
