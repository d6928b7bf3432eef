/**
 * src/screens/Auth/ResetPasswordScreen.jsx: the first step of a password
 * reset, which asks the server to send a code for a phone number and hands
 * the reply's identity and code to the verification step.
 */
module ResetPasswordScreen {
  import opened Wrappers
  import Json
  import FormData
  import AxiosInstance
  import Validation
  import Formik
  import Steps

  /** The phone number travels in a field named `email`. */
  const InitialValues: Json.Object := [("email", "")]

  predicate Valid(values: Json.Object) {
    Validation.PhoneValid(Json.Get(values, "email"))
  }

  /** The route parameters of the verification step; each is `undefined` when the reply lacks it. */
  datatype OtpRoute = OtpRoute(userId: Option<string>, role: Option<string>, otp: Option<string>)

  /** `{userId: data.userId, role: data.role, otp: data.v_code}` */
  function OtpRouteOf(data: Json.Object): (r: OtpRoute)
    ensures r.otp == Json.Get(data, "v_code")
    ensures r.userId == Json.Get(data, "userId") && r.role == Json.Get(data, "role")
  {
    OtpRoute(Json.Get(data, "userId"), Json.Get(data, "role"), Json.Get(data, "v_code"))
  }

  /** The first of three steps. */
  lemma ProgressIsFirstOfThree()
    ensures Steps.Draw(1, 3).icons == [Steps.Current, Steps.Next, Steps.Next]
    ensures Steps.Draw(1, 3).lines == [false, false]
  {
    Steps.DrawShape(1, 3);
  }

  class Screen {
    var values: Json.Object
    var isLoading: bool

    constructor ()
      ensures values == InitialValues && !isLoading
    {
      values := InitialValues;
      isLoading := false;
    }

    method HandleChange(field: string, text: string)
      modifies this`values
      ensures values == Formik.SetFieldValue(old(values), field, text)
    {
      values := Formik.SetFieldValue(values, field, text);
    }

    /**
     * Formik's submit: with a valid number, `getOtp` posts the form; an `OK`
     * reply leads to the verification step with the reply's identity and code.
     */
    method HandleSubmit(reply: AxiosInstance.Settled<Json.Object>)
      returns (request: Option<seq<FormData.Entry>>, next: Option<OtpRoute>)
      modifies this`isLoading
      ensures request.Some? <==> Valid(values)
      ensures request.Some? ==> request.value == FormData.TextEntries(values)
      ensures next.Some? <==> request.Some? && Formik.StatusOk(reply)
      ensures next.Some? ==> next.value == OtpRouteOf(AxiosInstance.Delivered(reply).value)
      ensures if request.Some? then !isLoading else isLoading == old(isLoading)
    {
      request := None;
      next := None;
      if Valid(values) {
        isLoading := true;
        var fd := FormData.AppendFields([], values);
        request := Some(fd);
        isLoading := false;
        if Formik.StatusOk(reply) {
          var data := AxiosInstance.Delivered(reply).value;
          next := Some(OtpRoute(Json.Get(data, "userId"), Json.Get(data, "role"), Json.Get(data, "v_code")));
        }
      }
    }
  }
}
