/**
 * src/screens/OneTimePassScreen.jsx: the one-time guest pass form, its
 * `create_one_time_pass.php` request and the QR view that replaces the form
 * once a QR code came back.
 */
module OneTimePassScreen {
  import opened Wrappers
  import Json
  import FormData
  import AxiosInstance
  import Validation
  import Formik

  const InitialValues: Json.Object := [("guest_name", ""), ("guest_ride", "")]

  /** The yup schema (handed to Formik here, so a submit only happens when it holds). */
  predicate Valid(values: Json.Object) {
    Validation.Required(Json.Get(values, "guest_name")) && Validation.Required(Json.Get(values, "guest_ride"))
  }

  /** The form's fields, then `userId` and `role`. */
  function Request(values: Json.Object, user: Json.Object): seq<FormData.Entry> {
    Formik.SessionForm(values, user)
  }

  lemma RequestKeys(values: Json.Object, user: Json.Object)
    requires Formik.Names(values) == Formik.Names(InitialValues)
    ensures FormData.Keys(Request(values, user)) == ["guest_name", "guest_ride", "userId", "role"]
  {
    Formik.SessionFormKeys(values, user);
  }

  /** Whether the QR view replaces the form: `code.qrcode` is truthy. */
  predicate ShowsQr(code: Json.Object) {
    Validation.Required(Json.Get(code, "qrcode"))
  }

  const DataUriPrefix: string := "data:image/png;base64,"

  /** The image source of the QR view: the base64 PNG as a data URI. */
  function QrImageUri(code: Json.Object): (uri: string)
    requires ShowsQr(code)
    ensures |uri| > |DataUriPrefix| && uri[..|DataUriPrefix|] == DataUriPrefix
    ensures uri[|DataUriPrefix|..] == Json.Get(code, "qrcode").value
  {
    DataUriPrefix + Json.Get(code, "qrcode").value
  }

  /** The file the share sheet opens: the captured screenshot's path as a file URI. */
  function SharedFile(capturedUri: string): (f: string)
    ensures |f| >= 7 && f[..7] == "file://" && f[7..] == capturedUri
  {
    "file://" + capturedUri
  }

  class Screen {
    var values: Json.Object
    var isLoading: bool
    /** The last `OK` reply body; `{}` until then. */
    var code: Json.Object

    constructor ()
      ensures values == InitialValues && !isLoading && code == []
    {
      values := InitialValues;
      isLoading := false;
      code := [];
    }

    method HandleChange(field: string, text: string)
      modifies this`values
      ensures values == Formik.SetFieldValue(old(values), field, text)
    {
      values := Formik.SetFieldValue(values, field, text);
    }

    /**
     * Formik's submit: nothing happens unless the schema holds; then
     * `generateCode` posts the request and an `OK` reply becomes `code`.
     */
    method HandleSubmit(user: Json.Object, reply: AxiosInstance.Settled<Json.Object>)
      returns (request: Option<seq<FormData.Entry>>)
      modifies this`isLoading, this`code
      ensures request.Some? <==> Valid(values)
      ensures request.Some? ==> request.value == Request(values, user)
      ensures code == if request.Some? && Formik.StatusOk(reply) then AxiosInstance.Delivered(reply).value else old(code)
      ensures if request.Some? then !isLoading else isLoading == old(isLoading)
    {
      request := None;
      if Valid(values) {
        isLoading := true;
        var fd := FormData.AppendFields([], values);
        assert fd == FormData.TextEntries(values);
        fd := fd + FormData.SessionEntries(user);
        assert fd == Request(values, user);
        request := Some(fd);
        if Formik.StatusOk(reply) {
          code := AxiosInstance.Delivered(reply).value;
        }
        isLoading := false;
      }
    }
  }
}
