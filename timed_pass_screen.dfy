/**
 * src/screens/TimedPassScreen.jsx: the tenant (timed) pass form, its
 * `create_invitation_family_renter.php` request and the share view that
 * replaces the form once a code came back.
 */
module TimedPassScreen {
  import opened Wrappers
  import Json
  import FormData
  import AxiosInstance
  import Validation
  import Dates
  import Formik

  const InitialValues: Json.Object := [("rent_from", ""), ("rent_to", "")]

  /** The submit handler's checks, in order (the yup schema is not handed to Formik). */
  const SubmitChecks: seq<(string, string)> :=
    [("rent_from", "Start date is required"), ("rent_to", "End Date is required")]

  predicate Submits(values: Json.Object) {
    Validation.Required(Json.Get(values, "rent_from")) && Validation.Required(Json.Get(values, "rent_to"))
  }

  /** The request is sent exactly when neither field error is set. */
  lemma SubmitsIffNoErrors(values: Json.Object)
    ensures Submits(values) <==> Formik.FieldErrors(values, SubmitChecks) == []
  {
    Formik.FieldErrorsEmpty(values, SubmitChecks);
    if Submits(values) {
      forall i | 0 <= i < |SubmitChecks|
        ensures Validation.Required(Json.Get(values, SubmitChecks[i].0))
      {
        if i == 0 {} else {}
      }
    } else {
      assert !Validation.Required(Json.Get(values, SubmitChecks[0].0))
          || !Validation.Required(Json.Get(values, SubmitChecks[1].0));
    }
  }

  /** The form's fields, the session fields, then `invitaion_type` (spelled so on the wire) set to `renter`. */
  function Request(values: Json.Object, user: Json.Object): seq<FormData.Entry> {
    Formik.SessionForm(values, user) + [("invitaion_type", FormData.Text("renter"))]
  }

  lemma RequestKeys(values: Json.Object, user: Json.Object)
    requires Formik.Names(values) == Formik.Names(InitialValues)
    ensures FormData.Keys(Request(values, user)) == ["rent_from", "rent_to", "userId", "role", "invitaion_type"]
  {
    Formik.SessionFormKeys(values, user);
    FormData.KeysAppend(Formik.SessionForm(values, user), [("invitaion_type", FormData.Text("renter"))]);
  }

  /** Whether the share view replaces the form: `code.code` is truthy. */
  predicate ShowsShare(code: Json.Object) {
    Validation.Required(Json.Get(code, "code"))
  }

  /** The code the share sheet's message carries. */
  function SharedCode(code: Json.Object): (c: Option<string>)
    ensures ShowsShare(code) ==> c.Some? && c.value != ""
  {
    Json.Get(code, "code")
  }

  class Screen {
    var values: Json.Object
    var errors: seq<(string, string)>
    var isLoading: bool
    /** The last `OK` reply body; `{}` until then. */
    var code: Json.Object

    constructor ()
      ensures values == InitialValues && errors == [] && !isLoading && code == []
    {
      values := InitialValues;
      errors := [];
      isLoading := false;
      code := [];
    }

    method HandleChange(field: string, text: string)
      modifies this`values
      ensures values == Formik.SetFieldValue(old(values), field, text)
    {
      values := Formik.SetFieldValue(values, field, text);
    }

    /** The start-date picker's change: the fr-CA text of the date goes into `rent_from`. */
    method ChangeFromDate(d: Dates.Date)
      requires Dates.ValidDate(d)
      modifies this`values
      ensures values == Formik.SetFieldValue(old(values), "rent_from", Dates.FrCa(d))
    {
      values := Formik.SetFieldValue(values, "rent_from", Dates.FrCa(d));
    }

    method ChangeToDate(d: Dates.Date)
      requires Dates.ValidDate(d)
      modifies this`values
      ensures values == Formik.SetFieldValue(old(values), "rent_to", Dates.FrCa(d))
    {
      values := Formik.SetFieldValue(values, "rent_to", Dates.FrCa(d));
    }

    /**
     * `handleSubmit()`: the field errors are set; with both dates filled,
     * `generateCode` posts the request and an `OK` reply becomes `code`.
     */
    method HandleSubmit(user: Json.Object, reply: AxiosInstance.Settled<Json.Object>)
      returns (request: Option<seq<FormData.Entry>>)
      modifies this`errors, this`isLoading, this`code
      ensures errors == Formik.FieldErrors(values, SubmitChecks)
      ensures request.Some? <==> Submits(values)
      ensures request.Some? ==> request.value == Request(values, user)
      ensures code == if request.Some? && Formik.StatusOk(reply) then AxiosInstance.Delivered(reply).value else old(code)
      ensures if request.Some? then !isLoading else isLoading == old(isLoading)
    {
      errors := Formik.FieldErrors(values, SubmitChecks);
      request := None;
      if Submits(values) {
        isLoading := true;
        var fd := FormData.AppendFields([], values);
        assert fd == FormData.TextEntries(values);
        fd := fd + FormData.SessionEntries(user);
        assert fd == Formik.SessionForm(values, user);
        fd := fd + [("invitaion_type", FormData.Text("renter"))];
        request := Some(fd);
        if Formik.StatusOk(reply) {
          code := AxiosInstance.Delivered(reply).value;
        }
        isLoading := false;
      }
    }

    /** The share button (only shown with a code): the message carries `code.code`. */
    method ShareInvitation() returns (shared: string)
      requires ShowsShare(code)
      ensures Some(shared) == Json.Get(code, "code") && shared != ""
    {
      shared := SharedCode(code).value;
    }
  }
}
