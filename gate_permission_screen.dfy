/**
 * src/screens/GatePermissionScreen.jsx: the gate-permission form (guest,
 * description and a date range), its hand-written submit checks and the
 * `create_gate_permission.php` request.
 */
module GatePermissionScreen {
  import opened Wrappers
  import Json
  import FormData
  import AxiosInstance
  import Validation
  import Dates
  import Formik

  const InitialValues: Json.Object := [("guest_name", ""), ("description", ""), ("date_from", ""), ("date_to", "")]

  /**
   * The checks of the submit handler, in the order it makes them. (The yup
   * schema is handed to Formik under a key Formik does not read, so these
   * checks are the only validation.)
   */
  const SubmitChecks: seq<(string, string)> :=
    [("date_from", "Start date is required"), ("date_to", "End Date is required"),
     ("guest_name", "Guest name is required"), ("description", "Description is required")]

  /** The condition under which the submit handler sends the request. */
  predicate Submits(values: Json.Object) {
    Validation.Required(Json.Get(values, "date_from")) && Validation.Required(Json.Get(values, "date_to"))
    && Validation.Required(Json.Get(values, "description")) && Validation.Required(Json.Get(values, "guest_name"))
  }

  /** The request is sent exactly when none of the four field errors is set. */
  lemma SubmitsIffNoErrors(values: Json.Object)
    ensures Submits(values) <==> Formik.FieldErrors(values, SubmitChecks) == []
  {
    Formik.FieldErrorsEmpty(values, SubmitChecks);
    if Submits(values) {
      forall i | 0 <= i < |SubmitChecks|
        ensures Validation.Required(Json.Get(values, SubmitChecks[i].0))
      {
        if i == 0 {} else if i == 1 {} else if i == 2 {} else {}
      }
    } else {
      assert !Validation.Required(Json.Get(values, SubmitChecks[0].0))
          || !Validation.Required(Json.Get(values, SubmitChecks[1].0))
          || !Validation.Required(Json.Get(values, SubmitChecks[2].0))
          || !Validation.Required(Json.Get(values, SubmitChecks[3].0));
    }
  }

  /** Nothing compares the two dates: any two picked dates, in either order, are sent. */
  lemma DateOrderNotChecked(guest: string, description: string, from: Dates.Date, to: Dates.Date)
    requires guest != "" && description != ""
    requires Dates.ValidDate(from) && Dates.ValidDate(to)
    ensures Submits([("guest_name", guest), ("description", description),
                     ("date_from", Dates.FrCa(from)), ("date_to", Dates.FrCa(to))])
  {
    var v: Json.Object := [("guest_name", guest), ("description", description),
                           ("date_from", Dates.FrCa(from)), ("date_to", Dates.FrCa(to))];
    Json.GetAt(v, 0);
    Json.GetAt(v, 1);
    Json.GetAt(v, 2);
    Json.GetAt(v, 3);
  }

  /** The form's fields in order, then `userId` and `role`. */
  function Request(values: Json.Object, user: Json.Object): seq<FormData.Entry> {
    Formik.SessionForm(values, user)
  }

  lemma RequestKeys(values: Json.Object, user: Json.Object)
    requires Formik.Names(values) == Formik.Names(InitialValues)
    ensures FormData.Keys(Request(values, user)) == ["guest_name", "description", "date_from", "date_to", "userId", "role"]
  {
    Formik.SessionFormKeys(values, user);
  }

  class Screen {
    var values: Json.Object
    var errors: seq<(string, string)>
    var isLoading: bool

    constructor ()
      ensures values == InitialValues && errors == [] && !isLoading
    {
      values := InitialValues;
      errors := [];
      isLoading := false;
    }

    /** `handleChange(field)` of a text input. */
    method HandleChange(field: string, text: string)
      modifies this`values
      ensures values == Formik.SetFieldValue(old(values), field, text)
    {
      values := Formik.SetFieldValue(values, field, text);
    }

    /** The start-date picker's confirm: the fr-CA text of the date goes into `date_from`. */
    method ConfirmFromDate(d: Dates.Date)
      requires Dates.ValidDate(d)
      modifies this`values
      ensures values == Formik.SetFieldValue(old(values), "date_from", Dates.FrCa(d))
    {
      values := Formik.SetFieldValue(values, "date_from", Dates.FrCa(d));
    }

    /** The end-date picker's confirm. */
    method ConfirmToDate(d: Dates.Date)
      requires Dates.ValidDate(d)
      modifies this`values
      ensures values == Formik.SetFieldValue(old(values), "date_to", Dates.FrCa(d))
    {
      values := Formik.SetFieldValue(values, "date_to", Dates.FrCa(d));
    }

    /**
     * `handleSubmit()`: the field errors are set; when all four fields are
     * filled, `addGatePermission` posts the request and, on `OK`, navigates
     * to Home. The spinner ends off on every path.
     */
    method HandleSubmit(user: Json.Object, reply: AxiosInstance.Settled<Json.Object>)
      returns (request: Option<seq<FormData.Entry>>, toHome: bool)
      modifies this`errors, this`isLoading
      ensures errors == Formik.FieldErrors(values, SubmitChecks)
      ensures request.Some? <==> Submits(values)
      ensures request.Some? ==> request.value == Request(values, user)
      ensures toHome <==> request.Some? && Formik.StatusOk(reply)
      ensures if request.Some? then !isLoading else isLoading == old(isLoading)
    {
      errors := Formik.FieldErrors(values, SubmitChecks);
      request := None;
      toHome := false;
      if Submits(values) {
        isLoading := true;
        var fd := FormData.AppendFields([], values);
        assert fd == FormData.TextEntries(values);
        fd := fd + FormData.SessionEntries(user);
        assert fd == Request(values, user);
        request := Some(fd);
        toHome := Formik.StatusOk(reply);
        isLoading := false;
      }
    }
  }
}
