/**
 * src/screens/Auth/CodeLoginScreen.jsx: sign-up with an invitation code,
 * which posts the code and hands the inviting owner's data to the
 * registration-validation step.
 */
module CodeLoginScreen {
  import opened Wrappers
  import Json
  import FormData
  import AxiosInstance
  import Validation
  import Formik

  const InitialValues: Json.Object := [("code", "")]

  /** yup `number().required()`, with a number taken to be a run of decimal digits. */
  predicate Valid(values: Json.Object) {
    Json.Get(values, "code").Some? && Validation.IsNumeric(Json.Get(values, "code").value)
  }

  /** A valid code is also filled in (`required`). */
  lemma ValidIsRequired(values: Json.Object)
    ensures Valid(values) ==> Validation.Required(Json.Get(values, "code"))
  {
  }

  /** The `ownerData` route parameter built from the code's reply. */
  datatype OwnerData = OwnerData(name: string, unit: Option<string>, project: Option<string>, role: Option<string>,
                                 userPhoto: Option<string>, ownerId: Option<string>, usedCode: Option<string>)

  function OwnerDataOf(data: Json.Object): (o: OwnerData)
    ensures o.role == Json.Get(data, "codeType")
    ensures o.name == Json.Text(Json.Get(data, "first_name")) + " " + Json.Text(Json.Get(data, "last_name"))
    ensures o.unit == Json.Get(data, "unit") && o.project == Json.Get(data, "project")
    ensures o.userPhoto == Json.Get(data, "userPhoto") && o.ownerId == Json.Get(data, "ownerId")
    ensures o.usedCode == Json.Get(data, "usedCode")
  {
    OwnerData(Json.Text(Json.Get(data, "first_name")) + " " + Json.Text(Json.Get(data, "last_name")),
              Json.Get(data, "unit"), Json.Get(data, "project"), Json.Get(data, "codeType"),
              Json.Get(data, "userPhoto"), Json.Get(data, "ownerId"), Json.Get(data, "usedCode"))
  }

  /** The display name is the first name, one space, the last name: it splits back at that space when the first name has none. */
  lemma NameSplitsBack(first: string, last: string)
    requires ' ' !in first
    ensures var n := Json.Text(Some(first)) + " " + Json.Text(Some(last));
      n[..|first|] == first && n[|first|] == ' ' && n[|first| + 1..] == last
      && forall i :: 0 <= i < |first| ==> n[i] != ' '
  {
  }

  /** A reply without names still yields a name: `"undefined undefined"`. */
  lemma MissingNamesShowUndefined()
    ensures OwnerDataOf([]).name == "undefined undefined"
  {
  }

  class Screen {
    var values: Json.Object
    var isLoading: bool

    constructor ()
      ensures values == InitialValues && !isLoading
    {
      values := InitialValues;
      isLoading := false;
    }

    method HandleChange(field: string, text: string)
      modifies this`values
      ensures values == Formik.SetFieldValue(old(values), field, text)
    {
      values := Formik.SetFieldValue(values, field, text);
    }

    /**
     * Formik's submit: with a valid code, `validateCode` posts the form; an
     * `OK` reply leads to the registration-validation step with the owner's data.
     */
    method HandleSubmit(reply: AxiosInstance.Settled<Json.Object>)
      returns (request: Option<seq<FormData.Entry>>, next: Option<OwnerData>)
      modifies this`isLoading
      ensures request.Some? <==> Valid(values)
      ensures request.Some? ==> request.value == FormData.TextEntries(values)
      ensures next.Some? <==> request.Some? && Formik.StatusOk(reply)
      ensures next.Some? ==> next.value == OwnerDataOf(AxiosInstance.Delivered(reply).value)
      ensures if request.Some? then !isLoading else isLoading == old(isLoading)
    {
      request := None;
      next := None;
      if Valid(values) {
        isLoading := true;
        var fd := FormData.AppendFields([], values);
        request := Some(fd);
        isLoading := false;
        if Formik.StatusOk(reply) {
          next := Some(OwnerDataOf(AxiosInstance.Delivered(reply).value));
        }
      }
    }
  }
}
