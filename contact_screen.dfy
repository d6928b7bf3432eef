/**
 * src/screens/ContactScreen.jsx: the contact form, prefilled from the
 * session, its `contact_form.php` request and the reset after a success.
 */
module ContactScreen {
  import opened Wrappers
  import Json
  import FormData
  import AxiosInstance
  import Validation
  import Formik

  /** The prefilled name: first and last name joined by the empty string. */
  function InitialName(user: Json.Object): string {
    Json.Text(Json.Get(user, "first_name")) + "" + Json.Text(Json.Get(user, "last_name"))
  }

  /** With no separator the boundary is lost: two different users get the same prefilled name. */
  lemma NamesRunTogether()
    ensures InitialName([("first_name", "Ann"), ("last_name", "Abel")])
         == InitialName([("first_name", "AnnA"), ("last_name", "bel")])
  {
    Json.GetAt([("first_name", "Ann"), ("last_name", "Abel")], 1);
    Json.GetAt([("first_name", "AnnA"), ("last_name", "bel")], 1);
  }

  /**
   * The initial values: the name, then the session's phone number and
   * e-mail (a field whose session value is missing starts out absent),
   * then an empty message.
   */
  function InitialValues(user: Json.Object): (v: Json.Object)
    ensures Json.Get(v, "name") == Some(InitialName(user))
    ensures Json.Get(v, "phoneNumber") == Json.Get(user, "phoneNumber")
    ensures Json.Get(v, "email") == Json.Get(user, "email")
    ensures Json.Get(v, "message") == Some("")
  {
    var phone := Json.Get(user, "phoneNumber");
    var email := Json.Get(user, "email");
    var p: Json.Object := if phone.Some? then [("phoneNumber", phone.value)] else [];
    var e: Json.Object := if email.Some? then [("email", email.value)] else [];
    var tail2 := e + [("message", "")];
    var tail1 := p + tail2;
    var v := [("name", InitialName(user))] + tail1;
    FormData.GetAppend([("name", InitialName(user))], tail1, "phoneNumber");
    FormData.GetAppend(p, tail2, "phoneNumber");
    FormData.GetAppend([("name", InitialName(user))], tail1, "email");
    FormData.GetAppend(p, tail2, "email");
    FormData.GetAppend(e, [("message", "")], "email");
    FormData.GetAppend([("name", InitialName(user))], tail1, "message");
    FormData.GetAppend(p, tail2, "message");
    FormData.GetAppend(e, [("message", "")], "message");
    v
  }

  /** The yup schema: all four fields filled. */
  predicate Valid(values: Json.Object) {
    Validation.Required(Json.Get(values, "name")) && Validation.Required(Json.Get(values, "phoneNumber"))
    && Validation.Required(Json.Get(values, "email")) && Validation.Required(Json.Get(values, "message"))
  }

  /** The prefilled form never submits as it stands: the message starts empty. */
  lemma InitialFormNeedsMessage(user: Json.Object)
    ensures !Valid(InitialValues(user))
  {
  }

  class Screen {
    var values: Json.Object
    var isLoading: bool
    const user: Json.Object

    constructor (user: Json.Object)
      ensures values == InitialValues(user) && !isLoading && this.user == user
    {
      values := InitialValues(user);
      isLoading := false;
      this.user := user;
    }

    method HandleChange(field: string, text: string)
      modifies this`values
      ensures values == Formik.SetFieldValue(old(values), field, text)
    {
      values := Formik.SetFieldValue(values, field, text);
    }

    /**
     * Formik's submit: with a valid form, `sendContact` posts the fields
     * and the session's identity; an `OK` reply resets the form to its
     * initial values.
     */
    method HandleSubmit(reply: AxiosInstance.Settled<Json.Object>) returns (request: Option<seq<FormData.Entry>>)
      modifies this`values, this`isLoading
      ensures request.Some? <==> Valid(old(values))
      ensures request.Some? ==> request.value == Formik.SessionForm(old(values), user)
      ensures values == if request.Some? && Formik.StatusOk(reply) then InitialValues(user) else old(values)
      ensures if request.Some? then !isLoading else isLoading == old(isLoading)
    {
      request := None;
      if Valid(values) {
        isLoading := true;
        var fd := FormData.AppendFields([], values);
        assert fd == FormData.TextEntries(values);
        fd := fd + FormData.SessionEntries(user);
        assert fd == Formik.SessionForm(values, user);
        request := Some(fd);
        if Formik.StatusOk(reply) {
          values := InitialValues(user);
        }
        isLoading := false;
      }
    }
  }
}
