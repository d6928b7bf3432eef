/**
 * src/screens/Auth/RegisterScreen.jsx: the registration form, the request
 * that merges it with the data of the validation step, the optional profile
 * photo and the endpoint chosen by the route's role.
 */
module RegisterScreen {
  import opened Wrappers
  import Json
  import FormData
  import AxiosInstance
  import Validation
  import Formik
  import Steps

  const InitialValues: Json.Object :=
    [("first_name", ""), ("last_name", ""), ("email", ""), ("phone", ""), ("password", "")]

  /**
   * The yup schema. `isEmail` is yup's e-mail test, which this model takes
   * as given; the two confirmations pass while untouched.
   */
  predicate Valid(values: Json.Object, isEmail: string -> bool) {
    && Validation.Required(Json.Get(values, "first_name"))
    && Validation.Required(Json.Get(values, "last_name"))
    && Validation.Required(Json.Get(values, "email")) && isEmail(Json.Get(values, "email").value)
    && Validation.MatchesRef(Json.Get(values, "confirm_email"), Json.Get(values, "email"))
    && Validation.Required(Json.Get(values, "password")) && Validation.MinLength(Json.Get(values, "password"), 8)
    && Validation.MatchesRef(Json.Get(values, "confirm_password"), Json.Get(values, "password"))
    && Validation.PhoneValid(Json.Get(values, "phone"))
  }

  /** A typed confirmation that differs from its field blocks the form. */
  lemma MismatchedConfirmationRejected(values: Json.Object, isEmail: string -> bool)
    requires Json.Get(values, "confirm_password").Some?
    requires Json.Get(values, "confirm_password") != Json.Get(values, "password")
    ensures !Valid(values, isEmail)
  {
  }

  /** `role ? '/register_with_code.php' : '/register_owner.php'` */
  function Endpoint(role: Option<string>): string {
    if role.Some? && Validation.Truthy(role.value) then "/register_with_code.php" else "/register_owner.php"
  }

  /** `role ?? 'owner'` */
  function RoleField(role: Option<string>): string {
    role.GetOr("owner")
  }

  /** A route without a role registers an owner, on the owner endpoint. */
  lemma NoRoleMeansOwner()
    ensures RoleField(None) == "owner" && Endpoint(None) == "/register_owner.php"
  {
  }

  /** The form values with the validation step's data spread over them, then role, token and, when one was chosen, the photo. */
  function Request(values: Json.Object, validationData: Option<Json.Object>, role: Option<string>,
                   selectedImage: string, profile: string): seq<FormData.Entry> {
    FormData.TextEntries(FormData.Spread(values, validationData.GetOr([])))
    + [("role", FormData.Text(RoleField(role))), ("token", FormData.Text(""))]
    + (if selectedImage != profile then [("userPhoto", FormData.PhotoPart(selectedImage))] else [])
  }

  lemma {:induction false} TextEntryOfMember(o: Json.Object, k: string)
    requires Json.Get(o, k).Some?
    ensures (k, FormData.Text(Json.Get(o, k).value)) in FormData.TextEntries(o)
  {
    if o[0].0 != k {
      TextEntryOfMember(o[1..], k);
    }
  }

  /**
   * Every field of the form or of the validation data is sent, and where
   * both have it the validation data's value wins.
   */
  lemma RequestCarriesFields(values: Json.Object, validationData: Option<Json.Object>, role: Option<string>,
                             selectedImage: string, profile: string, k: string)
    requires FormData.HasKey(values, k) || (validationData.Some? && FormData.HasKey(validationData.value, k))
    ensures var v := if validationData.Some? && FormData.HasKey(validationData.value, k)
                     then Json.Get(validationData.value, k).value else Json.Get(values, k).value;
            (k, FormData.Text(v)) in Request(values, validationData, role, selectedImage, profile)
  {
    var merged := FormData.Spread(values, validationData.GetOr([]));
    FormData.SpreadGet(values, validationData.GetOr([]), k);
    TextEntryOfMember(merged, k);
  }

  /** The photo part is sent exactly when the picked image is not the default avatar. */
  lemma PhotoOnlyWhenChosen(values: Json.Object, validationData: Option<Json.Object>, role: Option<string>,
                            selectedImage: string, profile: string)
    ensures var r := Request(values, validationData, role, selectedImage, profile);
            var n := |FormData.TextEntries(FormData.Spread(values, validationData.GetOr([])))|;
            && |r| >= n + 2 && r[n] == ("role", FormData.Text(RoleField(role))) && r[n + 1] == ("token", FormData.Text(""))
            && (|r| == n + 3 <==> selectedImage != profile)
            && (selectedImage != profile ==> r[n + 2].1.Photo? && r[n + 2].1.uri == selectedImage)
  {
  }

  /** The progress bar: the last of two steps for an owner, of three when the route carries a role. */
  function Progress(role: Option<string>): (d: Steps.Drawing)
    ensures var total := if role.Some? && Validation.Truthy(role.value) then 3 else 2;
      |d.icons| == total && |d.lines| == total - 1 && d.icons[total - 1] == Steps.Current
      && forall i :: 0 <= i < total - 1 ==> d.icons[i] == Steps.Done && d.lines[i]
  {
    var n := if role.Some? && Validation.Truthy(role.value) then 3 else 2;
    Steps.DrawShape(n, n);
    Steps.Draw(n, n)
  }

  class Screen {
    var values: Json.Object
    var isLoading: bool
    var selectedImage: string
    /** The default avatar's URI. */
    const profile: string
    const role: Option<string>
    const validationData: Option<Json.Object>

    constructor (profile: string, role: Option<string>, validationData: Option<Json.Object>)
      ensures values == InitialValues && !isLoading && selectedImage == profile
      ensures this.profile == profile && this.role == role && this.validationData == validationData
    {
      values := InitialValues;
      isLoading := false;
      selectedImage := profile;
      this.profile := profile;
      this.role := role;
      this.validationData := validationData;
    }

    method HandleChange(field: string, text: string)
      modifies this`values
      ensures values == Formik.SetFieldValue(old(values), field, text)
    {
      values := Formik.SetFieldValue(values, field, text);
    }

    /** The image picker: a picked image (not cancelled) replaces the selection. */
    method HandleImageSelection(picked: Option<string>)
      modifies this`selectedImage
      ensures selectedImage == if picked.Some? then picked.value else old(selectedImage)
    {
      if picked.Some? {
        selectedImage := picked.value;
      }
    }

    /**
     * Formik's submit: with a valid form, `registerOwner` posts the request
     * to the role's endpoint; the spinner ends off and an `OK` reply leads
     * to the login screen.
     */
    method HandleSubmit(isEmail: string -> bool, reply: AxiosInstance.Settled<Json.Object>)
      returns (request: Option<(string, seq<FormData.Entry>)>, toLogin: bool)
      modifies this`isLoading
      ensures request.Some? <==> Valid(values, isEmail)
      ensures request.Some? ==> request.value == (Endpoint(role), Request(values, validationData, role, selectedImage, profile))
      ensures toLogin <==> request.Some? && Formik.StatusOk(reply)
      ensures if request.Some? then !isLoading else isLoading == old(isLoading)
    {
      request := None;
      toLogin := false;
      if Valid(values, isEmail) {
        isLoading := true;
        var input := FormData.Spread(values, validationData.GetOr([]));
        var fd := FormData.AppendFields([], input);
        assert fd == FormData.TextEntries(input);
        fd := fd + [("role", FormData.Text(RoleField(role))), ("token", FormData.Text(""))];
        if selectedImage != profile {
          fd := fd + [("userPhoto", FormData.PhotoPart(selectedImage))];
        } else {
          fd := fd + [];
        }
        var url := if role.Some? && Validation.Truthy(role.value) then "/register_with_code.php" else "/register_owner.php";
        request := Some((url, fd));
        isLoading := false;
        toLogin := Formik.StatusOk(reply);
      }
    }
  }
}
