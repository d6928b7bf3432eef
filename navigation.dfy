/**
 * src/components/Navigation.jsx: which screen graph the root stack offers,
 * and the drawer's avatar, invite options and family-code generation.
 */
module Navigation {
  import opened Wrappers
  import Json
  import FormData
  import AxiosInstance

  datatype Screen =
    | Splash
    | Drawer | OneTimePass | TimedPass | GatePermission | MyAccess
    | Login | LoginByCode | RegisterValidation | Register | ResetPassword | OtpVerification | ChangePassword

  const SignedInScreens: seq<Screen> := [Drawer, OneTimePass, TimedPass, GatePermission, MyAccess]
  const SignedOutScreens: seq<Screen> := [Login, LoginByCode, RegisterValidation, Register, ResetPassword, OtpVerification, ChangePassword]

  /** The root stack's screens for the session state. */
  function StackScreens(splashLoading: bool, user: Option<Json.Object>): seq<Screen> {
    if splashLoading then [Splash]
    else if user.Some? then SignedInScreens
    else SignedOutScreens
  }

  /** Splash is offered exactly while the session is being restored, and then alone. */
  lemma SplashOnlyWhileRestoring(splashLoading: bool, user: Option<Json.Object>)
    ensures Splash in StackScreens(splashLoading, user) <==> splashLoading
    ensures splashLoading ==> StackScreens(splashLoading, user) == [Splash]
  {
  }

  /** The signed-in and signed-out graphs share no screen (ChangePassword is a drawer entry when signed in). */
  lemma GraphsDisjoint(s: Screen)
    ensures !(s in SignedInScreens && s in SignedOutScreens)
  {
  }

  /** A screen of the signed-in graph is reachable exactly when a session exists and restoring is over. */
  lemma SignedInGraphNeedsSession(splashLoading: bool, user: Option<Json.Object>, s: Screen)
    requires s in SignedInScreens
    ensures s in StackScreens(splashLoading, user) <==> !splashLoading && user.Some?
  {
    GraphsDisjoint(s);
  }

  // ---------------------------------------------------------------
  // The drawer

  /**
   * `user.userPhoto !== "" ? user.userPhoto : profile`: a missing photo is
   * `undefined`, which is not `""`, so the image gets no uri (`None`).
   */
  function AvatarUri(user: Json.Object, defaultUri: string): (uri: Option<string>)
    ensures Json.Get(user, "userPhoto") == Some("") ==> uri == Some(defaultUri)
    ensures Json.Get(user, "userPhoto").None? ==> uri.None?
    ensures Json.Get(user, "userPhoto").Some? && Json.Get(user, "userPhoto") != Some("") ==> uri == Json.Get(user, "userPhoto")
  {
    match Json.Get(user, "userPhoto")
    case Some(p) => if p != "" then Some(p) else Some(defaultUri)
    case None => None
  }

  datatype InviteOption = Tenant | Family | OneTimePassOption | GatePermissionOption

  predicate IsOwner(user: Json.Object) {
    Json.Get(user, "role") == Some("owner")
  }

  /** The invite sheet's options, in order. */
  function InviteOptions(user: Json.Object): seq<InviteOption> {
    (if IsOwner(user) then [Tenant, Family] else []) + [OneTimePassOption, GatePermissionOption]
  }

  /** Tenant and Family are offered to owners only; the other two to everyone. */
  lemma OwnerOnlyInvites(user: Json.Object)
    ensures Tenant in InviteOptions(user) <==> IsOwner(user)
    ensures Family in InviteOptions(user) <==> IsOwner(user)
    ensures OneTimePassOption in InviteOptions(user) && GatePermissionOption in InviteOptions(user)
  {
  }

  /** The family-code reply: `status` and the generated `code`. */
  datatype CodeBody = CodeBody(status: string, code: string)

  /** The family-code request: the session's id and role, then the discriminator. */
  function FamilyCodeRequest(user: Json.Object): seq<FormData.Entry> {
    FormData.SessionEntries(user) + [("invitaion_type", FormData.Text("family"))]
  }

  class CustomDrawer {
    var isLoading: bool

    constructor ()
      ensures !isLoading
    {
      isLoading := false;
    }

    /**
     * `generateFamilyCode()`: posts the request; on status `OK` shares the
     * returned code. The spinner stops on every path.
     */
    method GenerateFamilyCode(user: Json.Object, reply: AxiosInstance.Settled<CodeBody>)
      returns (request: seq<FormData.Entry>, shared: Option<string>)
      modifies this
      ensures request == FamilyCodeRequest(user)
      ensures FormData.Keys(request) == ["userId", "role", "invitaion_type"]
      ensures shared.Some? <==> AxiosInstance.Delivered(reply).Some? && AxiosInstance.Delivered(reply).value.status == "OK"
      ensures shared.Some? ==> shared.value == AxiosInstance.Delivered(reply).value.code
      ensures !isLoading
    {
      isLoading := true;
      request := [];
      request := request + [("userId", FormData.Text(FormData.UserField(user, "userId")))];
      request := request + [("role", FormData.Text(FormData.UserField(user, "role")))];
      request := request + [("invitaion_type", FormData.Text("family"))];
      assert FormData.Keys(request[2..]) == ["invitaion_type"];
      assert FormData.Keys(request[1..]) == ["role", "invitaion_type"];
      shared := None;
      match AxiosInstance.Delivered(reply) {
        case Some(body) =>
          if body.status == "OK" {
            shared := Some(body.code);
          }
        case None =>
      }
      isLoading := false;
    }
  }
}
