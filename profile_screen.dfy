/**
 * src/screens/ProfileScreen.jsx: the account view, the profile-photo
 * change, the related household members of an owner, the account-deletion
 * request and the language switch.
 */
module ProfileScreen {
  import opened Wrappers
  import Json
  import FormData
  import AxiosInstance
  import SecureStore
  import AuthContext
  import Navigation

  /** The members an owner's account reply lists. */
  datatype Related = Related(family: seq<Json.Object>, renter: seq<Json.Object>)

  /** The account reply: the account record and, for owners, the related members. */
  datatype AccountBody = AccountBody(data: Option<Json.Object>, relatedData: Option<Related>)

  const DeletionDescription: string := "Delete my account"

  /** The account request and the photo-change request start with the session's identity. */
  function PhotoRequest(user: Json.Object, selectedImage: string): (r: seq<FormData.Entry>)
    ensures |r| == 3 && FormData.Keys(r) == ["userId", "role", "userPhoto"]
    ensures r == FormData.SessionEntries(user) + [("userPhoto", FormData.PhotoPart(selectedImage))]
  {
    var session := FormData.SessionEntries(user);
    var part := FormData.PhotoPart(selectedImage);
    var r := session + [("userPhoto", part)];
    assert FormData.Keys(r[2..]) == ["userPhoto"];
    assert FormData.Keys(r[1..]) == ["role", "userPhoto"];
    r
  }

  /** The deletion request names the session's e-mail and a fixed reason. */
  function DeletionRequest(user: Json.Object): (r: seq<FormData.Entry>)
    ensures |r| == 2 && r[0] == ("email", FormData.Text(FormData.UserField(user, "email")))
    ensures r[1] == ("description", FormData.Text(DeletionDescription))
  {
    [("email", FormData.Text(FormData.UserField(user, "email"))), ("description", FormData.Text(DeletionDescription))]
  }

  /** The picture shown: the freshly picked image while a change is pending, else the account's photo. */
  function ShownPhoto(updateProfile: bool, selectedImage: string, userData: Json.Object): (uri: Option<string>)
    ensures updateProfile ==> uri == Some(selectedImage)
    ensures !updateProfile ==> uri == Json.Get(userData, "userPhoto")
  {
    if updateProfile then Some(selectedImage) else Json.Get(userData, "userPhoto")
  }

  class Screen {
    var isLoading: bool
    /** `null` until the account reply arrives. */
    var userData: Option<Json.Object>
    /** `{}` (here `None`) until an owner's reply lists the family members then the renters. */
    var relatedData: Option<seq<Json.Object>>
    var selectedImage: string
    var updateProfile: bool
    /** The default avatar's URI. */
    const profile: string

    constructor (profile: string)
      ensures !isLoading && userData.None? && relatedData.None?
      ensures selectedImage == profile && !updateProfile && this.profile == profile
    {
      isLoading := false;
      userData := None;
      relatedData := None;
      selectedImage := profile;
      updateProfile := false;
      this.profile := profile;
    }

    /**
     * `getUserData()`: the account record is taken from any delivered reply.
     * For an owner the related list is the family then the renters; a reply
     * without `relatedData` throws after the record was taken, and the
     * catch only ends the spinner.
     */
    method GetUserData(user: Json.Object, reply: AxiosInstance.Settled<AccountBody>)
      returns (request: seq<FormData.Entry>)
      modifies this`isLoading, this`userData, this`relatedData
      ensures request == FormData.SessionEntries(user)
      ensures userData == match AxiosInstance.Delivered(reply)
                          case Some(body) => body.data
                          case None => old(userData)
      ensures relatedData ==
        if AxiosInstance.Delivered(reply).Some? && Navigation.IsOwner(user) && AxiosInstance.Delivered(reply).value.relatedData.Some?
        then Some(AxiosInstance.Delivered(reply).value.relatedData.value.family
                  + AxiosInstance.Delivered(reply).value.relatedData.value.renter)
        else old(relatedData)
      ensures !isLoading
    {
      isLoading := true;
      request := FormData.SessionEntries(user);
      match AxiosInstance.Delivered(reply) {
        case Some(body) =>
          userData := body.data;
          if Navigation.IsOwner(user) {
            match body.relatedData {
              case Some(rel) => relatedData := Some(rel.family + rel.renter);
              case None =>
            }
          }
        case None =>
      }
      isLoading := false;
    }

    /** The image picker: a picked image, resized, becomes the pending change. */
    method HandleImageSelection(pickedResizedUri: Option<string>)
      modifies this`selectedImage, this`updateProfile
      ensures pickedResizedUri.Some? ==> selectedImage == pickedResizedUri.value && updateProfile
      ensures pickedResizedUri.None? ==> selectedImage == old(selectedImage) && updateProfile == old(updateProfile)
    {
      if pickedResizedUri.Some? {
        selectedImage := pickedResizedUri.value;
        updateProfile := true;
      }
    }

    /**
     * `updateProfilePicture()`: uploads the picked image. Any delivered
     * reply, whatever its status, is written to the store as the session
     * record; the in-memory session is not touched. The account is then
     * fetched again (its reply is `accountReply`) and the pending change
     * ends.
     */
    method UpdateProfilePicture(auth: AuthContext.AuthProvider, photoReply: AxiosInstance.Settled<Json.Object>,
                                accountReply: AxiosInstance.Settled<AccountBody>)
      returns (request: seq<FormData.Entry>, accountRequest: Option<seq<FormData.Entry>>)
      requires auth.user.Some?
      modifies this`isLoading, this`userData, this`relatedData, this`updateProfile, auth.store
      ensures request == PhotoRequest(old(auth.user.value), old(selectedImage))
      ensures auth.user == old(auth.user)
      ensures auth.store.items == match AxiosInstance.Delivered(photoReply)
                                  case Some(data) => old(auth.store.items)[AuthContext.UserKey := Json.Stringify(data)]
                                  case None => old(auth.store.items)
      ensures accountRequest.Some? <==> AxiosInstance.Delivered(photoReply).Some?
      ensures accountRequest.Some? ==> accountRequest.value == FormData.SessionEntries(old(auth.user.value))
      ensures userData == if accountRequest.Some? && AxiosInstance.Delivered(accountReply).Some?
                          then AxiosInstance.Delivered(accountReply).value.data
                          else old(userData)
      ensures relatedData ==
        if accountRequest.Some? && AxiosInstance.Delivered(accountReply).Some? && Navigation.IsOwner(old(auth.user.value))
           && AxiosInstance.Delivered(accountReply).value.relatedData.Some?
        then Some(AxiosInstance.Delivered(accountReply).value.relatedData.value.family
                  + AxiosInstance.Delivered(accountReply).value.relatedData.value.renter)
        else old(relatedData)
      ensures updateProfile == (old(updateProfile) && accountRequest.None?)
      ensures !isLoading
    {
      isLoading := true;
      var user := auth.user.value;
      request := FormData.SessionEntries(user) + [("userPhoto", FormData.PhotoPart(selectedImage))];
      accountRequest := None;
      match AxiosInstance.Delivered(photoReply) {
        case Some(data) =>
          auth.store.SetItem(AuthContext.UserKey, Json.Stringify(data));
          var again := GetUserData(user, accountReply);
          accountRequest := Some(again);
          updateProfile := false;
        case None =>
      }
      isLoading := false;
    }

    /** The confirmed deletion request; only the spinner follows, whatever the reply. */
    method DeleteAccount(user: Json.Object) returns (request: seq<FormData.Entry>)
      modifies this`isLoading
      ensures request == DeletionRequest(user)
      ensures !isLoading
    {
      isLoading := true;
      request := [("email", FormData.Text(FormData.UserField(user, "email"))),
                  ("description", FormData.Text(DeletionDescription))];
      isLoading := false;
    }
  }

  /**
   * The store holds the photo reply while the running app keeps the old
   * session: only a restart brings the reply in as the session.
   */
  method RestartAfterPhotoChange(auth: AuthContext.AuthProvider, screen: Screen, data: Json.Object,
                                 accountReply: AxiosInstance.Settled<AccountBody>)
    returns (before: Option<Json.Object>, restored: Option<Json.Object>)
    requires auth.user.Some?
    modifies screen, auth.store
    ensures before == old(auth.user)
    ensures restored == Some(data)
  {
    var _, _ := screen.UpdateProfilePicture(auth, AxiosInstance.Resolved(Some(AxiosInstance.Response(200, data))), accountReply);
    before := auth.user;
    var restarted := new AuthContext.AuthProvider(auth.store);
    restarted.IsLoggedIn();
    Json.ParseStringify(data);
    Json.StringifyNonEmpty(data);
    restarted.RestoreSettled();
    restored := restarted.user;
  }
}
