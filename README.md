# Residential access app: a Dafny model of its screens and session

This project models the logic of a React Native app for residents of a
gated compound. Owners, tenants and family members sign in. They create
invitations: timed renter passes, one-time QR passes, gate permissions and
family codes. They see the invitations they have issued and can switch a
gate permission on or off. They can also reset a forgotten password
through a one-time code, register, edit their profile photo and contact
the management.

The model keeps the app's own structure:

- **Session and routing.** `AuthContext` is a class over the secure store
  with `Login`, `Logout` and the startup restore. `Navigation` chooses the
  stack from `splashLoading` and `user`, shows owner-only invite options,
  picks the drawer avatar and generates a family code.
- **The HTTP client.** `AxiosInstance` models the response interceptor:
  which errors reject, and which resolve to nothing.
- **One module per screen.** Each screen is a `class` whose fields are its
  React state. Each event handler is a method. Every server call is one
  atomic step, and the server's reply is a parameter. Navigation and
  sharing come back as returned values.
- **Shared pieces.** `Formik` covers field updates and the submit
  handlers' own error lists. `FormData` covers the `Object.keys(...)
  .forEach(append)` loop, object spread and `split('/').pop()`.
  `Validation` holds the yup rules, including the phone pattern
  `^01[0125][0-9]{8}$`. `Dates` produces the fr-CA date text. `Json`
  holds the stored user object with `JSON.stringify`/`JSON.parse`, and
  `Steps` draws the progress indicator.

A JavaScript value that may be `undefined` is an `Option`. Where the source
turns it into text (FormData or `+`), the model writes `"undefined"`.

## Model

| member | source | states |
|---|---|---|
| AxiosInstance.OnFulfilled | src/axiosInstance.js:10-12 | a successful response passes through unchanged |
| AxiosInstance.OnRejected | src/axiosInstance.js:13-18 | the call rejects exactly when there is no response or the status is 401; any other error resolves with nothing |
| AxiosInstance.Delivered | src/axiosInstance.js:9-19 | a `.then` handler can read a body exactly when the call resolved with a response, and that body is the response's data |
| AxiosInstance.Non401ErrorResolvesEmpty | src/axiosInstance.js:16-18 | a non-401 HTTP error reaches the screen as a resolved call with no body |
| AxiosInstance.OnlyFulfilledDelivers | src/axiosInstance.js:9-19 | no error ever delivers a body; a fulfilled call always does |
| AuthContext.AuthProvider.constructor | src/context/AuthContext.jsx:10-12 | the provider starts with no user and both loading flags off |
| AuthContext.AuthProvider.Login | src/context/AuthContext.jsx:14-18 | login raises `isLoading` and posts exactly `{username, password}` |
| AuthContext.AuthProvider.LoginSettled | src/context/AuthContext.jsx:19-31 | on success the user becomes the reply's data and the store holds its JSON under `user`; on failure user and store are unchanged and the corrected catch's toast is shown; loading ends either way |
| AuthContext.LoginCatchAsWritten | src/context/AuthContext.jsx:24-31 | with an error response the catch shows the server's `error` text and clears the spinner |
| AuthContext.NetworkFailureLeavesSpinnerOn | src/context/AuthContext.jsx:24-31 | with no response, reading `e.response.data` throws inside the catch: no toast, and `isLoading` stays on |
| AuthContext.LoginCatch | src/context/AuthContext.jsx:24-31 | the corrected catch always shows a toast and always clears loading, and agrees with the code whenever a response exists |
| AuthContext.AuthProvider.Logout | src/context/AuthContext.jsx:34-40 | logout raises loading and sends `Bearer` + the session's access token |
| AuthContext.AuthProvider.LogoutSettled | src/context/AuthContext.jsx:41-48 | whatever the server says, the stored user is deleted and the session ends |
| AuthContext.AuthProvider.IsLoggedIn | src/context/AuthContext.jsx:52-53 | the startup check puts the app in the restoring phase |
| AuthContext.AuthProvider.RestoreSettled | src/context/AuthContext.jsx:54-63 | the restored user is the parsed stored text when it is present, non-empty and parses; otherwise the user is unchanged; the splash ends |
| AuthContext.RestartAfterLogin | src/context/AuthContext.jsx:14-64 | after a successful login, a restart restores exactly the logged-in user |
| AuthContext.RestartAfterLogout | src/context/AuthContext.jsx:34-64 | after a logout, a restart finds no stored user |
| AuthContext.AuthProvider.PhaseOf | src/context/AuthContext.jsx:10-12 | the session phase the navigator reads: restoring while `splashLoading`, then signed in exactly when a user exists (a definition; see `Navigation.SplashOnlyWhileRestoring`) |
| SecureStore.Store.GetItem | src/context/AuthContext.jsx:54 | a read finds a value exactly when the key is stored, and returns that value |
| SecureStore.Store.SetItem | src/context/AuthContext.jsx:22 | a write stores the value under the key and changes nothing else |
| SecureStore.Store.DeleteItem | src/context/AuthContext.jsx:46 | a delete removes only that key |
| Json.ParseStringify | src/context/AuthContext.jsx:22-57 | parsing the text `JSON.stringify` stored gives back the same user object |
| Json.StringifyNonEmpty | src/context/AuthContext.jsx:56 | a stored user text is never empty, so the restore's `if (user)` takes it |
| Json.Get | src/components/Navigation.jsx:128 | a property is defined exactly when some member has that key, and its value belongs to such a member |
| Json.Text | src/screens/ProfileScreen.jsx:47-48 | the text `append` and `+` give a property: its value, or `undefined` when missing (a definition) |
| Json.Stringify | src/context/AuthContext.jsx:22 | `JSON.stringify` of a flat string-valued object (a definition; its partner is `Json.ParseStringify`) |
| Json.Parse | src/context/AuthContext.jsx:57 | `JSON.parse` of such text, failing on anything else (a definition; its partner is `Json.ParseStringify`) |
| Steps.Draw | src/components/Steps/index.js:16-32 | there are `totalSteps` icons and one line fewer; each line is done exactly when the icon before it is done |
| Steps.DrawShape | src/components/Steps/index.js:16-32 | for a step in range: the icons before it are done, it is current, and the ones after it are next |
| Steps.ExactlyOneCurrent | src/components/Steps/index.js:20-31 | the current icon is exactly the one at the step |
| Steps.AllDonePastEnd | src/components/Steps/index.js:31 | past the last step every icon is done |
| Navigation.SplashOnlyWhileRestoring | src/components/Navigation.jsx:458-463 | the splash screen is in the stack exactly while restoring, and then it is the only screen |
| Navigation.GraphsDisjoint | src/components/Navigation.jsx:464-532 | no screen belongs to both the signed-in and the signed-out stacks |
| Navigation.SignedInGraphNeedsSession | src/components/Navigation.jsx:464-494 | a signed-in screen is reachable exactly when not restoring and a user exists |
| Navigation.StackScreens | src/components/Navigation.jsx:458-532 | the root stack: splash while restoring, else the signed-in or the signed-out screens (a definition; see the three lemmas above) |
| Navigation.AvatarUri | src/components/Navigation.jsx:128 | an empty `userPhoto` shows the default picture; a missing one gives the image no uri; any other photo is shown as is |
| Navigation.IsOwner | src/components/Navigation.jsx:205 | the owner test is `role === "owner"` (a definition) |
| Navigation.InviteOptions | src/components/Navigation.jsx:205-260 | the invite sheet lists tenant and family for owners, then one-time pass and gate permission (a definition; see `Navigation.OwnerOnlyInvites`) |
| Navigation.FamilyCodeRequest | src/components/Navigation.jsx:62-82 | the family-code form is the session then `invitaion_type=family` (a definition; `Navigation.CustomDrawer.GenerateFamilyCode` posts it) |
| Navigation.OwnerOnlyInvites | src/components/Navigation.jsx:205-260 | tenant and family invites are offered exactly to owners; one-time passes and gate permissions to everyone |
| Navigation.CustomDrawer.constructor | src/components/Navigation.jsx:60 | the drawer starts with loading off |
| Navigation.CustomDrawer.GenerateFamilyCode | src/components/Navigation.jsx:62-82 | posts `userId`, `role`, `invitaion_type=family`; shares the reply's code exactly when the reply's status is OK; loading ends |
| Language.Toggled | src/screens/Auth/LoginScreen.jsx:169 | the switch goes to English exactly from Arabic, and always lands on `ar` or `en` |
| Language.ToggleTwice | src/screens/Auth/LoginScreen.jsx:169 | pressing twice restores the language exactly when it was `ar` or `en` |
| Language.ToggleFlipsDirection | src/screens/ProfileScreen.jsx:246-249 | after a switch the layout is right-to-left exactly when it was not before |
| Validation.PhonePatternIsMobileNumber | src/screens/Auth/LoginScreen.jsx:28 | the pattern `^01[0125][0-9]{8}$` accepts exactly eleven digits starting `010`, `011`, `012` or `015` |
| Dates.FrCa | src/screens/GatePermissionScreen.jsx:90 | fr-CA text is ten characters with dashes at positions 4 and 7 |
| Dates.ParseFrCaRoundTrip | src/screens/GatePermissionScreen.jsx:90 | the picked date can be read back from its fr-CA text |
| Dates.ParseFrCa | src/screens/GatePermissionScreen.jsx:90 | reads a date back from fr-CA text (a definition; its partner is `Dates.ParseFrCaRoundTrip`) |
| FormData.AppendFields | src/screens/GatePermissionScreen.jsx:116-118 | the `forEach` loop appends every form field, in order, as text |
| FormData.TextEntries | src/screens/GatePermissionScreen.jsx:116-118 | the entries the `forEach` appends: each field as text, in order (a definition; `FormData.AppendFields` is proved against it) |
| FormData.SessionEntries | src/screens/ProfileScreen.jsx:47-48 | the session part of a form: `userId` then `role`, as text (a definition) |
| FormData.UserField | src/screens/ProfileScreen.jsx:47-48 | appending a session property sends its value, or `"undefined"` when it is missing |
| FormData.SpreadGet | src/screens/Auth/RegisterScreen.jsx:60-63 | after `{...a, ...b}`, a key takes its value from `b` when `b` has it, otherwise from `a` |
| FormData.Spread | src/screens/Auth/RegisterScreen.jsx:60-63 | `{...a, ...b}`: keys of `a` in place with `b` winning, then the keys only `b` has (a definition; see `FormData.SpreadGet`) |
| FormData.LastPiece | src/screens/ProfileScreen.jsx:50-51 | `split(sep).pop()` (a definition; see `FormData.LastPieceIsTextAfterLastSeparator`) |
| FormData.TextAfterLastSeparatorUnique | src/screens/ProfileScreen.jsx:50-51 | at most one text is the text after the last separator, so that property pins the file name and type |
| FormData.LastPieceIsTextAfterLastSeparator | src/screens/ProfileScreen.jsx:50 | `split('/').pop()` is the text after the last `/`, or the whole text when there is none |
| FormData.NoSeparatorSinglePiece | src/screens/ProfileScreen.jsx:51 | a name without `.` splits into one piece, so its "type" is the whole name |
| FormData.PhotoPart | src/screens/ProfileScreen.jsx:50-57 | the photo part keeps the URI (a definition; see `FormData.PhotoPartMeans`) |
| FormData.PhotoPartMeans | src/screens/ProfileScreen.jsx:50-57 | the photo part's name is exactly the text after the URI's last `/`; its type is `image/` followed by exactly the text after the name's last `.`, with no `/` in it |
| Formik.SetFieldValueGet | src/screens/GatePermissionScreen.jsx:93 | setting a field changes that field and no other |
| Formik.SetFieldValue | src/screens/GatePermissionScreen.jsx:93 | `setFieldValue`: the form spread with the one field (a definition; see `Formik.SetFieldValueGet` and `Formik.SetFieldValueNames`) |
| Formik.SessionForm | src/screens/ContactScreen.jsx:52-56 | the form fields as text, then the session (a definition; see `Formik.SessionFormKeys`) |
| Formik.SetFieldValueNames | src/screens/GatePermissionScreen.jsx:57 | editing a form field keeps the form's field list and its order |
| Formik.NamesTextEntries | src/screens/ContactScreen.jsx:52-54 | the appended keys are the form's field names, in order |
| Formik.SessionFormKeys | src/screens/ContactScreen.jsx:52-56 | a form followed by the session sends the field names, then `userId` and `role` |
| Formik.FieldErrorsMeans | src/screens/GatePermissionScreen.jsx:66-77 | an error is set for a checked field exactly when that field is empty |
| Formik.FieldErrorsEmpty | src/screens/GatePermissionScreen.jsx:66-78 | no error is set exactly when every checked field is filled in |
| Formik.FieldErrors | src/screens/GatePermissionScreen.jsx:66-77 | the hand-written empty-field checks (a definition; see `Formik.FieldErrorsMeans`) |
| Formik.StatusOk | src/screens/GatePermissionScreen.jsx:125 | `response.data.status === "OK"` on a delivered reply (a definition) |
| InvitationsScreen.UpdateReplacesExactlyOneSlot | src/screens/InvitationsScreen.jsx:501-510 | an OK list replaces exactly the list its type names, and leaves the other three alone |
| InvitationsScreen.SlotForInjective | src/screens/InvitationsScreen.jsx:502-509 | two known types never fill the same list |
| InvitationsScreen.NextStatusInvolution | src/screens/InvitationsScreen.jsx:523 | toggling a permission twice restores it exactly when it was `active` or `expired` |
| InvitationsScreen.TabsMatchInitialFetches | src/screens/InvitationsScreen.jsx:416-429 | every list fetched on mount has a tab, and the owner's tabs are exactly the owner's fetches |
| InvitationsScreen.PressCard | src/screens/InvitationsScreen.jsx:63-220 | tenant, family and one-time cards react only when `approved` (sharing the code or showing the QR); the gate card always opens the sheet |
| InvitationsScreen.StatusRequestToggles | src/screens/InvitationsScreen.jsx:523-528 | the new status is `active` or `expired`, and differs from a current `active`/`expired` |
| InvitationsScreen.UpdateSlots | src/screens/InvitationsScreen.jsx:501-510 | an OK list body replaces the list of its type (a definition; see `InvitationsScreen.UpdateReplacesExactlyOneSlot`) |
| InvitationsScreen.Fetched | src/screens/InvitationsScreen.jsx:491-519 | the lists after one fetch: changed only by a delivered reply (a definition; see `InvitationsScreen.FetchedSlot`) |
| InvitationsScreen.FetchedSlot | src/screens/InvitationsScreen.jsx:501-510 | after a fetch a list holds the reply's data exactly when the reply is OK and of that list's type; otherwise it is unchanged |
| InvitationsScreen.NextStatus | src/screens/InvitationsScreen.jsx:523 | the toggled permission status (a definition; see `InvitationsScreen.NextStatusInvolution`) |
| InvitationsScreen.Tabs | src/screens/InvitationsScreen.jsx:416-429 | the tabs shown for the role (a definition; see `InvitationsScreen.TabsMatchInitialFetches`) |
| InvitationsScreen.InitialFetches | src/screens/InvitationsScreen.jsx:543-550 | the types fetched on mount, in order: renter and family for owners, then one-time pass and permission (a definition) |
| InvitationsScreen.AfterMount | src/screens/InvitationsScreen.jsx:543-550 | the lists after the mount's fetches, in their order (a definition; see `InvitationsScreen.AfterMountSlot`) |
| InvitationsScreen.AfterMountSlot | src/screens/InvitationsScreen.jsx:543-550 | after mounting, each list holds its own reply's data exactly when its type is fetched for the role and that reply is OK; otherwise it is unchanged |
| InvitationsScreen.ListRequest | src/screens/InvitationsScreen.jsx:494-496 | the list request: `userId`, `role`, then `type` (a definition) |
| InvitationsScreen.StatusRequest | src/screens/InvitationsScreen.jsx:523-528 | the status request: `new_status`, `role`, `userId`, `permissionId` (a definition; see `InvitationsScreen.StatusRequestToggles`) |
| InvitationsScreen.Screen.constructor | src/screens/InvitationsScreen.jsx:37-44 | all four lists start empty, no QR code, no gate selected, not loading |
| InvitationsScreen.Screen.GetInvitationsByType | src/screens/InvitationsScreen.jsx:491-519 | posts the session and type; the lists become `Fetched` of the reply, so an OK reply updates exactly its list; loading and refreshing end |
| InvitationsScreen.Screen.HandlePress | src/screens/InvitationsScreen.jsx:466-474 | shares a code, sets the QR code, or selects the gate permission, as the pressed card decides |
| InvitationsScreen.Screen.ChangeInvitationStatus | src/screens/InvitationsScreen.jsx:521-541 | posts the flipped status of the selected permission; the permission list is fetched again exactly when the reply's `data.status` is OK, and the lists change only through that fetch |
| InvitationsScreen.Screen.Mount | src/screens/InvitationsScreen.jsx:543-550 | issues the list requests of `InitialFetches`, in order (renter and family only for owners); the lists become `AfterMount` of the four replies; loading and refreshing end |
| GatePermissionScreen.SubmitsIffNoErrors | src/screens/GatePermissionScreen.jsx:65-81 | the permission is sent exactly when the handler sets no error |
| GatePermissionScreen.DateOrderNotChecked | src/screens/GatePermissionScreen.jsx:66-78 | any two picked dates are accepted, even an end before the start |
| GatePermissionScreen.RequestKeys | src/screens/GatePermissionScreen.jsx:113-120 | the request carries the four form fields, then `userId` and `role` |
| GatePermissionScreen.Submits | src/screens/GatePermissionScreen.jsx:66-78 | the handler submits when all four fields are filled (a definition; see `GatePermissionScreen.SubmitsIffNoErrors`) |
| GatePermissionScreen.Request | src/screens/GatePermissionScreen.jsx:113-120 | the form fields as text, then the session (a definition; see `GatePermissionScreen.RequestKeys`) |
| GatePermissionScreen.Screen.constructor | src/screens/GatePermissionScreen.jsx:44-52 | the form starts with four empty fields, no errors, not loading |
| GatePermissionScreen.Screen.HandleChange | src/screens/GatePermissionScreen.jsx:162-236 | typing sets the field |
| GatePermissionScreen.Screen.ConfirmFromDate | src/screens/GatePermissionScreen.jsx:89-95 | the start date's fr-CA text goes into `date_from` |
| GatePermissionScreen.Screen.ConfirmToDate | src/screens/GatePermissionScreen.jsx:101-106 | the end date's fr-CA text goes into `date_to` |
| GatePermissionScreen.Screen.HandleSubmit | src/screens/GatePermissionScreen.jsx:65-133 | errors are the empty fields; the request is sent exactly when all are filled; it goes Home exactly on OK |
| TimedPassScreen.SubmitsIffNoErrors | src/screens/TimedPassScreen.jsx:60-70 | the pass is requested exactly when the handler sets no error |
| TimedPassScreen.RequestKeys | src/screens/TimedPassScreen.jsx:100-108 | the request carries `rent_from`, `rent_to`, the session, and `invitaion_type` |
| TimedPassScreen.Submits | src/screens/TimedPassScreen.jsx:60-70 | the handler submits when both dates are filled (a definition; see `TimedPassScreen.SubmitsIffNoErrors`) |
| TimedPassScreen.Request | src/screens/TimedPassScreen.jsx:100-108 | the form, the session, then `invitaion_type=renter` (a definition; see `TimedPassScreen.RequestKeys`) |
| TimedPassScreen.SharedCode | src/screens/TimedPassScreen.jsx:129 | when the share view shows, there is a non-empty code to share |
| TimedPassScreen.Screen.constructor | src/screens/TimedPassScreen.jsx:35-47 | empty dates, no code, not loading |
| TimedPassScreen.Screen.HandleChange | src/screens/TimedPassScreen.jsx:151-179 | typing sets the field |
| TimedPassScreen.Screen.ChangeFromDate | src/screens/TimedPassScreen.jsx:77-82 | the start date's fr-CA text goes into `rent_from` |
| TimedPassScreen.Screen.ChangeToDate | src/screens/TimedPassScreen.jsx:88-93 | the end date's fr-CA text goes into `rent_to` |
| TimedPassScreen.Screen.HandleSubmit | src/screens/TimedPassScreen.jsx:60-121 | the request is sent exactly when both dates are filled; an OK reply becomes the code |
| TimedPassScreen.Screen.ShareInvitation | src/screens/TimedPassScreen.jsx:38-41 | shares the code the share view displays |
| OneTimePassScreen.RequestKeys | src/screens/OneTimePassScreen.jsx:52-59 | the request carries `guest_name`, `guest_ride`, `userId`, `role` |
| OneTimePassScreen.Valid | src/screens/OneTimePassScreen.jsx:27-34 | the schema: guest name and ride required (a definition) |
| OneTimePassScreen.Request | src/screens/OneTimePassScreen.jsx:52-59 | the form then the session (a definition; see `OneTimePassScreen.RequestKeys`) |
| OneTimePassScreen.QrImageUri | src/screens/OneTimePassScreen.jsx:98 | the image URI is the PNG data-URI prefix followed by exactly the reply's QR text |
| OneTimePassScreen.SharedFile | src/screens/OneTimePassScreen.jsx:46 | the shared file is `file://` followed by exactly the captured URI |
| OneTimePassScreen.Screen.constructor | src/screens/OneTimePassScreen.jsx:39-40 | empty form, no code, not loading |
| OneTimePassScreen.Screen.HandleChange | src/screens/OneTimePassScreen.jsx:137-157 | typing sets the field |
| OneTimePassScreen.Screen.HandleSubmit | src/screens/OneTimePassScreen.jsx:52-72 | the request is sent exactly when the form validates; an OK reply becomes the code |
| LoginScreen.ValidMeans | src/screens/Auth/LoginScreen.jsx:25-34 | the form validates exactly for a mobile number and a password of at least six characters |
| LoginScreen.Valid | src/screens/Auth/LoginScreen.jsx:25-34 | the login schema (a definition; see `LoginScreen.ValidMeans`) |
| LoginScreen.SixCharacterPasswordAccepted | src/screens/Auth/LoginScreen.jsx:33 | a six-character password passes, though the message asks for eight |
| LoginScreen.Screen.constructor | src/screens/Auth/LoginScreen.jsx:61 | both fields start empty |
| LoginScreen.Screen.HandleChange | src/screens/Auth/LoginScreen.jsx:82-99 | typing sets the field |
| LoginScreen.Screen.HandleSubmit | src/screens/Auth/LoginScreen.jsx:62 | a valid form calls the context's login with the phone and password; an invalid one changes nothing |
| RegisterScreen.MismatchedConfirmationRejected | src/screens/Auth/RegisterScreen.jsx:41-42 | a given confirmation that differs from the password fails validation |
| RegisterScreen.NoRoleMeansOwner | src/screens/Auth/RegisterScreen.jsx:67-81 | without a role the account registers as `owner` on the owner endpoint |
| RegisterScreen.Valid | src/screens/Auth/RegisterScreen.jsx:24-47 | the registration schema (a definition; see `RegisterScreen.MismatchedConfirmationRejected`) |
| RegisterScreen.Endpoint | src/screens/Auth/RegisterScreen.jsx:81 | the code endpoint when a role is truthy, else the owner endpoint (a definition; see `RegisterScreen.NoRoleMeansOwner`) |
| RegisterScreen.RoleField | src/screens/Auth/RegisterScreen.jsx:67 | `role ?? "owner"` (a definition; see `RegisterScreen.NoRoleMeansOwner`) |
| RegisterScreen.Request | src/screens/Auth/RegisterScreen.jsx:60-79 | the merged fields, role, empty token, and the photo when one was picked (a definition; see `RegisterScreen.RequestCarriesFields` and `RegisterScreen.PhotoOnlyWhenChosen`) |
| RegisterScreen.RequestCarriesFields | src/screens/Auth/RegisterScreen.jsx:60-66 | every field is sent, and the validation data's value wins over the form's |
| RegisterScreen.PhotoOnlyWhenChosen | src/screens/Auth/RegisterScreen.jsx:70-79 | a photo part is sent exactly when the picked image differs from the default |
| RegisterScreen.Progress | src/screens/Auth/RegisterScreen.jsx:125 | three steps with a role, otherwise two; the last is current and all before it done |
| RegisterScreen.Screen.constructor | src/screens/Auth/RegisterScreen.jsx:51-55 | the default picture is selected and the form is empty |
| RegisterScreen.Screen.HandleChange | src/screens/Auth/RegisterScreen.jsx:184-285 | typing sets the field, including the confirmation fields |
| RegisterScreen.Screen.HandleImageSelection | src/screens/Auth/RegisterScreen.jsx:107-118 | a picked image replaces the selection; a cancelled picker changes nothing |
| RegisterScreen.Screen.HandleSubmit | src/screens/Auth/RegisterScreen.jsx:57-94 | sent exactly when valid, to the role's endpoint with the merged fields; goes to Login exactly on OK |
| ResetPasswordScreen.OtpRouteOf | src/screens/Auth/ResetPasswordScreen.jsx:53-57 | the code screen gets the reply's `userId`, `role` and `v_code` |
| ResetPasswordScreen.Valid | src/screens/Auth/ResetPasswordScreen.jsx:27-32 | the phone schema (a definition) |
| ResetPasswordScreen.ProgressIsFirstOfThree | src/screens/Auth/ResetPasswordScreen.jsx:82 | the indicator shows the first of three steps |
| ResetPasswordScreen.Screen.constructor | src/screens/Auth/ResetPasswordScreen.jsx:86 | the phone field starts empty |
| ResetPasswordScreen.Screen.HandleChange | src/screens/Auth/ResetPasswordScreen.jsx:117 | typing sets the field |
| ResetPasswordScreen.Screen.HandleSubmit | src/screens/Auth/ResetPasswordScreen.jsx:40-63 | sent exactly when valid; moves to code entry exactly on OK, carrying the reply's identity and code |
| OtpVerificationScreen.PasteFromClipboard | src/screens/Auth/OtpVerificationScreen.jsx:37-48 | the clipboard fills the code exactly when typing in the first cell matches the clipboard's first character |
| OtpVerificationScreen.PasteNeedsFirstCell | src/screens/Auth/OtpVerificationScreen.jsx:38-40 | for a non-empty clipboard, only the first cell and its first character trigger the paste |
| OtpVerificationScreen.Verify | src/screens/Auth/OtpVerificationScreen.jsx:50-70 | the code verifies exactly when it equals the route's code, and then forwards the route's identity |
| OtpVerificationScreen.MissingCodeNeverVerifies | src/screens/Auth/OtpVerificationScreen.jsx:52 | with no code in the route, no input verifies |
| OtpVerificationScreen.ProgressIsSecondOfThree | src/screens/Auth/OtpVerificationScreen.jsx:89 | the indicator shows the second of three steps |
| OtpVerificationScreen.Screen.constructor | src/screens/Auth/OtpVerificationScreen.jsx:31-33 | the code input starts empty |
| OtpVerificationScreen.Screen.HandleTextChange | src/screens/Auth/OtpVerificationScreen.jsx:102 | the widget's text becomes the code input |
| OtpVerificationScreen.Screen.HandleCellTextChange | src/screens/Auth/OtpVerificationScreen.jsx:37-48 | a matching paste replaces the input; anything else leaves it |
| OtpVerificationScreen.Screen.Proceed | src/screens/Auth/OtpVerificationScreen.jsx:126-130 | shows the success toast and moves on exactly when the code verifies; loading ends |
| ChangePasswordScreen.Request | src/screens/Auth/ChangePasswordScreen.jsx:44-84 | with reset data it sends the reset data's `userId` and `role` and `new_password` to the reset endpoint; otherwise the session's `userId` and `role` and `password` to the change endpoint |
| ChangePasswordScreen.Valid | src/screens/Auth/ChangePasswordScreen.jsx:27-34 | the new-password schema (a definition) |
| ChangePasswordScreen.Progress | src/screens/Auth/ChangePasswordScreen.jsx:100-102 | the indicator is shown, at the last of three steps, exactly in the reset flow |
| ChangePasswordScreen.ResetSendsServerIdentity | src/screens/Auth/ChangePasswordScreen.jsx:47-49 | through the reset flow the new password goes with the identity the reset reply named |
| ChangePasswordScreen.Screen.constructor | src/screens/Auth/ChangePasswordScreen.jsx:41 | empty form, the route's reset data kept |
| ChangePasswordScreen.Screen.HandleChange | src/screens/Auth/ChangePasswordScreen.jsx:132-160 | typing sets the field |
| ChangePasswordScreen.Screen.HandleSubmit | src/screens/Auth/ChangePasswordScreen.jsx:106-107 | sent exactly when valid; on OK goes to Login after a reset and Home otherwise |
| CodeLoginScreen.ValidIsRequired | src/screens/Auth/CodeLoginScreen.jsx:27-31 | a valid code is filled in |
| CodeLoginScreen.Valid | src/screens/Auth/CodeLoginScreen.jsx:27-31 | the code schema (a definition; see `CodeLoginScreen.ValidIsRequired`) |
| CodeLoginScreen.OwnerDataOf | src/screens/Auth/CodeLoginScreen.jsx:52-60 | the owner data carries the reply's fields, the code type as role, and the name as first + space + last |
| CodeLoginScreen.NameSplitsBack | src/screens/Auth/CodeLoginScreen.jsx:53 | a first name without spaces can be read back from the joined name |
| CodeLoginScreen.MissingNamesShowUndefined | src/screens/Auth/CodeLoginScreen.jsx:53 | a reply without names gives the name `undefined undefined` |
| CodeLoginScreen.Screen.constructor | src/screens/Auth/CodeLoginScreen.jsx:90 | the code starts empty |
| CodeLoginScreen.Screen.HandleChange | src/screens/Auth/CodeLoginScreen.jsx:115 | typing sets the code |
| CodeLoginScreen.Screen.HandleSubmit | src/screens/Auth/CodeLoginScreen.jsx:39-67 | sent exactly when valid; moves on exactly on OK, with the owner data of the reply |
| ProfileScreen.PhotoRequest | src/screens/ProfileScreen.jsx:46-57 | the photo update sends the session's `userId` and `role`, then the photo part of the selected image as `userPhoto` |
| ProfileScreen.DeletionRequest | src/screens/ProfileScreen.jsx:97-98 | the deletion sends the session's email and the fixed description |
| ProfileScreen.ShownPhoto | src/screens/ProfileScreen.jsx:207 | a pending change shows the selected image; otherwise the account's photo |
| ProfileScreen.Screen.constructor | src/screens/ProfileScreen.jsx:36-41 | no account data yet, the default picture selected, no pending change |
| ProfileScreen.Screen.GetUserData | src/screens/ProfileScreen.jsx:73-91 | the account data comes from the reply; related people are joined only for owners |
| ProfileScreen.Screen.HandleImageSelection | src/screens/ProfileScreen.jsx:125-143 | a picked, resized image becomes the selection and marks a pending change |
| ProfileScreen.Screen.UpdateProfilePicture | src/screens/ProfileScreen.jsx:44-71 | on a reply the store's `user` becomes that reply's JSON and the account is fetched again with the session's identity, setting the account data and related people as `getUserData` does; otherwise they are unchanged; the context's user is not updated |
| ProfileScreen.Screen.DeleteAccount | src/screens/ProfileScreen.jsx:93-110 | sends the deletion request; loading ends |
| ProfileScreen.RestartAfterPhotoChange | src/screens/ProfileScreen.jsx:63 | the session shows the old user until a restart, which restores the photo reply as the user |
| HomeScreen.JsArray.Pop | src/screens/HomeScreen.jsx:86 | `pop` returns the last element and shortens the array in place |
| HomeScreen.Last | src/screens/HomeScreen.jsx:86 | `pop` of an empty array gives `undefined`; otherwise an element of the array |
| HomeScreen.PopSplits | src/screens/HomeScreen.jsx:86 | what remains, followed by what `pop` returned, is the original array |
| HomeScreen.Loaded | src/screens/HomeScreen.jsx:82-86 | the screen loads data only from a delivered reply that has `data` |
| HomeScreen.EmptyNewsCrashesAsWritten | src/screens/HomeScreen.jsx:171 | an empty news list makes the headline render read a property of `undefined` |
| HomeScreen.RenderHeadlineAsWritten | src/screens/HomeScreen.jsx:171 | the headline render as written, on the popped value (a definition; see `HomeScreen.EmptyNewsCrashesAsWritten`) |
| HomeScreen.HeadlineAfterLoad | src/screens/HomeScreen.jsx:86 | the corrected headline: the popped item, or an empty item (a definition; see `HomeScreen.HeadlineNeverCrashes`) |
| HomeScreen.RenderHeadline | src/screens/HomeScreen.jsx:171-181 | the corrected headline never crashes, and shows the item exactly when it has a title |
| HomeScreen.HeadlineNeverCrashes | src/screens/HomeScreen.jsx:86 | with the corrected load, every news list renders; an empty one hides the headline |
| HomeScreen.CorrectionAgreesWhenNewsExists | src/screens/HomeScreen.jsx:86 | with news present, the corrected load renders as the code does |
| HomeScreen.Screen.constructor | src/screens/HomeScreen.jsx:38-42 | empty lists and no headline |
| HomeScreen.Screen.GetHomeData | src/screens/HomeScreen.jsx:72-94 | loaded data sets ads, news and media; the stored news array is the reply's, shortened by the `pop` that chose the headline; the headline is the last item when there is one, and an empty item (the corrected value) otherwise |
| HomeScreen.Screen.OpenNewsItem | src/screens/HomeScreen.jsx:52-55 | the pressed item becomes the open item |
| ContactScreen.NamesRunTogether | src/screens/ContactScreen.jsx:100 | first and last name are joined with no space, so different names can collide |
| ContactScreen.InitialValues | src/screens/ContactScreen.jsx:99-104 | the form starts with the joined name, the session's phone and email, and an empty message |
| ContactScreen.InitialFormNeedsMessage | src/screens/ContactScreen.jsx:37-39 | the prefilled form never validates until a message is typed |
| ContactScreen.Valid | src/screens/ContactScreen.jsx:27-40 | the contact schema: all four fields required (a definition; see `ContactScreen.InitialFormNeedsMessage`) |
| ContactScreen.Screen.constructor | src/screens/ContactScreen.jsx:99-104 | the form starts at its initial values |
| ContactScreen.Screen.HandleChange | src/screens/ContactScreen.jsx:126-186 | typing sets the field |
| ContactScreen.Screen.HandleSubmit | src/screens/ContactScreen.jsx:49-69 | sent exactly when valid, with the session appended; an OK reply resets the form |

## Left out

- Rendering, styling, translations, carousels, bottom sheets and spinners are not modelled. The `isLoading` flags are.
- RegisterValidation, ComingSoon, News, Notifications, MyAccess and Splash screens are outside this model.
- The screens' own async interleaving is not modelled. Each server call is one atomic step, and its reply is a parameter.
- The image picker, the image resize, the view capture and the clipboard are parameters. The OTP widget's `setValue` is taken to set the code input.
- Stored JSON holds flat objects of string values only. Numbers, nesting and the escaping of control characters are left out.
- Json.Get: an object is a list of members that may repeat a key. `Get` takes the first match, while `JSON.parse` keeps the last duplicate. No result here relies on duplicate keys, and `Stringify` output parses back member for member.
- AuthContext.LoginCatchAsWritten: a failure response always has a body with an `error` text. A body without `error` (the toast shows `undefined`) and a `null` body (the catch throws) are not represented.
- AuthContext.AuthProvider.LoginSettled: a failure with no response shows the corrected catch's toast and clears `isLoading`. The code throws there and leaves `isLoading` on; `AuthContext.LoginCatchAsWritten` and `AuthContext.NetworkFailureLeavesSpinnerOn` model that.
- Dates.FrCa: years are restricted to 1000..9999, because fr-CA writes the year unpadded.
- RegisterScreen.Valid: yup's `.email()` rule is a predicate parameter, not a full address grammar.
- CodeLoginScreen.Valid: yup's `number()` is modelled as a run of decimal digits. Signs, decimals and exponents are not accepted.
- String lengths are counted in characters, not in UTF-16 code units.
- Formik's re-validation while typing, and `isValid` before the first edit, are not modelled. The submit buttons' disabled state is out.
- SecureStore.Store.GetItem: a failing store read is not modelled. A failed restore simply keeps the user.
- AuthContext.AuthProvider.Logout requires a session. The source reads `user.access_token` and would throw without one.
- ContactScreen.Screen.HandleSubmit: the `this.formik.resetForm()` binding is taken to reach the form's reset.
- ContactScreen.InitialValues: a missing phone or email is an absent field, not a field holding `undefined`.
- HomeScreen.Screen.GetHomeData: `itemDescription.trim()` on an item without a description is not modelled.
- HomeScreen.Screen.GetHomeData: an empty news array leaves an empty headline item, the corrected value from the Findings table. The code stores `undefined` there; `HomeScreen.RenderHeadlineAsWritten` models that value.
- InvitationsScreen.Screen: `isRefreshing` is only ever reset to false. No code path sets it true, and the model keeps that.
- LoginScreen.Valid follows the code, not the message: the rule is at least 6 characters, while the message says 8.
- The login follows the code, not the written description. It posts `{username, password}` to `/student/auth/login`. It sends no device id and does not check a `status` field.

## Findings

| source | as written | input that shows it | evidently intended | confidence | as-written member | corrected member |
|---|---|---|---|---|---|---|
| src/context/AuthContext.jsx:24-31 | the login catch reads `e.response.data.error` before clearing the spinner | a network failure, where `e.response` is undefined: the catch throws, so no toast appears and `isLoading` stays true | show a failure toast and clear loading for every failure | not executed | AuthContext.LoginCatchAsWritten (see AuthContext.NetworkFailureLeavesSpinnerOn) | AuthContext.LoginCatch |
| src/screens/HomeScreen.jsx:86 | the headline is `news.pop()`, and the render reads `newsHome.itemTitle` | a home reply whose `news` is `[]`: `pop()` gives undefined and the render throws | an empty news list hides the headline | not executed | HomeScreen.RenderHeadlineAsWritten (see HomeScreen.EmptyNewsCrashesAsWritten) | HomeScreen.RenderHeadline (see HomeScreen.HeadlineNeverCrashes) |
