/**
 * src/screens/Auth/OtpVerificationScreen.jsx: the second step of a password
 * reset, which compares the typed code with the one the server sent and
 * passes the identity on to the new-password step.
 */
module OtpVerificationScreen {
  import opened Wrappers
  import Steps
  import ResetPasswordScreen

  const InputCount: nat := 6

  /** The identity handed to the new-password step. */
  datatype UserData = UserData(userId: Option<string>, role: Option<string>)

  /** The toast shown by a verification attempt. */
  datatype Toast = VerifiedToast | FailedToast

  /**
   * `handleCellTextChange(text, i)`: typing into the first cell the first
   * character of the clipboard's text fills the input with that text.
   */
  function PasteFromClipboard(text: string, i: int, clipboard: string): (r: Option<string>)
    ensures r.Some? <==> i == 0 && clipboard[..if |clipboard| < 1 then |clipboard| else 1] == text
    ensures r.Some? ==> r.value == clipboard
  {
    var head := clipboard[..if |clipboard| < 1 then |clipboard| else 1];
    if i == 0 && head == text then Some(clipboard) else None
  }

  /** Only the first cell reacts, and only to the clipboard's first character. */
  lemma PasteNeedsFirstCell(text: string, i: int, clipboard: string)
    requires clipboard != []
    ensures PasteFromClipboard(text, i, clipboard).Some? <==> i == 0 && text == [clipboard[0]]
  {
  }

  /** `validateOtp(otpInput)`: the next step's parameters when the codes agree. */
  function Verify(otpInput: string, route: ResetPasswordScreen.OtpRoute): (next: Option<UserData>)
    ensures next.Some? <==> route.otp == Some(otpInput)
    ensures next.Some? ==> next.value == UserData(route.userId, route.role)
  {
    if route.otp == Some(otpInput) then Some(UserData(route.userId, route.role)) else None
  }

  /** Without a code in the route no input verifies, not even `"undefined"`. */
  lemma MissingCodeNeverVerifies(otpInput: string, userId: Option<string>, role: Option<string>)
    ensures Verify(otpInput, ResetPasswordScreen.OtpRoute(userId, role, None)).None?
  {
  }

  /** The second of three steps. */
  lemma ProgressIsSecondOfThree()
    ensures Steps.Draw(2, 3).icons == [Steps.Done, Steps.Current, Steps.Next]
    ensures Steps.Draw(2, 3).lines == [true, false]
  {
    Steps.DrawShape(2, 3);
  }

  class Screen {
    var otpInput: string
    var isLoading: bool
    const route: ResetPasswordScreen.OtpRoute

    constructor (route: ResetPasswordScreen.OtpRoute)
      ensures otpInput == "" && !isLoading && this.route == route
    {
      otpInput := "";
      isLoading := false;
      this.route := route;
    }

    /** The widget's `handleTextChange`. */
    method HandleTextChange(text: string)
      modifies this`otpInput
      ensures otpInput == text
    {
      otpInput := text;
    }

    /** A keystroke in cell `i`, with the clipboard's current text. */
    method HandleCellTextChange(text: string, i: int, clipboard: string)
      modifies this`otpInput
      ensures otpInput == PasteFromClipboard(text, i, clipboard).GetOr(old(otpInput))
    {
      if i == 0 {
        var head := clipboard[..if |clipboard| < 1 then |clipboard| else 1];
        if head == text {
          otpInput := clipboard;
        }
      }
    }

    /** The proceed button: a toast, and on a match the move to the new-password step. */
    method Proceed() returns (toast: Toast, next: Option<UserData>)
      modifies this`isLoading
      ensures next == Verify(otpInput, route)
      ensures toast == if next.Some? then VerifiedToast else FailedToast
      ensures !isLoading
    {
      isLoading := true;
      if route.otp == Some(otpInput) {
        toast := VerifiedToast;
        next := Some(UserData(route.userId, route.role));
      } else {
        toast := FailedToast;
        next := None;
      }
      isLoading := false;
    }
  }
}
