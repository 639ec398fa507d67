/**
 * The password-reset page (`/auth/reset-password`): the recovery-session check on mount,
 * the two client-side checks of the new password, the call to the identity provider, and
 * the styling rule that colours the message line.
 */
module ResetPassword {
  import opened Wrappers
  import opened Text

  const InvalidLinkMsg: string := "無效的重設連結或連結已過期"
  const MismatchMsg: string := "密碼不匹配"
  const TooShortMsg: string := "密碼至少需要 6 個字符"
  const ResetFailedPrefix: string := "密碼重設失敗："
  const ResetDoneMsg: string := "密碼重設成功！正在重定向..."

  /** The minimum length, counted in UTF-16 code units as `password.length` counts. */
  const MinLength: nat := 6

  /** Where the page sends the browser two seconds after a successful reset. */
  const SignInPath: string := "/"

  /**
   * The client-side verdict on a new password: equality with the confirmation is checked
   * first, then the length. `None` means the password goes to the provider.
   */
  function PasswordProblem(password: string, confirm: string): (m: Option<string>)
    ensures m.None? <==> password == confirm && Utf16Length(password) >= MinLength
    ensures password != confirm ==> m == Some(MismatchMsg)
    ensures password == confirm && Utf16Length(password) < MinLength ==> m == Some(TooShortMsg)
  {
    if password != confirm then Some(MismatchMsg)
    else if Utf16Length(password) < MinLength then Some(TooShortMsg)
    else None
  }

  /** The styling rule of the message line: red iff it mentions failure, invalidity or a mismatch. */
  predicate IsErrorText(m: string) {
    Contains(m, "失敗") || Contains(m, "無效") || Contains(m, "不匹配")
  }

  /** The message line under the form, with its colour. */
  datatype Notice = Notice(text: string, isError: bool)

  datatype Screen =
    | InvalidLinkScreen(message: string)
    | ResetForm(password: string, confirmPassword: string, notice: Option<Notice>,
                submitLabel: string, submitDisabled: bool)

  class ResetPasswordPage {
    var password: string
    var confirmPassword: string
    var loading: bool
    var message: string
    var isValidSession: bool

    constructor ()
      ensures password == "" && confirmPassword == "" && !loading && message == "" && !isValidSession
    {
      password, confirmPassword, loading, message, isValidSession := "", "", false, "", false;
    }

    /** `checkSession`, run once on mount: `hasSession` is whether the provider reports a session. */
    method CheckSession(hasSession: bool)
      modifies this`isValidSession, this`message
      ensures hasSession ==> isValidSession && message == old(message)
      ensures !hasSession ==> isValidSession == old(isValidSession) && message == InvalidLinkMsg
    {
      if hasSession {
        isValidSession := true;
      } else {
        message := InvalidLinkMsg;
      }
    }

    method SetPassword(value: string)
      modifies this`password
      ensures password == value
    {
      password := value;
    }

    method SetConfirmPassword(value: string)
      modifies this`confirmPassword
      ensures confirmPassword == value
    {
      confirmPassword := value;
    }

    /**
     * `handleResetPassword`. `updateError` is the error message `updateUser` reports, if any.
     * Returns the password handed to the provider (none when a client check refuses it) and
     * the path of the scheduled redirect (only after a successful update).
     */
    method HandleResetPassword(updateError: Option<string>) returns (sentPassword: Option<string>, redirect: Option<string>)
      modifies this`loading, this`message
      ensures sentPassword.Some? <==> PasswordProblem(password, confirmPassword).None?
      ensures sentPassword.Some? ==> sentPassword.value == password && !loading
      ensures sentPassword.None? ==>
        message == PasswordProblem(password, confirmPassword).value && loading == old(loading)
      ensures sentPassword.Some? && updateError.Some? ==> message == ResetFailedPrefix + updateError.value
      ensures sentPassword.Some? && updateError.None? ==> message == ResetDoneMsg
      ensures redirect.Some? <==> sentPassword.Some? && updateError.None?
      ensures redirect.Some? ==> redirect.value == SignInPath
    {
      var problem := PasswordProblem(password, confirmPassword);
      if problem.Some? {
        message := problem.value;
        return None, None;
      }
      loading := true;
      message := "";
      sentPassword := Some(password);
      if updateError.Some? {
        message := ResetFailedPrefix + updateError.value;
        redirect := None;
      } else {
        message := ResetDoneMsg;
        redirect := Some(SignInPath);
      }
      loading := false;
    }

    /**
     * What the page renders: without a valid session only the message and a way back, and
     * never the form; with one, the form, a message line iff the message is non-empty,
     * coloured by `IsErrorText`, and a submit button disabled while loading.
     */
    function View(): (s: Screen)
      reads this
      ensures s.InvalidLinkScreen? <==> !isValidSession
      ensures s.InvalidLinkScreen? ==> s.message == message
      ensures s.ResetForm? ==> s.password == password && s.confirmPassword == confirmPassword
      ensures s.ResetForm? ==> (s.notice.Some? <==> message != "")
      ensures s.ResetForm? && s.notice.Some? ==> s.notice.value == Notice(message, IsErrorText(message))
      ensures s.ResetForm? ==> s.submitDisabled == loading
      ensures s.ResetForm? ==> s.submitLabel == if loading then "處理中..." else "重設密碼"
    {
      if !isValidSession then InvalidLinkScreen(message)
      else
        ResetForm(password, confirmPassword,
                  if message != "" then Some(Notice(message, IsErrorText(message))) else None,
                  if loading then "處理中..." else "重設密碼", loading)
    }
  }

  /** The invalid-link, mismatch and failure messages are shown in the error colour. */
  lemma ErrorMessagesAreRed(providerMessage: string)
    ensures IsErrorText(InvalidLinkMsg)
    ensures IsErrorText(MismatchMsg)
    ensures IsErrorText(ResetFailedPrefix + providerMessage)
  {
    ContainsAt(InvalidLinkMsg, "無效", 0);
    ContainsAt(MismatchMsg, "不匹配", 2);
    var m := ResetFailedPrefix + providerMessage;
    assert m[4..6] == "失敗";
    ContainsAt(m, "失敗", 4);
  }

  /** The success message is shown in the success colour. */
  lemma SuccessMessageIsGreen()
    ensures !IsErrorText(ResetDoneMsg)
  {
    FirstCharAbsent(ResetDoneMsg, "失敗");
    FirstCharAbsent(ResetDoneMsg, "無效");
    FirstCharAbsent(ResetDoneMsg, "不匹配");
  }

  /**
   * The too-short refusal carries none of the three marker words, so although it rejects the
   * input it is shown in the success colour.
   */
  lemma TooShortMessageIsGreen()
    ensures !IsErrorText(TooShortMsg)
  {
    FirstCharAbsent(TooShortMsg, "失敗");
    FirstCharAbsent(TooShortMsg, "無效");
    FirstCharAbsent(TooShortMsg, "不匹配");
  }

  /** Every message a submission can leave is red except the success message and the too-short refusal. */
  lemma SubmissionNoticeColour(password: string, confirm: string, updateError: Option<string>)
    ensures var m := match PasswordProblem(password, confirm)
                     case Some(p) => p
                     case None => if updateError.Some? then ResetFailedPrefix + updateError.value else ResetDoneMsg;
      IsErrorText(m) <==> m != ResetDoneMsg && m != TooShortMsg
  {
    ErrorMessagesAreRed(if updateError.Some? then updateError.value else "");
    SuccessMessageIsGreen();
    TooShortMessageIsGreen();
    var failed := ResetFailedPrefix + (if updateError.Some? then updateError.value else "");
    assert failed[4] != ResetDoneMsg[4];
    assert |TooShortMsg| > 4 && failed[4] != TooShortMsg[4];
    assert MismatchMsg != ResetDoneMsg && MismatchMsg != TooShortMsg;
  }
}
