/** The settings page (src/pages/Settings.tsx): the profile form kept in
    step with the signed-in user, the password change with its two checks,
    and the notification switches. Each handler is one sequential step that
    is given the outcome of its awaited request; `loadingWrites` lists the
    values written to `isLoading`, in order. */
module Settings {
  import opened Wrappers
  import opened Text
  import opened Api
  import opened Auth

  const PasswordMismatch: string := "新しいパスワードが一致しません"
  const PasswordTooShort: string := "パスワードは8文字以上で設定してください"
  const PasswordChanged: string := "パスワードを変更しました"
  const PasswordChangeFailed: string := "パスワードの変更に失敗しました"
  const ProfileUpdated: string := "プロフィールを更新しました"
  const ProfileUpdateFailed: string := "プロフィールの更新に失敗しました"
  const NotificationsUpdated: string := "通知設定を更新しました"
  const NotificationsUpdateFailed: string := "通知設定の更新に失敗しました"

  /** The minimum password length, in UTF-16 code units. */
  const MinPasswordLength: nat := 8

  /** The two checks of `handlePasswordUpdate`, in order: the confirmation
      must match, then the new password must be long enough. */
  function PasswordError(newPassword: string, confirmPassword: string): (e: Option<string>)
    ensures e.None? <==> newPassword == confirmPassword && Utf16Length(newPassword) >= MinPasswordLength
    ensures newPassword != confirmPassword ==> e == Some(PasswordMismatch)
    ensures newPassword == confirmPassword && Utf16Length(newPassword) < MinPasswordLength ==> e == Some(PasswordTooShort)
  {
    if newPassword != confirmPassword then Some(PasswordMismatch)
    else if Utf16Length(newPassword) < MinPasswordLength then Some(PasswordTooShort)
    else None
  }

  /** The boundary of the length check for passwords in the Basic
      Multilingual Plane: 8 characters pass, 7 do not, and a mismatch is
      reported even when the password is also too short. */
  lemma PasswordBoundaries(p: string, q: string)
    requires forall i :: 0 <= i < |p| ==> p[i] as int <= 0xFFFF
    ensures |p| == 8 ==> PasswordError(p, p).None?
    ensures |p| == 7 ==> PasswordError(p, p) == Some(PasswordTooShort)
    ensures p != q ==> PasswordError(p, q) == Some(PasswordMismatch)
  {
    Utf16LengthBmp(p);
  }

  /** The body of `PATCH /auth/password`. */
  function PasswordJson(current: string, newPassword: string, confirmation: string): Json {
    JObject([
      ("current_password", JString(current)),
      ("password", JString(newPassword)),
      ("password_confirmation", JString(confirmation))])
  }

  datatype NotificationSettings = NotificationSettings(
    emailNotifications: bool,
    feedbackReceived: bool,
    feedbackRead: bool,
    weeklyReport: bool,
    monthlyReport: bool)

  const DefaultNotifications: NotificationSettings := NotificationSettings(true, true, false, true, true)

  function NotificationsJson(n: NotificationSettings): Json {
    JObject([("notifications", JObject([
      ("emailNotifications", JBool(n.emailNotifications)),
      ("feedbackReceived", JBool(n.feedbackReceived)),
      ("feedbackRead", JBool(n.feedbackRead)),
      ("weeklyReport", JBool(n.weeklyReport)),
      ("monthlyReport", JBool(n.monthlyReport))]))])
  }

  function ProfileJson(name: string, email: string): Json {
    JObject([("user", JObject([("name", JString(name)), ("email", JString(email))]))])
  }

  class SettingsPage {
    const api: ApiClient
    var isLoading: bool
    var success: Option<string>
    var error: Option<string>
    var profileName: string
    var profileEmail: string
    var currentPassword: string
    var newPassword: string
    var confirmPassword: string
    var notifications: NotificationSettings

    /** The initial state: the profile form shows the user's name and
        address, or empty strings without a user. */
    constructor (api: ApiClient, user: Option<User>)
      ensures this.api == api && !isLoading && success == None && error == None
      ensures user.Some? ==> profileName == user.value.name && profileEmail == user.value.email
      ensures user.None? ==> profileName == "" && profileEmail == ""
      ensures currentPassword == "" && newPassword == "" && confirmPassword == ""
      ensures notifications == DefaultNotifications
    {
      this.api := api;
      isLoading := false;
      success := None;
      error := None;
      profileName := if user.Some? then user.value.name else "";
      profileEmail := if user.Some? then user.value.email else "";
      currentPassword := "";
      newPassword := "";
      confirmPassword := "";
      notifications := DefaultNotifications;
    }

    /** The effect on `[user]`: a present user overwrites the profile form,
        an absent one leaves it alone. */
    method SyncProfile(user: Option<User>)
      modifies this
      ensures user.Some? ==> profileName == user.value.name && profileEmail == user.value.email
      ensures user.None? ==> profileName == old(profileName) && profileEmail == old(profileEmail)
      ensures isLoading == old(isLoading) && success == old(success) && error == old(error)
      ensures currentPassword == old(currentPassword) && newPassword == old(newPassword) && confirmPassword == old(confirmPassword)
      ensures notifications == old(notifications)
    {
      if user.Some? {
        profileName := user.value.name;
        profileEmail := user.value.email;
      }
    }

    /** `handlePasswordUpdate`: a failed check sets its message and returns
        before anything else happens; otherwise the messages are cleared,
        the three fields are sent, and on success they are emptied. */
    method HandlePasswordUpdate(outcome: HttpOutcome<Json>) returns (req: Option<HttpRequest>, loadingWrites: seq<bool>)
      modifies this
      ensures PasswordError(old(newPassword), old(confirmPassword)).Some? ==>
        && req == None && loadingWrites == []
        && error == PasswordError(old(newPassword), old(confirmPassword))
        && success == old(success) && isLoading == old(isLoading)
        && currentPassword == old(currentPassword) && newPassword == old(newPassword) && confirmPassword == old(confirmPassword)
      ensures PasswordError(old(newPassword), old(confirmPassword)).None? ==>
        && req == Some(api.Prepared("/auth/password",
             RequestOptions(Some(Patch), Some(PasswordJson(old(currentPassword), old(newPassword), old(confirmPassword))), None)))
        && loadingWrites == [true, false] && !isLoading
      ensures PasswordError(old(newPassword), old(confirmPassword)).None? && outcome.Ok? ==>
        && success == Some(PasswordChanged) && error == None
        && currentPassword == "" && newPassword == "" && confirmPassword == ""
      ensures PasswordError(old(newPassword), old(confirmPassword)).None? && !outcome.Ok? ==>
        && success == None && error == Some(PasswordChangeFailed)
        && currentPassword == old(currentPassword) && newPassword == old(newPassword) && confirmPassword == old(confirmPassword)
      ensures profileName == old(profileName) && profileEmail == old(profileEmail) && notifications == old(notifications)
    {
      loadingWrites := [];
      req := None;
      ghost var check := PasswordError(newPassword, confirmPassword);
      if newPassword != confirmPassword {
        error := Some(PasswordMismatch);
        return;
      }
      if Utf16Length(newPassword) < MinPasswordLength {
        error := Some(PasswordTooShort);
        return;
      }
      assert check.None?;
      isLoading := true;
      loadingWrites := [true];
      error := None;
      success := None;
      var sent, r := api.PatchJson("/auth/password", Some(PasswordJson(currentPassword, newPassword, confirmPassword)), outcome);
      req := Some(sent);
      if r.Success? {
        success := Some(PasswordChanged);
        currentPassword := "";
        newPassword := "";
        confirmPassword := "";
      } else {
        error := Some(PasswordChangeFailed);
      }
      isLoading := false;
      loadingWrites := loadingWrites + [false];
    }

    /** `handleProfileUpdate`: clear the messages, send the profile form,
        report the outcome. */
    method HandleProfileUpdate(outcome: HttpOutcome<Json>) returns (req: HttpRequest, loadingWrites: seq<bool>)
      modifies this
      ensures req == api.Prepared("/auth/me", RequestOptions(Some(Patch), Some(ProfileJson(profileName, profileEmail)), None))
      ensures loadingWrites == [true, false] && !isLoading
      ensures outcome.Ok? ==> success == Some(ProfileUpdated) && error == None
      ensures !outcome.Ok? ==> success == None && error == Some(ProfileUpdateFailed)
      ensures profileName == old(profileName) && profileEmail == old(profileEmail) && notifications == old(notifications)
      ensures currentPassword == old(currentPassword) && newPassword == old(newPassword) && confirmPassword == old(confirmPassword)
    {
      isLoading := true;
      loadingWrites := [true];
      error := None;
      success := None;
      var r;
      req, r := api.PatchJson("/auth/me", Some(ProfileJson(profileName, profileEmail)), outcome);
      if r.Success? {
        success := Some(ProfileUpdated);
      } else {
        error := Some(ProfileUpdateFailed);
      }
      isLoading := false;
      loadingWrites := loadingWrites + [false];
    }

    /** `handleNotificationUpdate`: the same shape, sending the switches. */
    method HandleNotificationUpdate(outcome: HttpOutcome<Json>) returns (req: HttpRequest, loadingWrites: seq<bool>)
      modifies this
      ensures req == api.Prepared("/settings/notifications", RequestOptions(Some(Patch), Some(NotificationsJson(notifications)), None))
      ensures loadingWrites == [true, false] && !isLoading
      ensures outcome.Ok? ==> success == Some(NotificationsUpdated) && error == None
      ensures !outcome.Ok? ==> success == None && error == Some(NotificationsUpdateFailed)
      ensures profileName == old(profileName) && profileEmail == old(profileEmail) && notifications == old(notifications)
      ensures currentPassword == old(currentPassword) && newPassword == old(newPassword) && confirmPassword == old(confirmPassword)
    {
      isLoading := true;
      loadingWrites := [true];
      error := None;
      success := None;
      var r;
      req, r := api.PatchJson("/settings/notifications", Some(NotificationsJson(notifications)), outcome);
      if r.Success? {
        success := Some(NotificationsUpdated);
      } else {
        error := Some(NotificationsUpdateFailed);
      }
      isLoading := false;
      loadingWrites := loadingWrites + [false];
    }
  }
}
