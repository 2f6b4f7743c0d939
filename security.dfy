/** The security section of the profile settings: the password-change form,
    two-factor authentication and login notifications. */
module SecuritySection {
  import opened Common

  /** `passwordLastChanged` is a `YYYY-MM-DD` date. */
  datatype SecurityData = SecurityData(twoFactorEnabled: bool, passwordLastChanged: string,
                                       activeSessions: nat, loginNotifications: bool)

  datatype PasswordForm = PasswordForm(currentPassword: string, newPassword: string, confirmPassword: string)

  /** The field a `handlePasswordChange(field, value)` call writes. */
  datatype PasswordField = CurrentPassword | NewPassword | ConfirmPassword

  const InitialSecurity: SecurityData := SecurityData(false, "2024-07-15", 3, true)
  const EmptyPasswordForm: PasswordForm := PasswordForm("", "", "")

  const MismatchAlert: string := "Passwords do not match"
  const ChangedAlert: string := "Password changed successfully"

  /** The form with one field replaced. */
  function WithField(f: PasswordForm, field: PasswordField, value: string): (g: PasswordForm)
    ensures Get(g, field) == value
    ensures forall other :: other != field ==> Get(g, other) == Get(f, other)
  {
    match field
    case CurrentPassword => f.(currentPassword := value)
    case NewPassword => f.(newPassword := value)
    case ConfirmPassword => f.(confirmPassword := value)
  }

  function Get(f: PasswordForm, field: PasswordField): string
  {
    match field
    case CurrentPassword => f.currentPassword
    case NewPassword => f.newPassword
    case ConfirmPassword => f.confirmPassword
  }

  /** "Update Password" is disabled while any of the three fields is empty. */
  predicate UpdateDisabled(f: PasswordForm)
  {
    f.currentPassword == "" || f.newPassword == "" || f.confirmPassword == ""
  }

  /** The two-factor switch. */
  function TwoFactorToggled(d: SecurityData): (e: SecurityData)
    ensures e.twoFactorEnabled == !d.twoFactorEnabled
    ensures e.(twoFactorEnabled := d.twoFactorEnabled) == d
  {
    d.(twoFactorEnabled := !d.twoFactorEnabled)
  }

  /** Two flips of the switch change nothing. */
  lemma TwoFactorTwiceRestores(d: SecurityData)
    ensures TwoFactorToggled(TwoFactorToggled(d)) == d
  {
  }

  class SecuritySection {
    var securityData: SecurityData
    var passwordForm: PasswordForm
    var isChangingPassword: bool
    var showPasswordForm: bool

    constructor ()
      ensures securityData == InitialSecurity && passwordForm == EmptyPasswordForm
      ensures !isChangingPassword && !showPasswordForm
    {
      securityData := InitialSecurity;
      passwordForm := EmptyPasswordForm;
      isChangingPassword := false;
      showPasswordForm := false;
    }

    /** "Change Password" shows or hides the form. */
    method ToggleForm()
      modifies this
      ensures showPasswordForm == !old(showPasswordForm)
      ensures securityData == old(securityData) && passwordForm == old(passwordForm)
      ensures isChangingPassword == old(isChangingPassword)
    {
      showPasswordForm := !showPasswordForm;
    }

    /** `handlePasswordChange`: exactly one field of the form changes. */
    method PasswordChange(field: PasswordField, value: string)
      modifies this
      ensures passwordForm == WithField(old(passwordForm), field, value)
      ensures securityData == old(securityData) && showPasswordForm == old(showPasswordForm)
      ensures isChangingPassword == old(isChangingPassword)
    {
      passwordForm := WithField(passwordForm, field, value);
    }

    /** `handlePasswordSubmit`, with the simulated delay collapsed; `today`
        is the current UTC date. Differing new and confirmed passwords only
        raise an alert. Otherwise the form is emptied and hidden and the
        change date becomes today; nothing but equality is checked. */
    method PasswordSubmit(today: string) returns (alertText: string)
      modifies this
      ensures old(passwordForm).newPassword != old(passwordForm).confirmPassword ==>
        alertText == MismatchAlert && securityData == old(securityData) && passwordForm == old(passwordForm)
        && showPasswordForm == old(showPasswordForm) && isChangingPassword == old(isChangingPassword)
      ensures old(passwordForm).newPassword == old(passwordForm).confirmPassword ==>
        alertText == ChangedAlert && passwordForm == EmptyPasswordForm && !showPasswordForm
        && securityData == old(securityData).(passwordLastChanged := today) && !isChangingPassword
    {
      if passwordForm.newPassword != passwordForm.confirmPassword {
        alertText := MismatchAlert;
        return;
      }
      isChangingPassword := true;
      passwordForm := EmptyPasswordForm;
      showPasswordForm := false;
      securityData := securityData.(passwordLastChanged := today);
      alertText := ChangedAlert;
      isChangingPassword := false;
    }

    /** `handleTwoFactorToggle`. */
    method TwoFactorToggle()
      modifies this
      ensures securityData == TwoFactorToggled(old(securityData))
      ensures passwordForm == old(passwordForm) && showPasswordForm == old(showPasswordForm)
      ensures isChangingPassword == old(isChangingPassword)
    {
      securityData := TwoFactorToggled(securityData);
    }

    /** The login-notifications checkbox: the flag follows the box. */
    method LoginNotificationsChange(checked: bool)
      modifies this
      ensures securityData == old(securityData).(loginNotifications := checked)
      ensures passwordForm == old(passwordForm) && showPasswordForm == old(showPasswordForm)
      ensures isChangingPassword == old(isChangingPassword)
    {
      securityData := securityData.(loginNotifications := checked);
    }
  }

  /** A successful change always leaves a form on which the update button is
      disabled again. */
  lemma EmptiedFormIsDisabled()
    ensures UpdateDisabled(EmptyPasswordForm)
  {
  }
}
