/**
 * The account settings page (src/pages/Profile.tsx): a profile record edited one field at a time
 * while editing is switched on, and an edit button that switches editing on or saves.
 */
module Profile {

  /** The six notification switches. */
  datatype Notifications = Notifications(
    email: bool, push: bool, sms: bool, weeklyReport: bool, unusualActivity: bool, newFeatures: bool)

  /** `profileData`: seven text fields and the notification switches. */
  datatype ProfileData = ProfileData(
    firstName: string, lastName: string, email: string, phone: string,
    currency: string, language: string, timeZone: string,
    notifications: Notifications)

  /** The top-level text fields `handleChange` is called with. */
  datatype Field = FirstName | LastName | Email | Phone | Currency | Language | TimeZone

  /** The switches `handleNotificationChange` is called with. */
  datatype Flag = EmailAlerts | PushAlerts | SmsAlerts | WeeklyReport | UnusualActivity | NewFeatures

  /** `profileData[field]` */
  function Get(p: ProfileData, field: Field): string {
    match field
    case FirstName => p.firstName
    case LastName => p.lastName
    case Email => p.email
    case Phone => p.phone
    case Currency => p.currency
    case Language => p.language
    case TimeZone => p.timeZone
  }

  /** `notifications[flag]` */
  function IsOn(n: Notifications, flag: Flag): bool {
    match flag
    case EmailAlerts => n.email
    case PushAlerts => n.push
    case SmsAlerts => n.sms
    case WeeklyReport => n.weeklyReport
    case UnusualActivity => n.unusualActivity
    case NewFeatures => n.newFeatures
  }

  /** `{ ...profileData, [field]: value }`: that field takes the value; every other field and the switches keep theirs. */
  function WithField(p: ProfileData, field: Field, value: string): (r: ProfileData)
    ensures Get(r, field) == value
    ensures forall other :: other != field ==> Get(r, other) == Get(p, other)
    ensures r.notifications == p.notifications
  {
    match field
    case FirstName => p.(firstName := value)
    case LastName => p.(lastName := value)
    case Email => p.(email := value)
    case Phone => p.(phone := value)
    case Currency => p.(currency := value)
    case Language => p.(language := value)
    case TimeZone => p.(timeZone := value)
  }

  /** `{ ...notifications, [flag]: value }`: that switch takes the value; the other switches keep theirs. */
  function WithFlag(n: Notifications, flag: Flag, value: bool): (r: Notifications)
    ensures IsOn(r, flag) == value
    ensures forall other :: other != flag ==> IsOn(r, other) == IsOn(n, other)
  {
    match flag
    case EmailAlerts => n.(email := value)
    case PushAlerts => n.(push := value)
    case SmsAlerts => n.(sms := value)
    case WeeklyReport => n.(weeklyReport := value)
    case UnusualActivity => n.(unusualActivity := value)
    case NewFeatures => n.(newFeatures := value)
  }

  /** Two records that agree on every field and on every switch are the same record. */
  lemma Extensionality(p: ProfileData, q: ProfileData)
    requires forall f :: Get(p, f) == Get(q, f)
    requires forall g :: IsOn(p.notifications, g) == IsOn(q.notifications, g)
    ensures p == q
  {
    assert Get(p, FirstName) == Get(q, FirstName) && Get(p, LastName) == Get(q, LastName);
    assert Get(p, Email) == Get(q, Email) && Get(p, Phone) == Get(q, Phone);
    assert Get(p, Currency) == Get(q, Currency) && Get(p, Language) == Get(q, Language);
    assert Get(p, TimeZone) == Get(q, TimeZone);
    var n, m := p.notifications, q.notifications;
    assert IsOn(n, EmailAlerts) == IsOn(m, EmailAlerts) && IsOn(n, PushAlerts) == IsOn(m, PushAlerts);
    assert IsOn(n, SmsAlerts) == IsOn(m, SmsAlerts) && IsOn(n, WeeklyReport) == IsOn(m, WeeklyReport);
    assert IsOn(n, UnusualActivity) == IsOn(m, UnusualActivity) && IsOn(n, NewFeatures) == IsOn(m, NewFeatures);
  }

  /** Setting a field to the value it already has changes nothing; setting it twice keeps the last value. */
  lemma WithFieldLastWins(p: ProfileData, field: Field, a: string, b: string)
    ensures WithField(p, field, Get(p, field)) == p
    ensures WithField(WithField(p, field, a), field, b) == WithField(p, field, b)
  {
    Extensionality(WithField(p, field, Get(p, field)), p);
    Extensionality(WithField(WithField(p, field, a), field, b), WithField(p, field, b));
  }

  /** Changes to two different fields can be made in either order. */
  lemma WithFieldCommutes(p: ProfileData, f: Field, g: Field, a: string, b: string)
    requires f != g
    ensures WithField(WithField(p, f, a), g, b) == WithField(WithField(p, g, b), f, a)
  {
    Extensionality(WithField(WithField(p, f, a), g, b), WithField(WithField(p, g, b), f, a));
  }

  const Initial: ProfileData := ProfileData(
    "Rahul", "Sharma", "rahul.sharma@example.com", "+91 9876543210", "INR", "en-IN", "Asia/Kolkata",
    Notifications(true, true, false, true, true, false))

  class ProfilePage {
    var profile: ProfileData
    var isEditing: bool

    /** Editing off, the fixed starting profile: rupees, Indian English, SMS alerts off. */
    constructor ()
      ensures profile == Initial && !isEditing
      ensures Get(profile, Currency) == "INR" && Get(profile, Language) == "en-IN"
      ensures !IsOn(profile.notifications, SmsAlerts)
    {
      profile := Initial;
      isEditing := false;
    }

    /** `handleChange`; the inputs are disabled unless editing. */
    method HandleChange(field: Field, value: string)
      requires isEditing
      modifies this
      ensures profile == WithField(old(profile), field, value)
      ensures isEditing
    {
      profile := WithField(profile, field, value);
    }

    /** `handleNotificationChange`; the switches are disabled unless editing. */
    method HandleNotificationChange(flag: Flag, value: bool)
      requires isEditing
      modifies this
      ensures profile == old(profile).(notifications := WithFlag(old(profile).notifications, flag, value))
      ensures forall f :: Get(profile, f) == Get(old(profile), f)
      ensures isEditing
    {
      profile := profile.(notifications := WithFlag(profile.notifications, flag, value));
    }

    /** `handleSave`: leaves editing; the profile itself is not sent anywhere. */
    method HandleSave()
      modifies this
      ensures !isEditing && profile == old(profile)
    {
      isEditing := false;
    }

    /** The "Edit Profile" / "Save Changes" button: switches editing on, or saves when already editing. */
    method ToggleEdit()
      modifies this
      ensures isEditing == !old(isEditing)
      ensures profile == old(profile)
    {
      if isEditing {
        HandleSave();
      } else {
        isEditing := true;
      }
    }
  }
}
