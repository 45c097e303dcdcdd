/** Choosing the time zone of a signed-in account from its profiles. */
module GlobalsUtils {
  import opened Wrappers

  /** A staff or client profile, as far as the time zone goes. */
  datatype Profile = Profile(timezone: string)

  /** An account with the profiles that may be attached to it. */
  datatype User = User(staffProfile: Option<Profile>, clientProfile: Option<Profile>)

  /**
   * `get_tz`: the staff profile's time zone if the account has a staff
   * profile, otherwise the client profile's, otherwise the empty string.
   */
  function GetTz(user: User): (tz: string)
    ensures user.staffProfile.Some? ==> tz == user.staffProfile.value.timezone
    ensures user.staffProfile == None && user.clientProfile.Some? ==> tz == user.clientProfile.value.timezone
    ensures user.staffProfile == None && user.clientProfile == None ==> tz == ""
  {
    if user.staffProfile.Some? then user.staffProfile.value.timezone
    else if user.clientProfile.Some? then user.clientProfile.value.timezone
    else ""
  }

  /** A staff profile wins: adding, changing or removing a client profile changes nothing. */
  lemma StaffProfileTakesPrecedence(user: User, client: Option<Profile>)
    requires user.staffProfile.Some?
    ensures GetTz(user.(clientProfile := client)) == GetTz(user)
  {
  }

  /** The result is always one of the profiles' time zones or empty. */
  lemma TzComesFromAProfile(user: User)
    ensures GetTz(user) == ""
            || (user.staffProfile.Some? && GetTz(user) == user.staffProfile.value.timezone)
            || (user.clientProfile.Some? && GetTz(user) == user.clientProfile.value.timezone)
  {
  }
}
