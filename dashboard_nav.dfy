/** The dashboard's side navigation: its items by role, and which item is highlighted. */
module DashboardNav {
  import opened Wrappers
  import SessionList

  datatype NavItem = NavItem(href: string, caption: string)

  const DashboardItem: NavItem := NavItem("/dashboard", "Dashboard")
  const FindTutorsItem: NavItem := NavItem("/tutors", "Find Tutors")
  const AvailabilityItem: NavItem := NavItem("/dashboard/availability", "Availability")
  const SessionsItem: NavItem := NavItem("/dashboard/sessions", "Sessions")
  const ProfileItem: NavItem := NavItem("/profile", "Profile")

  /** `navItems`: Dashboard, then the role's own page, then Sessions and Profile. Any role other
      than "student" gets the tutor's Availability page. */
  function NavItems(userType: string): (items: seq<NavItem>)
    ensures |items| == 4
    ensures items[0] == DashboardItem && items[2] == SessionsItem && items[3] == ProfileItem
    ensures items[1] == if userType == SessionList.StudentRole then FindTutorsItem else AvailabilityItem
    ensures items[1].href == if userType == SessionList.StudentRole then "/tutors" else "/dashboard/availability"
    ensures forall i, j :: 0 <= i < j < |items| ==> items[i].href != items[j].href
  {
    [DashboardItem] + (if userType == SessionList.StudentRole then [FindTutorsItem] else [AvailabilityItem])
      + [SessionsItem, ProfileItem]
  }

  /** An item is highlighted when the path is exactly its href. */
  predicate IsActive(pathname: string, item: NavItem)
  {
    pathname == item.href
  }

  /** At most one item is highlighted at a time. */
  lemma AtMostOneActive(userType: string, pathname: string)
    ensures forall i, j ::
      (0 <= i < 4 && 0 <= j < 4 && IsActive(pathname, NavItems(userType)[i]) && IsActive(pathname, NavItems(userType)[j]))
      ==> i == j
  {
  }

  /** The layout's role: the profile's `user_type`, or "student" when it is missing or empty. */
  function LayoutUserType(profileUserType: Option<string>): (userType: string)
    ensures userType != ""
    ensures profileUserType.Some? && profileUserType.value != "" ==> userType == profileUserType.value
    ensures profileUserType.None? || profileUserType.value == "" ==> userType == SessionList.StudentRole
  {
    if profileUserType.Some? && profileUserType.value != "" then profileUserType.value else SessionList.StudentRole
  }

  /** Without a profile row the two pages disagree on the role: the navigation offers the
      student's Find Tutors page, while the sessions page treats the user as a tutor. */
  lemma MissingProfileRolesDisagree()
    ensures NavItems(LayoutUserType(None))[1] == FindTutorsItem
    ensures !SessionList.IsStudent(None)
  {
  }
}
