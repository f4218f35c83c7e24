/** The account record (users/models.py): a role out of two choices, a blocked
    flag, and the text form "username (role display)". */
module Users {
  import opened Basics

  type UserId = nat

  /** ROLE_CHOICES: stored value 'user' or 'manager'. */
  datatype Role = RegularUser | Manager

  function RoleValue(r: Role): string {
    match r
    case RegularUser => "user"
    case Manager => "manager"
  }

  /** The human-readable half of each choice, used by get_role_display(). */
  function RoleDisplay(r: Role): string {
    match r
    case RegularUser => "Пользователь"
    case Manager => "Менеджер"
  }

  /** Reading a stored role value back: exactly the two choices are accepted. */
  function ParseRole(s: string): (r: Option<Role>)
    ensures r.Some? <==> s == "user" || s == "manager"
    ensures r.Some? ==> RoleValue(r.value) == s
  {
    if s == "user" then Some(RegularUser)
    else if s == "manager" then Some(Manager)
    else None
  }

  lemma RoleValueRoundTrip(r: Role)
    ensures ParseRole(RoleValue(r)) == Some(r)
  {
  }

  datatype Account = Account(id: UserId, username: string, role: Role, isBlocked: bool)

  /** A freshly created account: role defaults to 'user', is_blocked to False. */
  function NewAccount(id: UserId, username: string): (a: Account)
    ensures a.id == id && a.username == username
    ensures a.role == RegularUser && !a.isBlocked
  {
    Account(id, username, RegularUser, false)
  }

  function RoleSuffix(r: Role): string {
    " (" + RoleDisplay(r) + ")"
  }

  /** str(user). */
  function AccountLabel(a: Account): string {
    a.username + RoleSuffix(a.role)
  }

  /** Recovers username and role from a label; the two suffixes end differently. */
  function ParseAccountLabel(s: string): Option<(string, Role)> {
    if HasSuffix(s, RoleSuffix(Manager)) then
      Some((s[..|s| - |RoleSuffix(Manager)|], Manager))
    else if HasSuffix(s, RoleSuffix(RegularUser)) then
      Some((s[..|s| - |RoleSuffix(RegularUser)|], RegularUser))
    else None
  }

  /** The label of an account names its username and its role unambiguously. */
  lemma AccountLabelRoundTrip(a: Account)
    ensures ParseAccountLabel(AccountLabel(a)) == Some((a.username, a.role))
  {
    var s := AccountLabel(a);
    var m := RoleSuffix(Manager);
    if a.role == RegularUser {
      // "...ль)" against "...ер)": the next-to-last characters differ
      assert s[|s| - 2] == 'ь';
      assert m[|m| - 2] == 'р';
    }
    assert s[..|s| - |RoleSuffix(a.role)|] == a.username;
  }

  /** Two accounts with the same label have the same username and role. */
  lemma AccountLabelInjective(a: Account, b: Account)
    requires AccountLabel(a) == AccountLabel(b)
    ensures a.username == b.username && a.role == b.role
  {
    AccountLabelRoundTrip(a);
    AccountLabelRoundTrip(b);
  }
}
