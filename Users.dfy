/** The user store of src/stores/user.ts: the signed-in user, the session token and their getters. */
module Users {
  import opened Wrappers

  /** The roles `admin`, `manager`, `user` and `viewer`; `Member` stands for `user`. */
  datatype UserRole = Admin | Manager | Member | Viewer

  datatype UserInfo = UserInfo(id: Option<string>, name: string, role: UserRole, avatar: Option<string>, email: Option<string>)

  /** The name and role label shown when nobody is signed in. */
  const Guest := "訪客"

  const MockUser := UserInfo(Some("1"), "張三", Admin, None, Some("admin@example.com"))

  const MockToken := "mock-token-123"

  /** The role label table of `userRole`. */
  function RoleLabel(role: UserRole): (shown: string)
    ensures shown != ""
    ensures shown == Guest <==> role == Viewer
  {
    match role
    case Admin => "管理員"
    case Manager => "管理者"
    case Member => "一般用戶"
    case Viewer => Guest
  }

  /** Different roles get different labels. */
  lemma RoleLabelInjective(a: UserRole, b: UserRole)
    ensures RoleLabel(a) == RoleLabel(b) ==> a == b
  {
  }

  class UserStore {
    var user: Option<UserInfo>
    var token: Option<string>

    constructor ()
      ensures user == None && token == None
      ensures !IsAuthenticated() && UserName() == Guest && UserRoleLabel() == Guest
    {
      user := None;
      token := None;
    }

    /** `isAuthenticated`: a user and a non-empty token. */
    predicate IsAuthenticated()
      reads this
    {
      user.Some? && token.Some? && token.value != ""
    }

    /** `isAdmin`. */
    predicate IsAdmin()
      reads this
    {
      user.Some? && user.value.role == Admin
    }

    /** `userName`: the user's name, falling back to the guest label. */
    function UserName(): (name: string)
      reads this
      ensures name != ""
      ensures user.Some? && user.value.name != "" ==> name == user.value.name
      ensures user.None? || user.value.name == "" ==> name == Guest
    {
      if user.Some? && user.value.name != "" then user.value.name else Guest
    }

    /** `userRole`: the label of the user's role, or the guest label without a user. */
    function UserRoleLabel(): (shown: string)
      reads this
      ensures shown != ""
      ensures user.None? ==> shown == Guest
      ensures user.Some? ==> shown == RoleLabel(user.value.role)
    {
      if user.Some? then RoleLabel(user.value.role) else Guest
    }

    /** `setUser`. */
    method SetUser(userInfo: UserInfo)
      modifies this`user
      ensures user == Some(userInfo)
      ensures IsAdmin() <==> userInfo.role == Admin
      ensures IsAuthenticated() <==> token.Some? && token.value != ""
    {
      user := Some(userInfo);
    }

    /** `setToken`. */
    method SetToken(tokenValue: string)
      modifies this`token
      ensures token == Some(tokenValue)
      ensures IsAuthenticated() <==> user.Some? && tokenValue != ""
    {
      token := Some(tokenValue);
    }

    /** `logout`: forget user and token. */
    method Logout()
      modifies this
      ensures user == None && token == None
      ensures !IsAuthenticated() && !IsAdmin()
      ensures UserName() == Guest && UserRoleLabel() == Guest
    {
      user := None;
      token := None;
    }

    /** `mockLogin`: sign in as the fixed test administrator. */
    method MockLogin()
      modifies this
      ensures user == Some(MockUser) && token == Some(MockToken)
      ensures IsAuthenticated() && IsAdmin()
      ensures UserName() == "張三" && UserRoleLabel() == "管理員"
    {
      SetUser(MockUser);
      SetToken(MockToken);
    }
  }
}
