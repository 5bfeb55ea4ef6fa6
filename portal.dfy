/** The portal shell: signing in as a student or a teacher, signing out, and
    the screen shown for the signed-in role and the selected tab. */
module Portal {
  import opened Types

  datatype Role = StudentRole | TeacherRole

  /** The identifying part of a matched student or teacher row. */
  datatype Account = Account(id: string, name: string)

  /** The signed-in user: the matched row with the role it was found under. */
  datatype UserProfile = UserProfile(account: Account, role: Role)

  /** How a credential lookup ends: it throws, or it answers with the
      matching row, if there is one. */
  datatype Lookup = Threw | Answered(row: Option<Account>)

  const InvalidCredentials := "Invalid Credentials. Check ID or Password."
  const ConnectionError := "Connection error. Please try again."

  /** What the shell shows. */
  datatype Screen =
    | Loading
    | LoginForm(error: string)
    | Blank
    | StudentDashboard
    | AttendancePage
    | MarksPage
    | LmsPage
    | TeacherDashboard
      /** the page for a tab without a module; its Return Home button selects `home` */
    | Placeholder(tab: string, home: string)

  /** The tab a role starts from, and that Return Home selects. */
  function HomeTab(role: Role): (tab: string)
    ensures tab in Tabs(role)
  {
    if role == TeacherRole then "teacher-dashboard" else "dashboard"
  }

  /** The tabs that have a screen of their own for each role. */
  function Tabs(role: Role): set<string>
  {
    match role
    case StudentRole => {"dashboard", "attendance", "marks", "lms-dashboard"}
    case TeacherRole => {"teacher-dashboard"}
  }

  /** The screen for a signed-in role and a tab other than "logout": a tab of the
      role's own gets its screen, any other tab the placeholder leading home;
      students never see the teacher screen, and teachers see nothing else. */
  function Route(role: Role, tab: string): (s: Screen)
    ensures !s.Placeholder? <==> tab in Tabs(role)
    ensures s.Placeholder? ==> s == Placeholder(tab, HomeTab(role))
    ensures role == StudentRole ==> s != TeacherDashboard
    ensures role == TeacherRole ==> s == TeacherDashboard || s.Placeholder?
  {
    match role
    case StudentRole =>
      if tab == "dashboard" then StudentDashboard
      else if tab == "attendance" then AttendancePage
      else if tab == "marks" then MarksPage
      else if tab == "lms-dashboard" then LmsPage
      else Placeholder(tab, HomeTab(role))
    case TeacherRole =>
      if tab == "teacher-dashboard" then TeacherDashboard
      else Placeholder(tab, HomeTab(role))
  }

  /** Distinct tabs of a role show distinct screens. */
  lemma RouteInjective(role: Role, tab1: string, tab2: string)
    requires tab1 in Tabs(role) && tab2 in Tabs(role)
    ensures Route(role, tab1) == Route(role, tab2) ==> tab1 == tab2
  {
  }

  /** The state of the portal shell. */
  class App {
    var activeTab: string
    var user: Option<UserProfile>
    var authError: string
    var isLoading: bool

    /** The shell as first opened: nobody signed in, on the dashboard tab. */
    constructor()
      ensures activeTab == "dashboard" && user == None && authError == [] && !isLoading
    {
      activeTab := "dashboard";
      user := None;
      authError := [];
      isLoading := false;
    }

    /** handleLogin with the answers of the student and the teacher lookups.
        The student match is tried first and wins; the teacher lookup is made
        only when it finds no row. */
    method HandleLogin(studentLookup: Lookup, teacherLookup: Lookup) returns (teacherQueried: bool)
      modifies this
      ensures !isLoading
      ensures teacherQueried <==> studentLookup == Answered(None)
      ensures studentLookup.Answered? && studentLookup.row.Some? ==>
        user == Some(UserProfile(studentLookup.row.value, StudentRole)) &&
        activeTab == old(activeTab) && authError == []
      ensures teacherQueried && teacherLookup.Answered? && teacherLookup.row.Some? ==>
        user == Some(UserProfile(teacherLookup.row.value, TeacherRole)) &&
        activeTab == "teacher-dashboard" && authError == []
      ensures teacherQueried && teacherLookup == Answered(None) ==>
        user == old(user) && activeTab == old(activeTab) && authError == InvalidCredentials
      ensures studentLookup == Threw || (teacherQueried && teacherLookup == Threw) ==>
        user == old(user) && activeTab == old(activeTab) && authError == ConnectionError
    {
      isLoading := true;
      authError := [];
      teacherQueried := false;
      match studentLookup {
        case Threw =>
          authError := ConnectionError;
        case Answered(student) =>
          if student.Some? {
            user := Some(UserProfile(student.value, StudentRole));
            isLoading := false;
            return;
          }
          teacherQueried := true;
          match teacherLookup {
            case Threw =>
              authError := ConnectionError;
            case Answered(teacher) =>
              if teacher.Some? {
                user := Some(UserProfile(teacher.value, TeacherRole));
                activeTab := "teacher-dashboard";
              } else {
                authError := InvalidCredentials;
              }
          }
      }
      isLoading := false;
    }

    /** handleLogout: nobody signed in, back on the dashboard tab. */
    method HandleLogout()
      modifies this
      ensures user == None && activeTab == "dashboard"
      ensures authError == old(authError) && isLoading == old(isLoading)
    {
      user := None;
      activeTab := "dashboard";
    }

    /** A tab chosen in the navigation. */
    method SelectTab(tab: string)
      modifies this
      ensures activeTab == tab
      ensures user == old(user) && authError == old(authError) && isLoading == old(isLoading)
    {
      activeTab := tab;
    }

    /** What the shell renders: the loading screen, the login form, or for a
        signed-in user the screen of the active tab; the "logout" tab signs out
        and shows nothing. */
    method Render() returns (screen: Screen)
      modifies this
      ensures old(isLoading) ==> screen == Loading
      ensures !old(isLoading) && old(user) == None ==> screen == LoginForm(old(authError))
      ensures !old(isLoading) && old(user).Some? && old(activeTab) == "logout" ==>
        screen == Blank && user == None && activeTab == "dashboard"
      ensures !old(isLoading) && old(user).Some? && old(activeTab) != "logout" ==>
        screen == Route(old(user).value.role, old(activeTab))
      ensures old(isLoading) || old(user) == None || old(activeTab) != "logout" ==>
        user == old(user) && activeTab == old(activeTab)
      ensures authError == old(authError) && isLoading == old(isLoading)
    {
      if isLoading {
        return Loading;
      }
      if user == None {
        return LoginForm(authError);
      }
      if activeTab == "logout" {
        HandleLogout();
        return Blank;
      }
      screen := Route(user.value.role, activeTab);
    }

    /** The placeholder's Return Home button: the signed-in role's home tab. */
    method ReturnHome()
      requires user.Some?
      modifies this
      ensures user == old(user) && authError == old(authError) && isLoading == old(isLoading)
      ensures activeTab == HomeTab(user.value.role)
    {
      activeTab := if user.value.role == TeacherRole then "teacher-dashboard" else "dashboard";
    }
  }

  /** Signing in with credentials that match no row shows the login form with
      the invalid-credentials message. */
  method FailedLogin() returns (screen: Screen)
    ensures screen == LoginForm(InvalidCredentials)
  {
    var app := new App();
    var _ := app.HandleLogin(Answered(None), Answered(None));
    screen := app.Render();
  }

  /** A student match shows the student dashboard without consulting the
      teacher lookup, whatever it would answer. */
  method StudentLogin(student: Account, teacherLookup: Lookup) returns (screen: Screen, teacherQueried: bool)
    ensures screen == StudentDashboard && !teacherQueried
  {
    var app := new App();
    teacherQueried := app.HandleLogin(Answered(Some(student)), teacherLookup);
    screen := app.Render();
  }

  /** A teacher match shows the teacher dashboard. */
  method TeacherLogin(teacher: Account) returns (screen: Screen)
    ensures screen == TeacherDashboard
  {
    var app := new App();
    var _ := app.HandleLogin(Answered(None), Answered(Some(teacher)));
    screen := app.Render();
  }

  /** Selecting the "logout" tab signs the user out: that render is blank and
      the next one is the login form. */
  method LogoutThroughTab(student: Account) returns (first: Screen, second: Screen)
    ensures first == Blank && second == LoginForm([])
  {
    var app := new App();
    var _ := app.HandleLogin(Answered(Some(student)), Threw);
    app.SelectTab("logout");
    first := app.Render();
    second := app.Render();
  }

  /** From any unknown tab, Return Home leads back to a screen of the role's own. */
  method UnknownTabThenHome(account: Account, role: Role, tab: string) returns (before: Screen, after: Screen)
    requires tab != "logout" && tab !in Tabs(role)
    ensures before == Placeholder(tab, HomeTab(role))
    ensures !after.Placeholder? && after != Blank
  {
    var app := new App();
    var _ := app.HandleLogin(
      if role == StudentRole then Answered(Some(account)) else Answered(None),
      Answered(Some(account)));
    app.SelectTab(tab);
    before := app.Render();
    app.ReturnHome();
    after := app.Render();
  }
}
