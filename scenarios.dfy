/**
 * The situations exercised by the repository's tests, replayed against the
 * model: each method below follows from the contracts of the members it
 * calls and, for the counts and lookups over the fixture catalog, from the
 * definitions of those functions.
 */
module Scenarios {
  import opened Wrappers
  import opened Models
  import opened Utils
  import opened Routes
  import Init

  /** The two-entry catalog of the test fixtures: one public project, one private project needing role 1. */
  function FixtureCatalog(): Catalog
  {
    [("project1", Project("/download/public.txt", false, 0)),
     ("project2", Project("/download/private.txt", true, 1))]
  }

  function Account(name: string, password: string, role: int): User
  {
    User(name, Hash(password), Level(role))
  }

  method IndexCounts()
  {
    var anonymous := new Server(map[], FixtureCatalog(), map[], 1, EmptySession);
    var page := anonymous.Index();
    assert page.publicCount == 1 && page.ableToView == 0 && page.role == Level(-1);

    var users := map[1 := Account("private_user", "password", 2)];
    var member := new Server(map[], FixtureCatalog(), users, 2, Session(Some(1), Some("private_user")));
    assert PageCaller(member.users, member.session) == Known(1, users[1]);
    page := member.Index();
    assert page.loggedIn && page.ableToView == 1;
  }

  method SignupOnceOnly()
  {
    var s := new Server(map[], FixtureCatalog(), map[], 1, EmptySession);
    var r := s.Signup(true, "new_user", "pw");
    assert r == Redirect("/");
    assert s.users == map[1 := Account("new_user", "pw", 0)];
    var again := s.Signup(true, "new_user", "pw");
    assert again == Render(SignupForm, Some("Username already exists!"));
    assert |s.users| == 1;
  }

  method LoginWithWrongThenRightPassword()
  {
    var users := map[1 := Account("login_user", "pw", 0)];
    var s := new Server(map[], FixtureCatalog(), users, 2, EmptySession);
    WrongPasswordRejected(users, 1, "pw", "wrong");
    var bad := s.Login(true, "login_user", "wrong");
    assert bad == Render(LoginForm, Some("Invalid username or password!"));
    assert s.session == EmptySession;
    CheckHash("pw", "pw");
    assert CredentialsMatch(s.users, "login_user", "pw");
    var good := s.Login(true, "login_user", "pw");
    assert good == Redirect("/") && s.session.username == Some("login_user");
  }

  method LogoutEmptiesSession()
  {
    var s := new Server(map[], FixtureCatalog(), map[], 1, Session(Some(1), Some("someone")));
    var r := s.Logout();
    assert r == Redirect("/") && s.session == EmptySession;
  }

  method DownloadGate()
  {
    var users := map[1 := Account("downloader", "password", 1)];
    var s := new Server(map[], FixtureCatalog(), users, 2, Session(Some(1), Some("downloader")));
    assert GetProjectFromFilename("private.txt", FixtureCatalog()) == Some(Project("/download/private.txt", true, 1)) by {
      LookupUnique("private.txt", FixtureCatalog(), 1);
    }
    assert PageCaller(s.users, s.session) == Known(1, users[1]);
    var served := s.Download("private.txt", {"private.txt"});
    assert served == File("private.txt");
    var missing := s.Download("private.txt", {});
    assert missing == NotFound;

    var anonymous := new Server(map[], FixtureCatalog(), users, 2, EmptySession);
    var refused := anonymous.Download("private.txt", {"private.txt"});
    assert refused == Redirect("/");
  }

  /** An administrator sets the target's role to `str(n)`; the target's role becomes the integer n. */
  method AdminChangesRole(n: int)
  {
    var users := map[1 := Account("admin", "password", 100), 2 := Account("target", "password", 0)];
    var s := new Server(map[], FixtureCatalog(), users, 3, Session(Some(1), Some("admin")));
    assert ApiCaller(s.users, s.session) == Known(1, users[1]);
    DecimalStoresLevel(n);
    var r := s.ChangeRole(2, Spell(DecimalLiteral(n)));
    assert r == Redirect("/") && s.users[2].role == Level(n);
  }

  /** A role sent as, say, "100.5" is stored as a real, not as text. */
  method RealRoleStored(n: nat)
  {
    var users := map[1 := Account("admin", "password", 100), 2 := Account("target", "password", 0)];
    var s := new Server(map[], FixtureCatalog(), users, 3, Session(Some(1), Some("admin")));
    assert ApiCaller(s.users, s.session) == Known(1, users[1]);
    HalfStoresNumeric(n);
    var r := s.ChangeRole(2, Digits(n) + ".5");
    assert r == Redirect("/") && s.users[2].role == Numeric(n as real + 0.5);
  }

  /** A user whose stored role is a real above 99 passes the administrator test and may delete a user. */
  method RealRoleAdministers(x: real)
    requires x > 99.0
  {
    var users := map[1 := Account("victim", "password", 0), 2 := User("target", Hash("password"), Numeric(x))];
    var s := new Server(map[], FixtureCatalog(), users, 3, Session(Some(2), Some("target")));
    assert ApiCaller(s.users, s.session) == Known(2, users[2]);
    var r := s.DeleteUser(1);
    assert r == Redirect("/") && 1 !in s.users && 2 in s.users;
  }

  method NonAdminCannotChangeRole()
  {
    var regular := map[1 := Account("regular", "password", 0), 2 := Account("target2", "password", 0)];
    var t := new Server(map[], FixtureCatalog(), regular, 3, Session(Some(1), Some("regular")));
    assert ApiCaller(t.users, t.session) == Known(1, regular[1]);
    var r := t.ChangeRole(2, "5");
    assert r == Redirect("/") && t.users[2].role == Level(0);
  }

  method AdminDeletesUser()
  {
    var users := map[1 := Account("admin_del", "password", 100), 2 := Account("victim", "password", 0)];
    var s := new Server(map[], FixtureCatalog(), users, 3, Session(Some(1), Some("admin_del")));
    assert ApiCaller(s.users, s.session) == Known(1, users[1]);
    var r := s.DeleteUser(2);
    assert r == Redirect("/") && 2 !in s.users && 1 in s.users;

    var regular := map[1 := Account("regular_del", "password", 0), 2 := Account("target_del", "password", 0)];
    var t := new Server(map[], FixtureCatalog(), regular, 3, Session(Some(1), Some("regular_del")));
    assert ApiCaller(t.users, t.session) == Known(1, regular[1]);
    r := t.DeleteUser(2);
    assert 2 in t.users;
  }

  method WakeCallsService()
  {
    var users := map[1 := Account("caller", "password", 1)];
    var s := new Server(map[], FixtureCatalog(), users, 2, Session(Some(1), Some("caller")));
    assert ApiCaller(s.users, s.session) == Known(1, users[1]);
    var r, calls := s.Wake(Replied(true));
    assert r == Text("OK");
    assert calls == [Post(WakeUrl("caller"), 5)];
    assert WakeUrl("caller") == "http://server-pico_server:5000/wake/caller";

    var anonymous := new Server(map[], FixtureCatalog(), users, 2, EmptySession);
    r, calls := anonymous.Wake(Replied(true));
    assert r == Redirect("/") && calls == [];
  }

  method DisabledAuthentication()
  {
    var config := map["DISABLE_LOG_IN" := Init.Bool(true)];
    var s := new Server(config, FixtureCatalog(), map[], 1, Session(Some(1), Some("someone")));
    assert s.disableLogIn;
    var r, calls := s.Handle(IndexRequest, {}, Replied(true));
    assert s.session == EmptySession;
    r, calls := s.Handle(LoginRequest(false, "", ""), {}, Replied(true));
    assert r == Redirect("/");
    r, calls := s.Handle(SignupRequest(false, "", ""), {}, Replied(true));
    assert r == Redirect("/");
    r, calls := s.Handle(LogoutRequest, {}, Replied(true));
    assert r == Redirect("/");
  }

  method FactoryConfiguration()
  {
    var flask := map["SECRET_KEY" := Init.Null, "TESTING" := Init.Bool(false)];
    var failed := Init.CreateApp(map[], map[], "/srv/app", flask);
    assert failed == Failure("SECRET_KEY must be set before creating the app.");

    var overrides := map["SECRET_KEY" := Init.Str("override-key"), "SQLALCHEMY_DATABASE_URI" := Init.Str("sqlite://")];
    var provided := Init.CreateApp(overrides, map["SECRET_KEY" := "env-key"], "/srv/app", flask);
    assert provided.Success?;
    assert provided.value["SECRET_KEY"] == Init.Str("override-key");
    assert provided.value["SQLALCHEMY_DATABASE_URI"] == Init.Str("sqlite://");

    var fromEnv := Init.CreateApp(map[], map["SECRET_KEY" := "env-key"], "/srv/app", flask);
    assert fromEnv.Success? && fromEnv.value["SECRET_KEY"] == Init.Str("env-key");
    Init.DefaultDatabaseIsUsersDb("/srv/app", map["SECRET_KEY" := "env-key"]);
    assert Init.EndsWith(fromEnv.value["SQLALCHEMY_DATABASE_URI"].s, "users.db");
  }

  method CatalogLookup()
  {
    var projects := [("one", Project("/download/one.txt", false, 0)), ("two", Project("/download/two.txt", false, 0))];
    assert LinkFor("one.txt") == "/download/one.txt";
    assert GetProjectFromFilename("one.txt", projects) == Some(projects[0].1);
    assert LinkFor("missing.txt") != "/download/one.txt" && LinkFor("missing.txt") != "/download/two.txt";
    assert GetProjectFromFilename("missing.txt", projects) == None;
  }
}
