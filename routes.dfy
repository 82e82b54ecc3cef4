/**
 * The request handlers of app/routes.py. One Server object holds what the
 * handlers read and change: the user table, the fresh-id counter of the
 * database, the caller's session, the DISABLE_LOG_IN setting and the
 * project catalog. Each route is a method returning the response kind.
 */
module Routes {
  import opened Wrappers
  import opened Models
  import opened Utils
  import Init

  const IndexUrl := "/"
  const InvalidCredentials := "Invalid username or password!"
  const UsernameExists := "Username already exists!"
  /** The wake service address; the caller's username is appended. */
  const WakeUrlPrefix := "http://server-pico_server:5000/wake/"
  /** Seconds the wake call may take. */
  const WakeTimeout := 5
  /** `role > 99` is the administrator test. */
  const AdminThreshold := 99

  /** The two session keys the application uses, each present or absent. */
  datatype Session = Session(sessionID: Option<int>, username: Option<string>)

  const EmptySession := Session(None, None)

  /** `"sessionID" in session and "username" in session` */
  predicate LoggedIn(s: Session)
  {
    s.sessionID.Some? && s.username.Some?
  }

  datatype Form = LoginForm | SignupForm

  /** What a handler answers. ServerError is an uncaught exception, which Flask turns into status 500. */
  datatype Response =
    | Redirect(location: string)
    | Render(form: Form, error: Option<string>)
    | IndexPage(publicCount: nat, loggedIn: bool, username: string, role: Role,
                users: Table, ableToView: nat, disableLogIn: bool)
    | File(name: string)
    | NotFound
    | Text(body: string)
    | ServerError

  /** One outbound `requests.post(url, timeout=...)`. */
  datatype WakeCall = Post(url: string, timeout: int)

  /** What the wake call yields: a response with its `ok` flag, or an exception (timeout, refused connection). */
  datatype WakeOutcome = Replied(ok: bool) | Raised

  /** The routes, each with the form fields or path segment it reads. */
  datatype Request =
    | IndexRequest
    | LoginRequest(post: bool, username: string, password: string)
    | SignupRequest(post: bool, username: string, password: string)
    | LogoutRequest
    | DownloadRequest(file: string)
    | ChangeRoleRequest(id: int, role: string)
    | WakeRequest
    | DeleteUserRequest(id: int)

  /** The endpoints main.login, main.signup and main.logout. */
  predicate IsAuthEndpoint(req: Request)
  {
    req.LoginRequest? || req.SignupRequest? || req.LogoutRequest?
  }

  // ---------------------------------------------------------------------
  // The counts shown by index
  // ---------------------------------------------------------------------

  /** `sum(1 for project in projects.values() if not project["private"])` */
  function PublicCount(c: Catalog): (n: nat)
    ensures n <= |c|
  {
    if c == [] then 0 else (if c[0].1.private then 0 else 1) + PublicCount(c[1..])
  }

  /** The number of private projects. */
  function PrivateCount(c: Catalog): (n: nat)
    ensures n <= |c|
  {
    if c == [] then 0 else (if c[0].1.private then 1 else 0) + PrivateCount(c[1..])
  }

  /** `sum(1 for project in projects.values() if project["role"] <= role and project["private"])` */
  function ViewableCount(c: Catalog, role: int): (n: nat)
    ensures n <= |c|
  {
    if c == [] then 0
    else (if c[0].1.role <= role && c[0].1.private then 1 else 0) + ViewableCount(c[1..], role)
  }

  /** Every project is either public or private. */
  lemma {:induction false} CountsPartition(c: Catalog)
    ensures PublicCount(c) + PrivateCount(c) == |c|
  {
    if c != [] {
      CountsPartition(c[1..]);
    }
  }

  /** Only private projects are counted as viewable. */
  lemma {:induction false} ViewableAtMostPrivate(c: Catalog, role: int)
    ensures ViewableCount(c, role) <= PrivateCount(c)
  {
    if c != [] {
      ViewableAtMostPrivate(c[1..], role);
    }
  }

  /** A higher role never sees fewer private projects. */
  lemma {:induction false} ViewableMonotone(c: Catalog, low: int, high: int)
    requires low <= high
    ensures ViewableCount(c, low) <= ViewableCount(c, high)
  {
    if c != [] {
      ViewableMonotone(c[1..], low, high);
    }
  }

  /** A role at least every project's role sees all private projects. */
  lemma {:induction false} ViewableAboveAllRoles(c: Catalog, role: int)
    requires forall i :: 0 <= i < |c| ==> c[i].1.role <= role
    ensures ViewableCount(c, role) == PrivateCount(c)
  {
    if c != [] {
      ViewableAboveAllRoles(c[1..], role);
    }
  }

  /** When no project needs a negative role, the anonymous role -1 sees no private project. */
  lemma {:induction false} AnonymousSeesNoPrivate(c: Catalog)
    requires forall i :: 0 <= i < |c| ==> c[i].1.role >= 0
    ensures ViewableCount(c, -1) == 0
  {
    if c != [] {
      AnonymousSeesNoPrivate(c[1..]);
    }
  }

  // ---------------------------------------------------------------------
  // Who is calling
  // ---------------------------------------------------------------------

  /**
   * The result of looking the session username up in the table: no
   * username to look up, a username with no row (the handler's
   * `.first()` is None), or the row found.
   */
  datatype Caller = Anonymous | Unknown | Known(id: int, user: User)

  function Identify(t: Table, name: Option<string>): (c: Caller)
    requires UniqueNames(t)
    ensures c.Anonymous? <==> name.None?
    ensures c.Known? ==> c.id in t && t[c.id] == c.user && name == Some(c.user.username)
    ensures c.Unknown? ==> name.Some? && forall id :: id in t ==> t[id].username != name.value
  {
    match name
    case None => Anonymous
    case Some(n) =>
      match FindByName(t, n)
      case None => Unknown
      case Some(id) => Known(id, t[id])
  }

  /** index and download look the caller up only when both session keys are present. */
  function PageCaller(t: Table, s: Session): (c: Caller)
    requires UniqueNames(t)
    ensures c.Anonymous? <==> !LoggedIn(s)
    ensures c.Known? ==> c.id in t && t[c.id] == c.user && s.username == Some(c.user.username)
    ensures c.Unknown? ==> LoggedIn(s) && forall id :: id in t ==> t[id].username != s.username.value
  {
    Identify(t, if LoggedIn(s) then s.username else None)
  }

  /** change_role, wake and delete_user look the caller up whenever a username is present. */
  function ApiCaller(t: Table, s: Session): (c: Caller)
    requires UniqueNames(t)
    ensures c.Anonymous? <==> s.username.None?
    ensures c.Known? ==> c.id in t && t[c.id] == c.user && s.username == Some(c.user.username)
    ensures c.Unknown? ==> s.username.Some? && forall id :: id in t ==> t[id].username != s.username.value
  {
    Identify(t, s.username)
  }

  /**
   * The two lookups agree once both keys are present; a session with a
   * username but no sessionID is anonymous to the pages and identified by the api.
   */
  lemma CallerTestsDiffer(t: Table, s: Session)
    requires UniqueNames(t)
    ensures LoggedIn(s) ==> PageCaller(t, s) == ApiCaller(t, s)
    ensures s.username.Some? && s.sessionID.None? ==> PageCaller(t, s).Anonymous? && !ApiCaller(t, s).Anonymous?
  {
  }

  /** The caller passes `user.role > threshold`. */
  ghost predicate ApiAuthorized(t: Table, s: Session, threshold: int)
    requires UniqueNames(t)
  {
    var c := ApiCaller(t, s);
    c.Known? && Above(c.user.role, threshold) == Some(true)
  }

  /** The api handler raises: the username has no row, or the row's role is text. */
  ghost predicate ApiCrashes(t: Table, s: Session)
    requires UniqueNames(t)
  {
    var c := ApiCaller(t, s);
    c.Unknown? || (c.Known? && c.user.role.Textual?)
  }

  /** download's test `logged_in and role >= project["role"]` holds. */
  ghost predicate MayDownload(t: Table, s: Session, c: Catalog, file: string)
    requires UniqueNames(t)
  {
    var caller := PageCaller(t, s);
    var p := GetProjectFromFilename(file, c);
    caller.Known? && p.Some? && AtLeast(caller.user.role, p.value.role) == Some(true)
  }

  /** download raises: no row for the username, no project for the file (`None["role"]`), or a text role. */
  ghost predicate DownloadCrashes(t: Table, s: Session, c: Catalog, file: string)
    requires UniqueNames(t)
  {
    var caller := PageCaller(t, s);
    caller.Unknown? || (caller.Known? && (GetProjectFromFilename(file, c).None? || caller.user.role.Textual?))
  }

  /** Some row has this username and accepts this password. */
  ghost predicate CredentialsMatch(t: Table, name: string, password: string)
  {
    exists id :: id in t && t[id].username == name && Check(t[id].passwordHash, password)
  }

  /** A stored account never accepts a password other than the one it was created with. */
  lemma WrongPasswordRejected(t: Table, id: int, p: string, q: string)
    requires UniqueNames(t) && id in t && t[id].passwordHash == Hash(p) && q != p
    ensures !CredentialsMatch(t, t[id].username, q)
  {
    forall j | j in t && t[j].username == t[id].username
      ensures !Check(t[j].passwordHash, q)
    {
      assert j == id;
      CheckHash(p, q);
    }
  }

  /** The URL the wake call posts to. */
  function WakeUrl(username: string): string
  {
    WakeUrlPrefix + username
  }

  class Server {
    var users: Table
    /** A key larger than every id in use: where the database puts the next row. */
    var nextId: int
    var session: Session
    const disableLogIn: bool
    const catalog: Catalog

    ghost predicate Valid()
      reads this
    {
      UniqueNames(users) && forall id :: id in users ==> id < nextId
    }

    /** The state at the start of a request: the configuration, the catalog, the stored rows and the cookie. */
    constructor (config: Init.Config, catalog: Catalog, users: Table, nextId: int, session: Session)
      requires UniqueNames(users) && forall id :: id in users ==> id < nextId
      ensures Valid()
      ensures this.users == users && this.nextId == nextId && this.session == session
      ensures this.catalog == catalog && disableLogIn == Init.LoginDisabled(config)
    {
      this.users := users;
      this.nextId := nextId;
      this.session := session;
      this.catalog := catalog;
      disableLogIn := Init.LoginDisabled(config);
    }

    /**
     * enforce_disabled_authentication, run before every request. With
     * DISABLE_LOG_IN it empties the session and turns the login, signup and
     * logout endpoints into a redirect to the index; without it, nothing
     * happens. None lets the request go on to its handler.
     */
    method EnforceDisabledAuthentication(req: Request) returns (r: Option<Response>)
      requires Valid()
      modifies this`session
      ensures Valid()
      ensures !disableLogIn ==> r == None && session == old(session)
      ensures disableLogIn ==> session == EmptySession
      ensures disableLogIn ==> r == if IsAuthEndpoint(req) then Some(Redirect(IndexUrl)) else None
    {
      if !disableLogIn {
        return None;
      }
      if session != EmptySession {
        session := EmptySession;
      }
      if IsAuthEndpoint(req) {
        return Some(Redirect(IndexUrl));
      }
      return None;
    }

    /**
     * index: the public count, the caller's role (-1 unless both session
     * keys are present) and the number of private projects that role may
     * view, with the user list for a logged-in caller. A real role sees what
     * its rank sees (the contract of AtLeast).
     */
    method Index() returns (r: Response)
      requires Valid()
      ensures !LoggedIn(session) ==>
                r == IndexPage(PublicCount(catalog), false, if session.username.Some? then session.username.value else "",
                               Level(-1), map[], ViewableCount(catalog, -1), disableLogIn)
      ensures PageCaller(users, session).Unknown? ==> r == ServerError
      ensures var c := PageCaller(users, session);
              c.Known? && !c.user.role.Textual? ==>
                r == IndexPage(PublicCount(catalog), true, c.user.username, c.user.role, users,
                               ViewableCount(catalog, Rank(c.user.role)), disableLogIn)
      ensures var c := PageCaller(users, session);
              c.Known? && c.user.role.Textual? ==>
                r == if catalog == [] then IndexPage(0, true, c.user.username, c.user.role, users, 0, disableLogIn)
                     else ServerError
    {
      var publicCount := PublicCount(catalog);
      var loggedIn := LoggedIn(session);
      var role: Role;
      if loggedIn {
        var found := FindByName(users, session.username.value);
        if found.None? {
          return ServerError;
        }
        role := users[found.value].role;
      } else {
        role := Level(-1);
      }
      var ableToView: nat;
      match role {
        case Level(k) =>
          ableToView := ViewableCount(catalog, k);
        case Numeric(x) =>
          // `project["role"] <= x` holds for an integer project role exactly when it is at most the floor of x
          ableToView := ViewableCount(catalog, x.Floor);
        case Textual(_) =>
          if catalog != [] {
            return ServerError;
          }
          ableToView := 0;
      }
      var listed := if loggedIn then users else map[];
      var name := if session.username.Some? then session.username.value else "";
      r := IndexPage(publicCount, loggedIn, name, role, listed, ableToView, disableLogIn);
    }

    /**
     * login: on POST, sign in when a row with the username accepts the
     * password; otherwise show the generic error. A GET shows an empty form.
     */
    method Login(post: bool, username: string, password: string) returns (r: Response)
      requires Valid()
      modifies this`session
      ensures Valid()
      ensures disableLogIn ==> r == Redirect(IndexUrl) && session == old(session)
      ensures !disableLogIn && !post ==> r == Render(LoginForm, Some("")) && session == old(session)
      ensures !disableLogIn && post ==> (r == Redirect(IndexUrl) <==> CredentialsMatch(users, username, password))
      ensures !disableLogIn && post && CredentialsMatch(users, username, password) ==>
                var id := FindByName(users, username).value;
                session == Session(Some(id), Some(username))
      ensures !disableLogIn && post && !CredentialsMatch(users, username, password) ==>
                r == Render(LoginForm, Some(InvalidCredentials)) && session == old(session)
    {
      if disableLogIn {
        return Redirect(IndexUrl);
      }
      if post {
        var found := FindByName(users, username);
        if found.Some? && Check(users[found.value].passwordHash, password) {
          session := Session(Some(found.value), Some(username));
          return Redirect(IndexUrl);
        }
        return Render(LoginForm, Some(InvalidCredentials));
      }
      return Render(LoginForm, Some(""));
    }

    /**
     * signup: on POST, refuse a username already in the table; otherwise add
     * one row with role 0 under a fresh id and sign the new user in.
     */
    method Signup(post: bool, username: string, password: string) returns (r: Response)
      requires Valid()
      modifies this
      ensures Valid()
      ensures disableLogIn || !post || FindByName(old(users), username).Some? ==>
                users == old(users) && nextId == old(nextId) && session == old(session)
      ensures disableLogIn ==> r == Redirect(IndexUrl)
      ensures !disableLogIn && !post ==> r == Render(SignupForm, None)
      ensures !disableLogIn && post && FindByName(old(users), username).Some? ==>
                r == Render(SignupForm, Some(UsernameExists))
      ensures !disableLogIn && post && FindByName(old(users), username).None? ==>
                && r == Redirect(IndexUrl)
                && old(nextId) !in old(users)
                && users == old(users)[old(nextId) := User(username, Hash(password), Level(0))]
                && |users| == |old(users)| + 1
                && session == Session(Some(old(nextId)), Some(username))
                && FindByName(users, username) == Some(old(nextId))
    {
      if disableLogIn {
        return Redirect(IndexUrl);
      }
      if post {
        if FindByName(users, username).Some? {
          return Render(SignupForm, Some(UsernameExists));
        }
        var id := nextId;
        var added := users[id := User(username, Hash(password), Level(0))];
        forall i, j | i in added && j in added && added[i].username == added[j].username
          ensures i == j
        {
          if i != id && j != id {
            assert added[i] == users[i] && added[j] == users[j];
          }
        }
        assert added[id].username == username;
        assert FindByName(added, username) == Some(id);
        users := added;
        nextId := nextId + 1;
        session := Session(Some(id), Some(username));
        return Redirect(IndexUrl);
      }
      return Render(SignupForm, None);
    }

    /** logout: empty the session, whatever it held, and go to the index. */
    method Logout() returns (r: Response)
      requires Valid()
      modifies this`session
      ensures Valid()
      ensures session == EmptySession && r == Redirect(IndexUrl)
    {
      session := EmptySession;
      return Redirect(IndexUrl);
    }

    /**
     * download: serve the file when the caller is logged in with a role at
     * least the project's; a permitted but missing file is NotFound, and
     * every refusal is a redirect. The table and the session are only read.
     * `files` is the set of names present in the download directory.
     */
    method Download(file: string, files: set<string>) returns (r: Response)
      requires Valid()
      ensures r.File? <==> MayDownload(users, session, catalog, file) && file in files
      ensures r.File? ==> r.name == file
      ensures r.NotFound? <==> MayDownload(users, session, catalog, file) && file !in files
      ensures r.ServerError? <==> DownloadCrashes(users, session, catalog, file)
      ensures !MayDownload(users, session, catalog, file) && !DownloadCrashes(users, session, catalog, file) ==>
                r == Redirect(IndexUrl)
    {
      var project := GetProjectFromFilename(file, catalog);
      var loggedIn := LoggedIn(session);
      var role: Role;
      if loggedIn {
        var found := FindByName(users, session.username.value);
        if found.None? {
          return ServerError;
        }
        role := users[found.value].role;
      } else {
        role := Level(-1);
      }
      if loggedIn {
        if project.None? {
          return ServerError;
        }
        var permitted := AtLeast(role, project.value.role);
        if permitted.None? {
          return ServerError;
        }
        if permitted.value {
          if file in files {
            return File(file);
          }
          return NotFound;
        }
      }
      return Redirect(IndexUrl);
    }

    /**
     * change_role: an administrator (role > 99) sets the role of the row
     * with the given id, if there is one, to the form's role text as the
     * database stores it. The answer is always the redirect, unless the
     * caller's own lookup raises.
     */
    method ChangeRole(targetId: int, roleText: string) returns (r: Response)
      requires Valid()
      modifies this`users
      ensures Valid()
      ensures r == if ApiCrashes(old(users), session) then ServerError else Redirect(IndexUrl)
      ensures ApiAuthorized(old(users), session, AdminThreshold) && targetId in old(users) ==>
                users == old(users)[targetId := old(users)[targetId].(role := StoredRole(roleText))]
      ensures !(ApiAuthorized(old(users), session, AdminThreshold) && targetId in old(users)) ==> users == old(users)
      ensures users.Keys == old(users).Keys
      ensures forall id :: id in users && id != targetId ==> users[id] == old(users)[id]
    {
      if session.username.Some? {
        var found := FindByName(users, session.username.value);
        if found.None? {
          return ServerError;
        }
        var admin := Above(users[found.value].role, AdminThreshold);
        if admin.None? {
          return ServerError;
        }
        if admin.value && targetId in users {
          UniqueAfterRoleChange(users, targetId, StoredRole(roleText));
          users := users[targetId := users[targetId].(role := StoredRole(roleText))];
        }
      }
      return Redirect(IndexUrl);
    }

    /**
     * wake: a caller whose row has role > -1 triggers one POST to the wake
     * service for their username, with timeout 5; "OK" when the service
     * answers ok, the redirect otherwise. `remote` is what the call yields.
     */
    method Wake(remote: WakeOutcome) returns (r: Response, calls: seq<WakeCall>)
      requires Valid()
      ensures ApiAuthorized(users, session, -1) ==> calls == [Post(WakeUrl(session.username.value), WakeTimeout)]
      ensures !ApiAuthorized(users, session, -1) ==> calls == []
      ensures r == Text("OK") <==> ApiAuthorized(users, session, -1) && remote == Replied(true)
      ensures r.ServerError? <==> ApiCrashes(users, session) || (ApiAuthorized(users, session, -1) && remote.Raised?)
      ensures r != Text("OK") && !r.ServerError? ==> r == Redirect(IndexUrl)
    {
      calls := [];
      if session.username.Some? {
        var found := FindByName(users, session.username.value);
        if found.None? {
          return ServerError, calls;
        }
        var allowed := Above(users[found.value].role, -1);
        if allowed.None? {
          return ServerError, calls;
        }
        if allowed.value {
          calls := [Post(WakeUrl(session.username.value), WakeTimeout)];
          match remote {
            case Raised =>
              return ServerError, calls;
            case Replied(ok) =>
              if ok {
                return Text("OK"), calls;
              }
          }
        }
      }
      return Redirect(IndexUrl), calls;
    }

    /**
     * delete_user: an administrator (role > 99) removes the row with the
     * given id, if there is one. The answer is always the redirect, unless
     * the caller's own lookup raises.
     */
    method DeleteUser(targetId: int) returns (r: Response)
      requires Valid()
      modifies this`users
      ensures Valid()
      ensures r == if ApiCrashes(old(users), session) then ServerError else Redirect(IndexUrl)
      ensures ApiAuthorized(old(users), session, AdminThreshold) ==> users == old(users) - {targetId}
      ensures !ApiAuthorized(old(users), session, AdminThreshold) ==> users == old(users)
      ensures forall id :: id in old(users) && id != targetId ==> id in users && users[id] == old(users)[id]
    {
      if session.username.Some? {
        var found := FindByName(users, session.username.value);
        if found.None? {
          return ServerError;
        }
        var admin := Above(users[found.value].role, AdminThreshold);
        if admin.None? {
          return ServerError;
        }
        if admin.value && targetId in users {
          users := users - {targetId};
        }
      }
      return Redirect(IndexUrl);
    }

    /**
     * One request: the before-request hook, then the route's handler.
     * `files` and `remote` stand for the download directory and the wake
     * service.
     */
    method Handle(req: Request, files: set<string>, remote: WakeOutcome) returns (r: Response, calls: seq<WakeCall>)
      requires Valid()
      modifies this
      ensures Valid()
      ensures disableLogIn ==> session == EmptySession && users == old(users) && calls == []
      ensures disableLogIn && !req.IndexRequest? ==> r == Redirect(IndexUrl)
      ensures disableLogIn && req.IndexRequest? ==> r.IndexPage? && !r.loggedIn && r.role == Level(-1)
    {
      calls := [];
      var early := EnforceDisabledAuthentication(req);
      if early.Some? {
        return early.value, calls;
      }
      match req {
        case IndexRequest => r := Index();
        case LoginRequest(post, name, password) => r := Login(post, name, password);
        case SignupRequest(post, name, password) => r := Signup(post, name, password);
        case LogoutRequest => r := Logout();
        case DownloadRequest(file) => r := Download(file, files);
        case ChangeRoleRequest(id, role) => r := ChangeRole(id, role);
        case WakeRequest => r, calls := Wake(remote);
        case DeleteUserRequest(id) => r := DeleteUser(id);
      }
    }
  }
}
