# subweb: request authorization and account state, in Dafny

subweb is a small Flask application. Users sign up, log in and log out. A
read-only catalog of projects is listed on the index page with role-scoped
counts. File downloads are gated by a numeric role. Administrators (role
above 99) can change another user's role or delete a user. Any logged-in
user can ask a remote service to wake up. A deployment flag,
`DISABLE_LOG_IN`, switches the whole authentication layer off.

This project models that core:

- `Models` (`models.dfy`): the user table (app/models.py). A row holds a
  username, a password hash and the role column. The username is unique.
  The module also looks rows up by username and says how the database
  stores a role written as form text.
- `Utils` (`utils.dfy`): the catalog entry and `get_project_from_filename`
  (app/utils.py).
- `Init` (`init.dfy`): the application factory (app/init.py). It covers the
  boolean environment flag, choosing the secret key and the RuntimeError
  without one, and building the configuration from Flask's defaults, the
  factory's defaults and a test configuration.
- `Routes` (`routes.dfy`): the handlers of app/routes.py. They are methods
  of a `Server` class. Its fields are the user table, the next free row id,
  the session (`sessionID` and `username`, each present or absent), the
  `DISABLE_LOG_IN` setting and the catalog. Each handler returns a
  `Response`: a redirect, a rendered form with its error, the index page
  with its counts, a file, NotFound, a text body, or `ServerError`. The
  handler source has no guard against some exceptions, and `ServerError`
  stands for the status 500 those uncaught exceptions become. `Handle`
  runs the before-request hook and then the route.
- `Scenarios` (`scenarios.dfy`): the situations in tests/test_routes.py,
  tests/test_init.py and tests/test_utils.py. Each one is a client method
  whose assertions follow from the contracts above and, for the counts and
  lookups over the fixture catalog, from the definitions of those functions.
- `Wrappers` (`wrappers.dfy`): Option and Result.

Three outside pieces are parameters of the model:

- The set of files in the download directory is the `files` argument of
  `Download`.
- The outcome of the wake call is the `remote` argument of `Wake`: a reply
  with its `ok` flag, or an exception.
- The process environment, Flask's default configuration and the
  application's root path are arguments of `CreateApp`.

Password hashing is a stand-in. It satisfies `Check(Hash(p), q) <==> p ==
q` (lemma `CheckHash`), and nothing else about it is used.

Behaviour of the code that is easy to miss, which the model keeps:

- The wake docstring (app/routes.py:188-192) says the timeout is there to
  prevent hanging indefinitely, but the handler does not catch the timeout.
  Only a reply with `ok` false falls back to the redirect. An exception from
  `requests.post` propagates, so `Wake` gives `ServerError`.
- The `User` class documents the role as `role (int)` (app/models.py:15)
  and the column is declared INTEGER (app/models.py:21), but `change_role`
  stores the raw form text (app/routes.py:181). SQLite's integer affinity
  turns a decimal literal with an integral value into an integer and any
  other decimal literal, such as "100.5", into a REAL, which Python compares
  by value. Other text stays text, apart from the forms listed in
  the "Left out" section, and every later `role > n` comparison on it raises
  TypeError. `Role` therefore has three cases: `Level`, `Numeric` and
  `Textual`. A role of "100.5" makes its holder an administrator.
- The handlers do not check that the session's username still has a row.
  When it has none, `.first().role` raises, and the model gives
  `ServerError`.
- `change_role`, `wake` and `delete_user` test only for `username` in the
  session. `index` and `download` need both `sessionID` and `username`.
  `ApiCaller` and `PageCaller` keep these two tests apart.

## Model

| member | source | states |
|---|---|---|
| `Models.CheckHash` | app/models.py:23-42 | a stored hash accepts exactly the password it was made from |
| `Models.FindByName` | app/routes.py:96 | with unique usernames, the lookup gives the one row with that name, and is None exactly when no row has it |
| `Models.UniqueAfterRoleChange` | app/routes.py:179-182 | overwriting one row's role keeps usernames unique |
| `Models.Above` | app/routes.py:178 | `role > n` against an integer: TypeError (None) exactly when the role is text; an integer role passes when it exceeds n, a real role with a fractional part already when its floor reaches n (99.5 passes `> 99`, 99 does not) |
| `Models.AtLeast` | app/routes.py:161 | `role >= n` against an integer: TypeError (None) exactly when the role is text; otherwise any numeric role compares as its floor does, which is why the index counts for a real role are those of its floor (app/routes.py:64) |
| `Models.ParseLiteral` | app/routes.py:181 | a parsed literal is well formed (optional sign, digits around an optional point, at least one digit) and spells exactly the text it was read from |
| `Models.SpellParses` | app/routes.py:181 | every well-formed literal is read back from its text, so the parse misses no literal (the round trip) |
| `Models.StoredRole` | app/routes.py:181 | the column keeps the text exactly when it is no decimal literal; otherwise it holds the literal's exact value, as an integer when that value is integral and as a real when it is not |
| `Models.DecimalStoresLevel` | app/routes.py:181 | a role sent as the decimal text of n is stored as the integer n (the form round trip) |
| `Models.HalfStoresNumeric` | app/routes.py:181 | a role sent as n followed by ".5", such as "100.5", is stored as the real n + 0.5 and not as text |
| `Models.StoredAbove` | app/routes.py:178-181 | for a role stored from a numeric literal, `role > n` holds exactly when the literal's value exceeds n: "100.5" and "100" pass the administrator test, "99" and "99.0" do not |
| `Utils.GetProjectFromFilename` | app/utils.py:5-8 | None exactly when no entry's link is "/download/" + file; otherwise the result has that link and is the value of the first entry that has it |
| `Utils.LookupUnique` | app/utils.py:5-8 | when download links are unique, the lookup returns the one entry with the file's link |
| `Init.Lower` | app/init.py:19 | lower-casing keeps the length and lower-cases each character |
| `Init.LowerIsTrue` | app/init.py:19 | a text lower-cases to "true" exactly when it spells "true" in some mix of case |
| `Init.EnvFlag` | app/init.py:13-19 | the flag is true exactly when the variable, or the default when it is unset, spells "true" in any mix of case |
| `Init.EnvFlagAbsent` | app/init.py:13-19 | an unset variable gives false under the default "false" |
| `Init.SecretKeyCandidate` | app/init.py:29 | a truthy test-configuration SECRET_KEY; failing that the environment's SECRET_KEY, even an empty one; failing that None |
| `Init.ResolveSecretKey` | app/init.py:29-31 | RuntimeError exactly when neither the test configuration nor the environment gives a truthy key; a truthy test-configuration key wins; an empty string counts as absent |
| `Init.CreateApp` | app/init.py:29-44 | fails exactly when the secret key cannot be resolved; otherwise SECRET_KEY is the resolved key, and the keys are those of Flask's defaults, the factory's defaults and the test configuration; test-configuration entries override, and untouched defaults survive |
| `Init.Configure` | app/init.py:41-44 | the update order: test configuration over factory defaults over Flask defaults, then the secret key |
| `Init.DefaultConfig` | app/init.py:33-40 | exactly the six default keys, no SECRET_KEY among them, and DISABLE_LOG_IN set exactly when the environment variable spells "true" |
| `Init.DefaultDatabaseIsUsersDb` | app/init.py:33-34 | the default database URI ends with users.db |
| `Init.LoginDisabled` | app/routes.py:30 | `config.get("DISABLE_LOG_IN", False)` as a condition: the entry's truthiness, and false when the entry is absent |
| `Init.DefaultLoginDisabled` | app/init.py:39 | without an override, login is disabled exactly when DISABLE_LOG_IN spells "true" |
| `Routes.PublicCount` | app/routes.py:51-53 | the public count never exceeds the catalog size |
| `Routes.PrivateCount` | app/routes.py:61-65 | the private count never exceeds the catalog size |
| `Routes.ViewableCount` | app/routes.py:61-65 | the count of private projects whose role is at most the caller's, never more than the catalog size; the lemmas below bound it further |
| `Routes.CountsPartition` | app/routes.py:51-53 | public and private counts add up to the catalog size |
| `Routes.ViewableAtMostPrivate` | app/routes.py:61-65 | the viewable count is at most the number of private projects |
| `Routes.ViewableMonotone` | app/routes.py:61-65 | a higher role never sees fewer private projects |
| `Routes.ViewableAboveAllRoles` | app/routes.py:61-65 | a role at least every project's role sees every private project |
| `Routes.AnonymousSeesNoPrivate` | app/routes.py:56-65 | role -1 sees no private project when no project needs a negative role |
| `Routes.Identify` | app/routes.py:56-57 | the caller is anonymous exactly without a username; a found row carries that username; "unknown" means no row has it |
| `Routes.PageCaller` | app/routes.py:55-57 | index and download: anonymous exactly unless both session keys are present; a found row carries the session's username; "unknown" means no row has it |
| `Routes.ApiCaller` | app/routes.py:176-177 | change_role, wake and delete_user: anonymous exactly without a username, whatever sessionID holds; a found row carries that username |
| `Routes.CallerTestsDiffer` | app/routes.py:55-57 | the two lookups agree when both keys are present, and differ on a session with a username but no sessionID |
| `Routes.WrongPasswordRejected` | app/routes.py:96-97 | no stored account accepts a password other than its own |
| `Routes.Server.constructor` | app/routes.py:30 | the handlers' DISABLE_LOG_IN is the truthiness of that configuration entry; the table invariant holds |
| `Routes.Server.EnforceDisabledAuthentication` | app/routes.py:27-39 | with the flag: the session is emptied, and login, signup and logout become a redirect to "/"; without it: nothing changes and the request goes on |
| `Routes.Server.Index` | app/routes.py:42-79 | public count; role -1 unless both session keys are present; viewable private count for the caller's role (for a real role, that of its floor); users listed only when logged in; a missing row or a text role over a non-empty catalog raises |
| `Routes.Server.Login` | app/routes.py:82-103 | on POST, a redirect exactly when some row has the username and accepts the password, and then the session holds that row's id and name; otherwise the generic error and an unchanged session |
| `Routes.Server.Signup` | app/routes.py:106-132 | an existing username renders "Username already exists!" and changes nothing; otherwise exactly one row is added under a fresh id with role 0, the session is set to it, and usernames stay unique |
| `Routes.Server.Logout` | app/routes.py:135-141 | the session is empty afterwards, whatever it held, and the answer is the redirect |
| `Routes.Server.Download` | app/routes.py:144-168 | the file only when logged in with role at least the project's and the file present; NotFound when permitted but absent; ServerError for a missing row, an unknown file while logged in, or a text role; otherwise the redirect; table and session unchanged |
| `Routes.Server.ChangeRole` | app/routes.py:171-183 | the table changes only when the caller's role is above 99 and the target exists, and then only the target's role; the answer is the redirect unless the caller's own lookup raises |
| `Routes.Server.Wake` | app/routes.py:186-201 | one POST to ".../wake/<username>" with timeout 5 exactly when the caller's role is above -1; "OK" exactly when that call replies ok; an exception from the call or the lookup raises; otherwise the redirect |
| `Routes.Server.DeleteUser` | app/routes.py:204-216 | the table changes only when the caller's role is above 99, and then only the target row goes; the answer is the redirect unless the caller's own lookup raises |
| `Routes.Server.Handle` | app/routes.py:27-39 | with DISABLE_LOG_IN every request leaves the session empty and the table unchanged, makes no wake call, and answers with the redirect (or an anonymous index page) |

## Left out

- `load_projects` (app/utils.py:10-12): reading and parsing the JSON file is I/O. The catalog is a constant sequence of `(name, project)` entries in the dictionary's iteration order. It is read afresh on each request in the source, but the model cannot observe a concurrent rewrite.
- Project `title` and `description` are left out, because they only reach the templates.
- Template rendering, `url_for`, cookie signing and autoescaping are left out. A response keeps only its kind, the error string and the index page's values.
- A missing form field raises a 400 error in Flask. This is not modelled: the fields are method arguments.
- The `id` form field of change_role and delete_user arrives as text and is compared to the integer key. The model takes it as an integer.
- SQLAlchemy sessions, commits, transactions and `db.create_all` are left out. The table is an in-memory map, and a handler either completes or raises before its commit.
- Which fresh id the database picks is not modelled. Signup uses a counter above every id in use, so the new id is fresh. SQLite's actual choice (one more than the largest rowid) is one such fresh id.
- The username length limit of String(25) is not modelled. SQLite does not enforce it.
- `Models.StoredRole`: only a sign, digits and an optional decimal point count as a literal. SQLite also converts literals with surrounding spaces or an exponent, such as "1e-3"; the model keeps these as text, so a later comparison on them gives `ServerError` where the source compares numerically.
- `Models.StoredRole`: values are exact. SQLite rounds a real literal to a double, so a literal with more digits than a double holds may compare differently in the source. An integer beyond 64 bits is stored by SQLite as a rounded REAL; the model keeps the exact `Level(n)`, which compares the same against the small integer bounds the handlers use.
- `Init.Lower` maps only the ASCII letters A-Z, while Python's `str.lower` also maps other letters. For `_env_flag` this makes no difference, because no other character lower-cases to t, r, u or e.
- The werkzeug password hash (salt, iterations, one-wayness) is not modelled. Only its check law is kept.
- `send_from_directory`'s path-safety rules and the hard-coded directory (app/routes.py:164) are not modelled. A file is served exactly when its name is in the `files` set.
- The wake call's network behaviour is not modelled. Only the URL, the timeout, and whether it replied ok or raised are kept.
- Other keys of the Flask session are left out. The model's session has only `sessionID` and `username`, and "clearing" empties both.
- create_app's blueprint registration, Jinja setup, `db.init_app` and `db.create_all` (app/init.py:46-56) are left out, because they do not affect configuration or authorization.
- app/main.py and server start-up are left out.
- Concurrent requests are left out. Handlers run one at a time.
