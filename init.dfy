/**
 * The application factory of app/init.py: reading a boolean flag from the
 * environment, choosing the session secret key, and building the
 * configuration from Flask's own defaults, the factory's defaults and an
 * optional test configuration.
 */
module Init {
  import opened Wrappers

  /** A configuration value, as far as the factory and its callers use them. */
  datatype Value =
    | Null
    | Bool(b: bool)
    | Int(i: int)
    | Str(s: string)
    | Dict(entries: map<string, Value>)

  type Config = map<string, Value>

  /** The process environment, `os.environ`. */
  type Environment = map<string, string>

  /** Python truthiness of a configuration value. */
  predicate Truthy(v: Value)
  {
    match v
    case Null => false
    case Bool(b) => b
    case Int(i) => i != 0
    case Str(s) => s != ""
    case Dict(m) => |m| > 0
  }

  /** `d.get(key)`: the value, or Python's None. */
  function Get(d: Config, key: string): Value
  {
    if key in d then d[key] else Null
  }

  /** `a or b`: the first operand when it is truthy, otherwise the second. */
  function Or(a: Value, b: Value): Value
  {
    if Truthy(a) then a else b
  }

  // ---------------------------------------------------------------------
  // _env_flag
  // ---------------------------------------------------------------------

  /** `str.lower` on one character; only ASCII letters are mapped. */
  function LowerChar(c: char): char
  {
    if 'A' <= c <= 'Z' then (c as int + 32) as char else c
  }

  /** `str.lower`, character by character. */
  function Lower(s: string): (r: string)
    ensures |r| == |s|
    ensures forall i :: 0 <= i < |s| ==> r[i] == LowerChar(s[i])
  {
    if s == [] then [] else [LowerChar(s[0])] + Lower(s[1..])
  }

  /** `os.getenv(name, default)` */
  function Getenv(env: Environment, name: string, default: string): string
  {
    if name in env then env[name] else default
  }

  /** "true" written with any mix of upper- and lower-case letters. */
  predicate SpellsTrue(s: string)
  {
    |s| == 4 && s[0] in "tT" && s[1] in "rR" && s[2] in "uU" && s[3] in "eE"
  }

  /** A text lower-cases to "true" exactly when it spells "true" in some mix of case. */
  lemma LowerIsTrue(s: string)
    ensures Lower(s) == "true" <==> SpellsTrue(s)
  {
    var l := Lower(s);
    if SpellsTrue(s) {
      assert l == "true";
    }
    if l == "true" {
      assert l[0] == 't' && l[1] == 'r' && l[2] == 'u' && l[3] == 'e';
    }
  }

  /**
   * `_env_flag(name, default)`: the variable's lower-cased value is one of
   * {"true"}; the flag is set exactly when the variable (or the default,
   * when it is unset) spells "true" in any case.
   */
  function EnvFlag(env: Environment, name: string, default: string): (b: bool)
    ensures b <==> SpellsTrue(Getenv(env, name, default))
  {
    LowerIsTrue(Getenv(env, name, default));
    Lower(Getenv(env, name, default)) in {"true"}
  }

  /** With the default "false", an absent variable leaves the flag off. */
  lemma EnvFlagAbsent(env: Environment, name: string)
    requires name !in env
    ensures !EnvFlag(env, name, "false")
  {
    assert !SpellsTrue("false");
  }

  // ---------------------------------------------------------------------
  // create_app
  // ---------------------------------------------------------------------

  const SecretKeyName := "SECRET_KEY"
  const DatabaseUriName := "SQLALCHEMY_DATABASE_URI"
  const DisableLogInName := "DISABLE_LOG_IN"
  const DefaultDatabaseUri := "sqlite:///users.db"
  const MissingSecretKey := "SECRET_KEY must be set before creating the app."

  /** `os.path.join(a, b)` on POSIX. */
  function Join(a: string, b: string): string
  {
    if |b| > 0 && b[0] == '/' then b
    else if a == [] || a[|a| - 1] == '/' then a + b
    else a + "/" + b
  }

  /** The factory's `default_config`, for an application rooted at `rootPath`. */
  function DefaultConfig(rootPath: string, env: Environment): (c: Config)
    ensures c.Keys == {DatabaseUriName, "SQLALCHEMY_TRACK_NOTIFICATIONS", "UPLOAD_FOLDER", "PROJECTS_JSON_FILE",
                       "SQLALCHEMY_SESSION_OPTIONS", DisableLogInName}
    ensures SecretKeyName !in c
    ensures c[DisableLogInName] == Bool(DisableLogInName in env && SpellsTrue(env[DisableLogInName]))
  {
    map[
      DatabaseUriName := Str(DefaultDatabaseUri),
      "SQLALCHEMY_TRACK_NOTIFICATIONS" := Bool(false),
      "UPLOAD_FOLDER" := Str(Join(Join(rootPath, "static"), "download_files")),
      "PROJECTS_JSON_FILE" := Str(Join(Join(rootPath, "instance"), "projects.json")),
      "SQLALCHEMY_SESSION_OPTIONS" := Dict(map["expire_on_commit" := Bool(false)]),
      DisableLogInName := Bool(EnvFlag(env, DisableLogInName, "false"))
    ]
  }

  /** `(test_config or {}).get("SECRET_KEY") or os.environ.get("SECRET_KEY")` */
  function SecretKeyCandidate(testConfig: Config, env: Environment): (v: Value)
    ensures Truthy(Get(testConfig, SecretKeyName)) ==> v == testConfig[SecretKeyName]
    ensures !Truthy(Get(testConfig, SecretKeyName)) && SecretKeyName in env ==> v == Str(env[SecretKeyName])
    ensures !Truthy(Get(testConfig, SecretKeyName)) && SecretKeyName !in env ==> v == Null
  {
    Or(Get(testConfig, SecretKeyName), if SecretKeyName in env then Str(env[SecretKeyName]) else Null)
  }

  /**
   * The secret key create_app settles on, or the RuntimeError it raises: a
   * truthy SECRET_KEY in the test configuration wins over the environment,
   * and an empty value anywhere counts as absent.
   */
  function ResolveSecretKey(testConfig: Config, env: Environment): (r: Result<Value, string>)
    ensures r.Failure? <==> !Truthy(Get(testConfig, SecretKeyName)) && (SecretKeyName !in env || env[SecretKeyName] == "")
    ensures r.Failure? ==> r.error == MissingSecretKey
    ensures r.Success? ==> Truthy(r.value)
    ensures Truthy(Get(testConfig, SecretKeyName)) ==> r == Success(testConfig[SecretKeyName])
    ensures !Truthy(Get(testConfig, SecretKeyName)) && r.Success? ==> SecretKeyName in env && r.value == Str(env[SecretKeyName])
  {
    var secret := SecretKeyCandidate(testConfig, env);
    if Truthy(secret) then Success(secret) else Failure(MissingSecretKey)
  }

  /**
   * create_app, as far as configuration goes: fail without a secret key,
   * then update Flask's defaults with the factory's defaults, then with the
   * test configuration, then store the secret key (Flask's `app.secret_key`
   * is the configuration entry SECRET_KEY). An absent and an empty test
   * configuration behave alike, so the empty map stands for both.
   */
  method CreateApp(testConfig: Config, env: Environment, rootPath: string, flaskDefaults: Config)
    returns (r: Result<Config, string>)
    ensures r.Failure? <==> ResolveSecretKey(testConfig, env).Failure?
    ensures r.Failure? ==> r.error == MissingSecretKey
    ensures r.Success? ==> SecretKeyName in r.value && Success(r.value[SecretKeyName]) == ResolveSecretKey(testConfig, env)
    ensures r.Success? ==>
              r.value.Keys == flaskDefaults.Keys + DefaultConfig(rootPath, env).Keys + testConfig.Keys + {SecretKeyName}
    ensures r.Success? ==>
              forall k :: k in testConfig && k != SecretKeyName ==> k in r.value && r.value[k] == testConfig[k]
    ensures r.Success? ==>
              forall k :: k in DefaultConfig(rootPath, env) && k !in testConfig ==> k in r.value && r.value[k] == DefaultConfig(rootPath, env)[k]
    ensures r.Success? ==>
              forall k :: k in flaskDefaults && k !in DefaultConfig(rootPath, env) && k !in testConfig && k != SecretKeyName ==>
                k in r.value && r.value[k] == flaskDefaults[k]
  {
    var secret := ResolveSecretKey(testConfig, env);
    if secret.Failure? {
      return Failure(secret.error);
    }
    var defaults := DefaultConfig(rootPath, env);
    var config := Configure(flaskDefaults, defaults, testConfig, secret.value);
    r := Success(config);
  }

  /**
   * The configuration steps of create_app once the secret key is known:
   * `app.config.update(default_config)`, then `app.config.update(test_config)`
   * when the test configuration is non-empty, then `app.secret_key = secret`.
   */
  method Configure(flaskDefaults: Config, defaults: Config, testConfig: Config, secret: Value)
    returns (config: Config)
    requires SecretKeyName !in defaults
    ensures config.Keys == flaskDefaults.Keys + defaults.Keys + testConfig.Keys + {SecretKeyName}
    ensures config[SecretKeyName] == secret
    ensures forall k :: k in testConfig && k != SecretKeyName ==> config[k] == testConfig[k]
    ensures forall k :: k in defaults && k !in testConfig ==> config[k] == defaults[k]
    ensures forall k :: k in flaskDefaults && k !in defaults && k !in testConfig && k != SecretKeyName ==>
              config[k] == flaskDefaults[k]
  {
    config := flaskDefaults;
    config := config + defaults;
    if |testConfig| > 0 {
      config := config + testConfig;
    } else {
      UpdateWithEmpty(config, testConfig);
    }
    MergeFacts(flaskDefaults, defaults, testConfig, SecretKeyName, secret);
    config := config[SecretKeyName := secret];
  }

  /** Updating with an empty dictionary changes nothing. */
  lemma UpdateWithEmpty(m: Config, c: Config)
    requires |c| == 0
    ensures m + c == m
  {
    assert c == map[];
  }

  /** What `a` updated with `b`, then with `c`, then with one entry `k`, holds. */
  lemma MergeFacts<K, V>(a: map<K, V>, b: map<K, V>, c: map<K, V>, k: K, v: V)
    requires k !in b
    ensures var m := (a + b + c)[k := v];
            && m.Keys == a.Keys + b.Keys + c.Keys + {k}
            && m[k] == v
            && (forall x :: x in c && x != k ==> x in m && m[x] == c[x])
            && (forall x :: x in b && x !in c ==> x in m && m[x] == b[x])
            && (forall x :: x in a && x !in b && x !in c && x != k ==> x in m && m[x] == a[x])
  {
  }

  /** `current_app.config.get("DISABLE_LOG_IN", False)`, read as a condition. */
  function LoginDisabled(config: Config): (b: bool)
    ensures b <==> Truthy(Get(config, DisableLogInName))
    ensures DisableLogInName !in config ==> !b
  {
    DisableLogInName in config && Truthy(config[DisableLogInName])
  }

  predicate EndsWith(s: string, suffix: string)
  {
    |suffix| <= |s| && s[|s| - |suffix|..] == suffix
  }

  /** Without an override, the database is the SQLite file users.db. */
  lemma DefaultDatabaseIsUsersDb(rootPath: string, env: Environment)
    ensures DatabaseUriName in DefaultConfig(rootPath, env)
    ensures var uri := DefaultConfig(rootPath, env)[DatabaseUriName];
            uri.Str? && EndsWith(uri.s, "users.db")
  {
    var prefix := "sqlite:///";
    assert DefaultDatabaseUri == prefix + "users.db";
    assert (prefix + "users.db")[|prefix|..] == "users.db";
  }

  /** Without an override, logging in is disabled exactly when the environment flag is set. */
  lemma DefaultLoginDisabled(rootPath: string, env: Environment, config: Config)
    requires DisableLogInName in config && config[DisableLogInName] == DefaultConfig(rootPath, env)[DisableLogInName]
    ensures LoginDisabled(config) <==> (DisableLogInName in env && SpellsTrue(env[DisableLogInName]))
  {
  }
}
