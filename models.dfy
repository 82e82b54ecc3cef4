/**
 * The user table of app/models.py: one row per account, keyed by the
 * database-assigned integer id, with a unique username, a password hash and
 * an integer role column.
 */
module Models {
  import opened Wrappers

  /**
   * The value held in the role column. The column is declared INTEGER, and
   * signup and the fixtures store integers, but change_role writes the raw
   * text of a form field. SQLite's integer affinity stores a decimal literal
   * with an integral value as an integer and any other decimal literal as a
   * REAL, which comes back to Python as a float; text that is not a numeric
   * literal stays text and comes back as a string.
   */
  datatype Role = Level(n: int) | Numeric(x: real) | Textual(s: string)

  /**
   * Stand-in for a salted werkzeug hash. Only the law proved in CheckHash
   * is relied on anywhere in the model; the one-way, salted encoding is not
   * modelled.
   */
  datatype PasswordHash = Digest(secret: string)

  /** generate_password_hash */
  function Hash(password: string): PasswordHash
  {
    Digest(password)
  }

  /** check_password_hash */
  function Check(h: PasswordHash, password: string): bool
  {
    h.secret == password
  }

  /** The one property the application relies on: a hash accepts exactly its own password. */
  lemma CheckHash(p: string, q: string)
    ensures Check(Hash(p), q) <==> p == q
  {
  }

  datatype User = User(username: string, passwordHash: PasswordHash, role: Role)

  /** The user table, from primary key to row. */
  type Table = map<int, User>

  /** The UNIQUE constraint on the username column. */
  ghost predicate UniqueNames(t: Table)
  {
    forall i, j :: i in t && j in t && t[i].username == t[j].username ==> i == j
  }

  /**
   * `User.query.filter_by(username=name).first()`, giving the row's id.
   * Because usernames are unique, "first" is the only match.
   */
  function FindByName(t: Table, name: string): (r: Option<int>)
    requires UniqueNames(t)
    ensures r.Some? ==> r.value in t && t[r.value].username == name
    ensures r.None? <==> forall id :: id in t ==> t[id].username != name
  {
    if exists id :: id in t && t[id].username == name then
      var id :| id in t && t[id].username == name;
      Some(id)
    else
      None
  }

  /** Changing a role keeps usernames unique. */
  lemma UniqueAfterRoleChange(t: Table, id: int, role: Role)
    requires UniqueNames(t) && id in t
    ensures UniqueNames(t[id := t[id].(role := role)])
  {
    var t' := t[id := t[id].(role := role)];
    forall i, j | i in t' && j in t' && t'[i].username == t'[j].username
      ensures i == j
    {
      assert t'[i].username == t[i].username && t'[j].username == t[j].username;
    }
  }

  // ---------------------------------------------------------------------
  // Python comparisons against the role column
  // ---------------------------------------------------------------------

  /** The largest integer not above a numeric role. */
  function Rank(r: Role): int
    requires !r.Textual?
  {
    match r
    case Level(k) => k
    case Numeric(x) => x.Floor
  }

  /**
   * `role > n` in Python 3: text raises TypeError (None). Against an integer
   * bound, an integer role passes when it exceeds it, and a real role with a
   * fractional part passes already when its floor reaches it: 99.5 passes
   * `> 99`, the integer 99 does not.
   */
  function Above(r: Role, n: int): (b: Option<bool>)
    ensures b.None? <==> r.Textual?
    ensures r.Level? ==> b == Some(Rank(r) > n)
    ensures r.Numeric? ==> b == Some(if IsIntegral(r.x) then Rank(r) > n else Rank(r) >= n)
  {
    match r
    case Level(k) => Some(k > n)
    case Numeric(x) => Some(x > n as real)
    case Textual(_) => None
  }

  /**
   * `role >= n` (equivalently `n <= role`) in Python 3: None when the role is
   * text. Against an integer bound, any numeric role compares as its floor
   * does: 5.5 passes `>= 5` and fails `>= 6` like the integer 5.
   */
  function AtLeast(r: Role, n: int): (b: Option<bool>)
    ensures b.None? <==> r.Textual?
    ensures !r.Textual? ==> b == Some(Rank(r) >= n)
  {
    match r
    case Level(k) => Some(k >= n)
    case Numeric(x) => Some(x >= n as real)
    case Textual(_) => None
  }

  // ---------------------------------------------------------------------
  // Storing form text in the INTEGER role column
  // ---------------------------------------------------------------------

  predicate IsDigit(c: char)
  {
    '0' <= c <= '9'
  }

  predicate AllDigits(s: string)
  {
    forall i :: 0 <= i < |s| ==> IsDigit(s[i])
  }

  /** The value of a string of decimal digits. */
  function DigitsValue(s: string): (n: nat)
    requires AllDigits(s)
  {
    if s == [] then 0 else DigitsValue(s[..|s| - 1]) * 10 + (s[|s| - 1] as int - '0' as int)
  }

  /** Ten to the power k. */
  function Pow10(k: nat): (p: nat)
    ensures p >= 1
  {
    if k == 0 then 1 else 10 * Pow10(k - 1)
  }

  /** The optional sign in front of a literal. */
  datatype Sign = NoSign | Plus | Minus

  function SignText(sign: Sign): string
  {
    match sign
    case NoSign => ""
    case Plus => "+"
    case Minus => "-"
  }

  /**
   * A decimal literal as SQLite reads one: an optional sign, the digits
   * before the point and, when there is a point, the digits after it.
   */
  datatype Literal = Literal(sign: Sign, whole: string, fraction: Option<string>)

  /** The digits after the point, empty without a point. */
  function FractionDigits(lit: Literal): string
  {
    if lit.fraction.Some? then lit.fraction.value else ""
  }

  /** Digits on both sides of the point, and at least one digit. */
  predicate WellFormed(lit: Literal)
  {
    AllDigits(lit.whole) && AllDigits(FractionDigits(lit)) && |lit.whole| + |FractionDigits(lit)| > 0
  }

  /** The text after the sign: the digits, and the point with its digits when there is one. */
  function Unsigned(lit: Literal): string
  {
    lit.whole + (if lit.fraction.Some? then "." + lit.fraction.value else "")
  }

  /** The text of a literal. */
  function Spell(lit: Literal): string
  {
    SignText(lit.sign) + Unsigned(lit)
  }

  /** The exact value a literal denotes. */
  function LiteralValue(lit: Literal): real
    requires AllDigits(lit.whole) && AllDigits(FractionDigits(lit))
  {
    var f := FractionDigits(lit);
    var magnitude := DigitsValue(lit.whole) as real + DigitsValue(f) as real / Pow10(|f|) as real;
    if lit.sign == Minus then -magnitude else magnitude
  }

  /** The text before the first '.', and the text after it when there is one. */
  function SplitAtDot(u: string): (r: (string, Option<string>))
    ensures '.' !in r.0
    ensures u == r.0 + (if r.1.Some? then "." + r.1.value else "")
  {
    if u == [] then ([], None)
    else if u[0] == '.' then ([], Some(u[1..]))
    else
      var rest := SplitAtDot(u[1..]);
      assert u == [u[0]] + u[1..];
      ([u[0]] + rest.0, rest.1)
  }

  /** Splitting text with no '.' before the point gives back the two parts. */
  lemma {:induction false} SplitAtFirstDot(w: string, tail: Option<string>)
    requires '.' !in w
    ensures SplitAtDot(w + (if tail.Some? then "." + tail.value else "")) == (w, tail)
  {
    var u := w + (if tail.Some? then "." + tail.value else "");
    if w != [] {
      assert u[0] == w[0] && u[1..] == w[1..] + (if tail.Some? then "." + tail.value else "");
      SplitAtFirstDot(w[1..], tail);
      assert [w[0]] + w[1..] == w;
    } else if tail.Some? {
      assert u[1..] == tail.value;
    }
  }

  /** The sign a text starts with. */
  function LeadingSign(text: string): Sign
  {
    if |text| == 0 then NoSign
    else if text[0] == '+' then Plus
    else if text[0] == '-' then Minus
    else NoSign
  }

  /** Reads text as a literal; None when the text is not one. */
  function ParseLiteral(text: string): (r: Option<Literal>)
    ensures r.Some? ==> WellFormed(r.value) && Spell(r.value) == text
  {
    var sign := LeadingSign(text);
    var rest := if sign == NoSign then text else text[1..];
    assert text == SignText(sign) + rest;
    var parts := SplitAtDot(rest);
    var lit := Literal(sign, parts.0, parts.1);
    if WellFormed(lit) then Some(lit) else None
  }

  lemma NoDotInDigits(s: string)
    requires AllDigits(s)
    ensures '.' !in s
  {
  }

  /** The unsigned part of a well-formed literal splits back into its digits, and does not start with a sign. */
  lemma UnsignedSplits(lit: Literal)
    requires WellFormed(lit)
    ensures SplitAtDot(Unsigned(lit)) == (lit.whole, lit.fraction)
    ensures LeadingSign(Unsigned(lit)) == NoSign
  {
    NoDotInDigits(lit.whole);
    SplitAtFirstDot(lit.whole, lit.fraction);
    if lit.whole != [] {
      assert Unsigned(lit)[0] == lit.whole[0] && IsDigit(lit.whole[0]);
    }
  }

  /** Every well-formed literal reads back from its text: the parse is complete. */
  lemma SpellParses(lit: Literal)
    requires WellFormed(lit)
    ensures ParseLiteral(Spell(lit)) == Some(lit)
  {
    var text := Spell(lit);
    var rest := Unsigned(lit);
    UnsignedSplits(lit);
    if lit.sign == NoSign {
      assert text == rest;
    } else {
      assert LeadingSign(text) == lit.sign && text[1..] == rest;
    }
  }

  /** Whether a real has no fractional part. */
  predicate IsIntegral(v: real)
  {
    v.Floor as real == v
  }

  /**
   * What the role column holds after `user.role = text` and a commit: the
   * literal's value, as an integer when it is integral and as a real
   * otherwise, or the text itself when it is no literal.
   */
  function StoredRole(text: string): (r: Role)
    ensures r.Textual? <==> ParseLiteral(text).None?
    ensures r.Textual? ==> r.s == text
    ensures r.Level? ==> r.n as real == LiteralValue(ParseLiteral(text).value)
    ensures r.Numeric? ==> r.x == LiteralValue(ParseLiteral(text).value) && !IsIntegral(r.x)
  {
    match ParseLiteral(text)
    case None => Textual(text)
    case Some(lit) =>
      var v := LiteralValue(lit);
      if IsIntegral(v) then Level(v.Floor) else Numeric(v)
  }

  /**
   * For a role stored from a numeric literal, `role > n` holds exactly when
   * the literal's value exceeds n: "100.5" and "100" pass the administrator
   * test `> 99`, "99" and "99.0" do not.
   */
  lemma StoredAbove(text: string, n: int)
    requires ParseLiteral(text).Some?
    ensures Above(StoredRole(text), n) == Some(LiteralValue(ParseLiteral(text).value) > n as real)
  {
    var r := StoredRole(text);
    if r.Numeric? {
      assert r.x.Floor as real <= r.x < r.x.Floor as real + 1.0;
    }
  }

  /** The decimal digits of a natural number, as an HTML form transmits it. */
  function Digits(n: nat): (s: string)
    ensures |s| > 0 && AllDigits(s)
  {
    var d := [('0' as int + n % 10) as char];
    if n < 10 then d else Digits(n / 10) + d
  }

  /** The decimal text of an integer (Python's `str(n)`), as a literal. */
  function DecimalLiteral(n: int): Literal
  {
    Literal(if n < 0 then Minus else NoSign, Digits(if n < 0 then -n else n), None)
  }

  lemma {:induction false} DigitsValueOfDigits(n: nat)
    ensures DigitsValue(Digits(n)) == n
  {
    var d := [('0' as int + n % 10) as char];
    if n >= 10 {
      var s := Digits(n / 10) + d;
      assert s[..|s| - 1] == Digits(n / 10);
      DigitsValueOfDigits(n / 10);
    }
  }

  /** The role a form sends as `str(n)` is stored as the integer n. */
  lemma DecimalStoresLevel(n: int)
    ensures StoredRole(Spell(DecimalLiteral(n))) == Level(n)
  {
    var lit := DecimalLiteral(n);
    SpellParses(lit);
    DigitsValueOfDigits(if n < 0 then -n else n);
    assert LiteralValue(lit) == n as real;
  }

  /** The literal n.5 denotes the real n + 0.5, which is not integral. */
  lemma HalfValue(n: nat)
    ensures WellFormed(Literal(NoSign, Digits(n), Some("5")))
    ensures LiteralValue(Literal(NoSign, Digits(n), Some("5"))) == n as real + 0.5
    ensures !IsIntegral(n as real + 0.5)
  {
    assert AllDigits("5") by { assert IsDigit("5"[0]); }
    assert "5"[..0] == [];
    assert DigitsValue("5") == 5;
    DigitsValueOfDigits(n);
    assert (n as real + 0.5).Floor == n;
  }

  /** A role sent as n followed by ".5" is stored as the real n + 0.5, not as text. */
  lemma HalfStoresNumeric(n: nat)
    ensures StoredRole(Digits(n) + ".5") == Numeric(n as real + 0.5)
  {
    var lit := Literal(NoSign, Digits(n), Some("5"));
    HalfValue(n);
    assert Spell(lit) == Digits(n) + ".5";
    SpellParses(lit);
  }
}
