/**
 * Port resolution at the start of `Serve`, identical in both server
 * revisions: `PORT` and `ADMIN_PORT` default to 8080 and 8081, a non-empty
 * value must be accepted by `strconv.ParseInt(s, 10, 16)` or start-up panics,
 * and an admin port of 0 starts no admin listener.
 */
module Ports {
  import opened Wrappers
  import opened GoModel

  const MinInt16 := -32768
  const MaxInt16 := 32767

  predicate IsDigit(c: char) { '0' <= c <= '9' }

  predicate AllDigits(s: string) { forall i :: 0 <= i < |s| ==> IsDigit(s[i]) }

  function DigitValue(c: char): nat
    requires IsDigit(c)
  {
    (c as int) - ('0' as int)
  }

  /** The number a string of decimal digits denotes. */
  function Decimal(s: string): nat
    requires AllDigits(s)
  {
    if s == [] then 0 else Decimal(s[..|s| - 1]) * 10 + DigitValue(s[|s| - 1])
  }

  /** A non-empty run of decimal digits. */
  predicate Digits(s: string) { s != [] && AllDigits(s) }

  /**
   * `s` is a decimal spelling of `n` in the syntax `strconv.ParseInt` accepts
   * for base 10: '-' then digits, '+' then digits, or digits alone.
   */
  predicate Spells(s: string, n: int)
  {
    (|s| > 0 && s[0] == '-' && Digits(s[1..]) && n == -(Decimal(s[1..]) as int)) ||
    (|s| > 0 && s[0] == '+' && Digits(s[1..]) && n == Decimal(s[1..])) ||
    (Digits(s) && n == Decimal(s))
  }

  /**
   * `strconv.ParseInt(s, 10, 16)`: an optional '+' or '-', then one or more
   * decimal digits (no base prefix, no underscores), denoting a number that
   * fits in 16 signed bits; anything else is an error.
   */
  function ParseInt16(s: string): (r: Option<int>)
    ensures r.Some? ==> Spells(s, r.value) && MinInt16 <= r.value <= MaxInt16
    ensures r.None? ==> forall n :: Spells(s, n) ==> n < MinInt16 || n > MaxInt16
    ensures s == "" ==> r.None?
  {
    if s == "" then None
    else
      var neg := s[0] == '-';
      var digits := if s[0] == '+' || s[0] == '-' then s[1..] else s;
      if digits == [] || !AllDigits(digits) then None
      else
        var u: int := Decimal(digits);
        if !neg && u > MaxInt16 then None
        else if neg && u > -MinInt16 then None
        else Some(if neg then -u else u)
  }

  function DigitChar(d: nat): char
    requires d < 10
  {
    (('0' as int) + d) as char
  }

  /** `strconv.FormatInt(n, 10)` for a natural number. */
  function FormatNat(n: nat): (s: string)
    ensures |s| > 0 && AllDigits(s)
  {
    if n < 10 then [DigitChar(n)] else FormatNat(n / 10) + [DigitChar(n % 10)]
  }

  /** `strconv.FormatInt(n, 10)` */
  function FormatInt(n: int): string
  {
    if n < 0 then "-" + FormatNat(-n) else FormatNat(n)
  }

  lemma {:induction false} DecimalOfFormat(n: nat)
    ensures Decimal(FormatNat(n)) == n
  {
    var s := FormatNat(n);
    if n >= 10 {
      assert s[..|s| - 1] == FormatNat(n / 10);
      DecimalOfFormat(n / 10);
    }
  }

  /** Every 16-bit value, written in decimal, is read back as itself. */
  lemma ParseFormatRoundTrip(n: int)
    requires MinInt16 <= n <= MaxInt16
    ensures ParseInt16(FormatInt(n)) == Some(n)
  {
    var s := FormatInt(n);
    if n < 0 {
      assert s[0] == '-' && s[1..] == FormatNat(-n);
      DecimalOfFormat(-n);
    } else {
      assert IsDigit(s[0]);
      DecimalOfFormat(n);
    }
  }

  /** A leading '+' is accepted. */
  lemma ParsePlusSign(n: nat)
    requires n <= MaxInt16
    ensures ParseInt16("+" + FormatNat(n)) == Some(n)
  {
    assert ("+" + FormatNat(n))[1..] == FormatNat(n);
    DecimalOfFormat(n);
  }

  /** A number outside 16 signed bits is refused, though it is well formed. */
  lemma ParseRejectsOutOfRange(n: int)
    requires n < MinInt16 || n > MaxInt16
    ensures ParseInt16(FormatInt(n)) == None
  {
    if n < 0 {
      assert FormatInt(n)[1..] == FormatNat(-n);
      DecimalOfFormat(-n);
    } else {
      DecimalOfFormat(n);
    }
  }

  const DefaultPort := 8080
  const DefaultAdminPort := 8081
  const PortMessage := "environment variable PORT must be an int"
  const AdminPortMessage := "environment varialbe ADMIN_PORT must be an int"

  datatype PortConfig = PortConfig(port: int, adminPort: int)
  {
    /** The admin listener is started only for a non-zero admin port. */
    predicate AdminListens() { adminPort != 0 }
  }

  /** A variable's port: its default when unset or empty, else what it parses to. */
  function PortSetting(env: Env, name: string, default: int): Option<int>
  {
    if Getenv(env, name) == "" then Some(default) else ParseInt16(Getenv(env, name))
  }

  /**
   * The ports `Serve` listens on. `PORT` is checked before `ADMIN_PORT`, so
   * when both are malformed the `PORT` panic is the one raised.
   */
  function ResolvePorts(env: Env): (r: Result<PortConfig, string>)
    ensures r.Failure? <==>
      (Getenv(env, "PORT") != "" && ParseInt16(Getenv(env, "PORT")).None?) ||
      (Getenv(env, "ADMIN_PORT") != "" && ParseInt16(Getenv(env, "ADMIN_PORT")).None?)
    ensures Getenv(env, "PORT") != "" && ParseInt16(Getenv(env, "PORT")).None? ==> r == Failure(PortMessage)
    ensures r.Failure? && r.error != PortMessage ==> r.error == AdminPortMessage
    ensures r.Success? ==> (Getenv(env, "PORT") == "" ==> r.value.port == DefaultPort)
    ensures r.Success? ==> (Getenv(env, "PORT") != "" ==> ParseInt16(Getenv(env, "PORT")) == Some(r.value.port))
    ensures r.Success? ==> (Getenv(env, "ADMIN_PORT") == "" ==> r.value.adminPort == DefaultAdminPort)
    ensures r.Success? ==> (Getenv(env, "ADMIN_PORT") != "" ==> ParseInt16(Getenv(env, "ADMIN_PORT")) == Some(r.value.adminPort))
  {
    match PortSetting(env, "PORT", DefaultPort)
    case None => Failure(PortMessage)
    case Some(port) =>
      match PortSetting(env, "ADMIN_PORT", DefaultAdminPort)
      case None => Failure(AdminPortMessage)
      case Some(adminPort) => Success(PortConfig(port, adminPort))
  }

  /** With neither variable set, both listeners start, on 8080 and 8081. */
  lemma DefaultPorts(env: Env)
    requires "PORT" !in env && "ADMIN_PORT" !in env
    ensures ResolvePorts(env) == Success(PortConfig(8080, 8081))
    ensures ResolvePorts(env).value.AdminListens()
  {
  }

  /** `ADMIN_PORT=0` (or any spelling of zero, "-0" included) disables the admin listener. */
  lemma AdminPortZeroDisables(env: Env, spelling: string)
    requires Getenv(env, "ADMIN_PORT") == spelling && ParseInt16(spelling) == Some(0)
    requires ResolvePorts(env).Success?
    ensures !ResolvePorts(env).value.AdminListens()
  {
  }
}
