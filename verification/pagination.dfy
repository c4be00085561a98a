/**
 * The `Paginated(defaults)` page-request normaliser
 * (src/@decorators/utils.decorator.ts), with the JavaScript `parseInt` it
 * relies on.
 */
module Pagination {
  import opened Wrappers
  import opened Types

  // ------------------------------------------------------------- parseInt

  /** The characters `parseInt` skips before a number: white space and line terminators. */
  predicate IsSpace(c: char) {
    || c == '\t' || c == '\n' || c == '\U{000B}' || c == '\U{000C}' || c == '\r'
    || c == ' ' || c == '\U{00A0}' || c == '\U{1680}'
    || ('\U{2000}' <= c <= '\U{200A}')
    || c == '\U{2028}' || c == '\U{2029}' || c == '\U{202F}' || c == '\U{205F}'
    || c == '\U{3000}' || c == '\U{FEFF}'
  }

  function TrimStart(s: string): (r: string)
    ensures |r| <= |s| && r == s[|s| - |r|..]
    ensures forall i :: 0 <= i < |s| - |r| ==> IsSpace(s[i])
    ensures r != [] ==> !IsSpace(r[0])
  {
    if s != [] && IsSpace(s[0]) then TrimStart(s[1..]) else s
  }

  /** The value of `c` as a digit in base `radix` (10 or 16), if it is one. */
  function DigitValue(c: char, radix: nat): Option<nat> {
    if '0' <= c <= '9' then Some(c as nat - '0' as nat)
    else if radix == 16 && 'a' <= c <= 'f' then Some(c as nat - 'a' as nat + 10)
    else if radix == 16 && 'A' <= c <= 'F' then Some(c as nat - 'A' as nat + 10)
    else None
  }

  predicate AllDigits(s: string, radix: nat) {
    forall i :: 0 <= i < |s| ==> DigitValue(s[i], radix).Some?
  }

  /** The longest prefix of `s` made of digits of base `radix`. */
  function DigitPrefix(s: string, radix: nat): (r: string)
    ensures |r| <= |s| && r == s[..|r|]
    ensures AllDigits(r, radix)
    ensures |r| < |s| ==> DigitValue(s[|r|], radix).None?
  {
    if s != [] && DigitValue(s[0], radix).Some? then
      var rest := DigitPrefix(s[1..], radix);
      assert s[..1 + |rest|] == [s[0]] + rest;
      [s[0]] + rest
    else []
  }

  /** The number a digit string denotes, most significant digit first. */
  function DigitsValue(s: string, radix: nat): nat
    requires AllDigits(s, radix)
  {
    if s == [] then 0
    else DigitsValue(s[..|s| - 1], radix) * radix + DigitValue(s[|s| - 1], radix).value
  }

  /** Reads an unsigned number: a "0x"/"0X" prefix selects base 16, otherwise base 10. */
  function ParseUnsigned(u: string): (r: Option<nat>)
    ensures r.Some? ==> u != [] && '0' <= u[0] <= '9'
  {
    var hex := |u| >= 2 && u[0] == '0' && (u[1] == 'x' || u[1] == 'X');
    var radix := if hex then 16 else 10;
    var digits := DigitPrefix(if hex then u[2..] else u, radix);
    if digits == [] then None else Some(DigitsValue(digits, radix))
  }

  /**
   * `parseInt(v)` with no radix: `None` stands for NaN. Leading white space
   * and one sign are allowed, and the longest run of digits that follows is
   * read.
   */
  function ParseInt(v: Option<string>): (r: Option<int>)
    ensures v.None? ==> r.None?
    ensures r.Some? ==> exists i :: 0 <= i < |v.value| && '0' <= v.value[i] <= '9'
    ensures r.Some? && r.value < 0 ==> exists i :: 0 <= i < |v.value| && v.value[i] == '-'
  {
    if v.None? then None
    else
      var t := TrimStart(v.value);
      var at := |v.value| - |t|;
      if t != [] && (t[0] == '-' || t[0] == '+') then
        match ParseUnsigned(t[1..])
        case None => None
        case Some(m) =>
          assert v.value[at + 1] == t[1] && v.value[at] == t[0];
          var signed: int := if t[0] == '-' then -(m as int) else m as int;
          Some(signed)
      else
        match ParseUnsigned(t)
        case None => None
        case Some(m) =>
          assert v.value[at] == t[0];
          Some(m)
  }

  /** The decimal text of `n`, as `String(n)` writes it. */
  function DecimalString(n: nat): (s: string)
    ensures s != [] && AllDigits(s, 10)
    ensures forall i :: 0 <= i < |s| ==> '0' <= s[i] <= '9'
  {
    if n < 10 then ['0' + n as char]
    else DecimalString(n / 10) + ['0' + (n % 10) as char]
  }

  lemma {:induction false} DecimalStringValue(n: nat)
    ensures DigitsValue(DecimalString(n), 10) == n
  {
    if n >= 10 {
      DecimalStringValue(n / 10);
      var s := DecimalString(n);
      assert s[..|s| - 1] == DecimalString(n / 10);
    }
  }

  lemma {:induction false} DigitPrefixOfDigits(s: string, radix: nat)
    requires AllDigits(s, radix)
    ensures DigitPrefix(s, radix) == s
  {
    if s != [] {
      DigitPrefixOfDigits(s[1..], radix);
    }
  }

  lemma ParseUnsignedDecimal(n: nat)
    ensures ParseUnsigned(DecimalString(n)) == Some(n)
  {
    var s := DecimalString(n);
    assert |s| >= 2 ==> s[1] != 'x' && s[1] != 'X';
    DigitPrefixOfDigits(s, 10);
    DecimalStringValue(n);
  }

  lemma TrimStartNoSpace(s: string)
    requires s != [] && !IsSpace(s[0])
    ensures TrimStart(s) == s
  {
  }

  /** `parseInt` reads back the decimal text of every natural number. */
  lemma ParseDecimal(n: nat)
    ensures ParseInt(Some(DecimalString(n))) == Some(n)
  {
    var s := DecimalString(n);
    assert '0' <= s[0] <= '9';
    TrimStartNoSpace(s);
    ParseUnsignedDecimal(n);
  }

  /** ... and the text of every negative number. */
  lemma ParseNegativeDecimal(n: nat)
    ensures ParseInt(Some("-" + DecimalString(n))).Some?
    ensures ParseInt(Some("-" + DecimalString(n))).value + n == 0
  {
    var s := "-" + DecimalString(n);
    TrimStartNoSpace(s);
    assert s[1..] == DecimalString(n);
    ParseUnsignedDecimal(n);
  }

  /** Text that does not start (after white space and a sign) with a digit is NaN. */
  lemma ParseNonNumeric(s: string)
    requires s != [] && DigitValue(s[0], 10).None? && s[0] != '-' && s[0] != '+' && !IsSpace(s[0])
    ensures ParseInt(Some(s)) == None
  {
    TrimStartNoSpace(s);
  }

  // ----------------------------------------------------------- normaliser

  /** `parseInt(raw) || default`: NaN and 0 are falsy and fall back. */
  function IntOrDefault(raw: Option<string>, default: Option<int>): (r: Option<int>)
    ensures r == default || (r.Some? && r.value != 0 && r == ParseInt(raw))
    ensures ParseInt(raw).Some? && ParseInt(raw).value != 0 ==> r == ParseInt(raw)
    ensures ParseInt(raw).None? || ParseInt(raw) == Some(0) ==> r == default
  {
    var n := ParseInt(raw);
    if n.Some? && n.value != 0 then n else default
  }

  /** `raw || default` on a string: a missing or empty value falls back. */
  function TextOrDefault(raw: Option<string>, default: Option<string>): (r: Option<string>)
    ensures Truthy(raw) ==> r == raw
    ensures !Truthy(raw) ==> r == default
  {
    if Truthy(raw) then raw else default
  }

  /** The page request built from the raw query and the endpoint's defaults. */
  function Normalize(query: Fields, defaults: PageParams): (p: PageParams)
    ensures p.page == IntOrDefault(Lookup(query, "page"), defaults.page)
    ensures p.limit == IntOrDefault(Lookup(query, "limit"), defaults.limit)
    ensures p.sort == TextOrDefault(Lookup(query, "sort"), defaults.sort)
    ensures Truthy(Lookup(query, "direction")) ==> p.direction == Some(RawDirection(query["direction"]))
    ensures !Truthy(Lookup(query, "direction")) ==> p.direction == defaults.direction
    ensures Complete(defaults) ==> Complete(p)
  {
    var direction := Lookup(query, "direction");
    PageParams(
      IntOrDefault(Lookup(query, "page"), defaults.page),
      IntOrDefault(Lookup(query, "limit"), defaults.limit),
      TextOrDefault(Lookup(query, "sort"), defaults.sort),
      if Truthy(direction) then Some(RawDirection(direction.value)) else defaults.direction)
  }

  /** The wrapper: only the page request is replaced; every other field passes through. */
  function Paginate(ctx: ControllerData, defaults: PageParams): (out: ControllerData)
    ensures out.body == ctx.body && out.params == ctx.params
    ensures out.headers == ctx.headers && out.query == ctx.query && out.claims == ctx.claims
    ensures out.page == Some(Normalize(ctx.query, defaults))
  {
    ctx.(page := Some(Normalize(ctx.query, defaults)))
  }

  /** The decimal text of an integer, as `String(n)` writes it. */
  function IntegerString(n: int): string {
    if n >= 0 then DecimalString(n) else "-" + DecimalString(-n)
  }

  /** `parseInt` reads back the decimal text of every integer. */
  lemma ParseIntegerString(n: int)
    ensures ParseInt(Some(IntegerString(n))) == Some(n)
  {
    if n >= 0 {
      ParseDecimal(n);
    } else {
      var text := "-" + DecimalString(-n);
      assert IntegerString(n) == text;
      ParseNegativeDecimal(-n);
      assert ParseInt(Some(text)).value == n;
    }
  }

  /** A positive or negative page number in the query is used as given: no positivity check. */
  lemma QueryPageUsed(query: Fields, defaults: PageParams, n: int)
    requires n != 0
    requires Lookup(query, "page") == Some(IntegerString(n))
    ensures Normalize(query, defaults).page == Some(n)
  {
    ParseIntegerString(n);
  }

  /** A missing page, a non-numeric page and the page "0" all fall back to the default. */
  lemma PageFallsBack(query: Fields, defaults: PageParams)
    requires || "page" !in query
             || query["page"] == "0"
             || (query["page"] != [] && DigitValue(query["page"][0], 10).None?
                 && query["page"][0] != '-' && query["page"][0] != '+' && !IsSpace(query["page"][0]))
    ensures Normalize(query, defaults).page == defaults.page
  {
    if "page" in query {
      if query["page"] == "0" {
        ParseDecimal(0);
      } else {
        ParseNonNumeric(query["page"]);
      }
    }
  }
}
