/**
 * The PHP values that reach the injection code, as a closed set of variants,
 * with the casts and comparisons the core relies on.
 */
module Php {
  import opened Wrappers

  /** A PHP array key: an integer or a string. */
  datatype Key = IntKey(i: int) | StrKey(s: string)

  /**
   * A PHP value. A float is kept only as its IEEE-754 bit pattern (no
   * arithmetic is done on it); an object is known by its class and by whether
   * that class exposes a public static `__set_state`.
   */
  datatype Value =
    | Null
    | Bool(b: bool)
    | Int(i: int)
    | Float(bits: bv64)
    | Str(s: string)
    | Array(entries: seq<(Key, Value)>)
    | Object(className: string, publicSetState: bool)
    | Resource(id: nat)

  /** +0.0 and -0.0: every bit but the sign bit is clear. */
  predicate IsZeroFloat(bits: bv64) {
    bits & 0x7FFF_FFFF_FFFF_FFFF == 0
  }

  /** The `(bool)` cast, which also decides `!$x`, `if ($x)` and `$x ?: $y`. */
  function ToBool(v: Value): (r: bool)
    ensures v.Str? ==> (r <==> v.s != "" && v.s != "0")
    ensures v.Object? || v.Resource? ==> r
  {
    match v
    case Null => false
    case Bool(b) => b
    case Int(i) => i != 0
    case Float(bits) => !IsZeroFloat(bits)
    case Str(s) => s != "" && s != "0"
    case Array(entries) => entries != []
    case Object(_, _) => true
    case Resource(_) => true
  }

  /**
   * The loose comparison `$v == null`. Against a string, null is converted to
   * "" and compared as a string; against anything else, both sides are cast
   * to bool.
   */
  function LooselyEqualsNull(v: Value): (r: bool)
    ensures r ==> !ToBool(v)
    ensures v.Str? ==> (r <==> v.s == "")
  {
    match v
    case Str(s) => s == ""
    case _ => !ToBool(v)
  }

  /** The values loosely equal to null, listed one by one. */
  lemma LooselyEqualsNullValues(v: Value)
    ensures LooselyEqualsNull(v) <==>
              v == Null || v == Bool(false) || v == Int(0) || v == Str("") || v == Array([])
              || (v.Float? && IsZeroFloat(v.bits))
  {
    if v.Array? && v.entries == [] {
      assert v == Array([]);
    }
  }

  /** `== null` is falsiness, except that the string "0" is falsy and yet not equal to null. */
  lemma LooselyEqualsNullIsFalsy(v: Value)
    ensures LooselyEqualsNull(v) <==> !ToBool(v) && v != Str("0")
  {
  }

  /** The decimal digits of a natural number. */
  function NatToDecimal(n: nat): (s: string)
    ensures |s| > 0
    ensures forall i :: 0 <= i < |s| ==> '0' <= s[i] <= '9'
  {
    if n < 10 then ["0123456789"[n]] else NatToDecimal(n / 10) + ["0123456789"[n % 10]]
  }

  /** An integer as PHP prints it: an optional minus sign and its digits. */
  function IntToDecimal(i: int): (s: string)
    ensures |s| > 0
    ensures s[0] == '-' <==> i < 0
  {
    if i < 0 then "-" + NatToDecimal(-i) else NatToDecimal(i)
  }

  /** The body of a single-quoted literal: `\` and `'` get a backslash in front. */
  function Escape(s: string): (t: string)
    ensures |t| >= |s|
  {
    if s == [] then []
    else (if s[0] == '\\' || s[0] == '\'' then ['\\', s[0]] else [s[0]]) + Escape(s[1..])
  }

  /** `var_export($s, true)` for a string: a single-quoted PHP literal. */
  function ExportString(s: string): (t: string)
    ensures |t| >= 2 && t[0] == '\'' && t[|t| - 1] == '\''
  {
    "'" + Escape(s) + "'"
  }

  /**
   * How PHP reads the rest of a single-quoted literal after its opening
   * quote: `\\` stands for `\`, `\'` for `'`, any other character for itself,
   * and the first bare `'` closes the literal. Gives the string denoted and
   * the source text after the closing quote.
   */
  function ReadQuotedBody(t: string): Option<(string, string)> {
    if t == [] then None
    else if t[0] == '\'' then Some(("", t[1..]))
    else if t[0] == '\\' && |t| >= 2 && (t[1] == '\\' || t[1] == '\'') then
      match ReadQuotedBody(t[2..])
      case None => None
      case Some((s, rest)) => Some(([t[1]] + s, rest))
    else
      match ReadQuotedBody(t[1..])
      case None => None
      case Some((s, rest)) => Some(([t[0]] + s, rest))
  }

  /** Reads a single-quoted literal at the start of `t`. */
  function ReadStringLiteral(t: string): Option<(string, string)> {
    if t != [] && t[0] == '\'' then ReadQuotedBody(t[1..]) else None
  }

  lemma {:induction false} ReadQuotedBodyEscape(s: string, rest: string)
    ensures ReadQuotedBody(Escape(s) + "'" + rest) == Some((s, rest))
  {
    if s != [] {
      ReadQuotedBodyEscape(s[1..], rest);
      var t := Escape(s) + "'" + rest;
      if s[0] == '\\' || s[0] == '\'' {
        assert t[0] == '\\' && t[1] == s[0];
        assert t[2..] == Escape(s[1..]) + "'" + rest;
        assert [s[0]] + s[1..] == s;
      } else {
        assert t[0] == s[0];
        assert t[1..] == Escape(s[1..]) + "'" + rest;
        assert [s[0]] + s[1..] == s;
      }
    }
  }

  /**
   * An exported string literal, read back by PHP, denotes exactly the
   * original string, and the literal ends where the exported text ends.
   */
  lemma ExportStringRoundTrip(s: string, rest: string)
    ensures ReadStringLiteral(ExportString(s) + rest) == Some((s, rest))
  {
    var t := ExportString(s) + rest;
    assert t[1..] == Escape(s) + "'" + rest;
    ReadQuotedBodyEscape(s, rest);
  }
}
