/**
 * Values as `yaml.safe_load` hands them to the code (mappings keep their key
 * order), Python's `str()` on them, and `json.dumps` with its default
 * settings. `Parse` reads back exactly what `Dumps` writes, which is proved.
 */
module PyValue {

  import opened Wrappers
  import opened Strings

  datatype Value =
    | Null
    | Bool(b: bool)
    | Int(i: int)
    | Str(s: string)
    | List(items: seq<Value>)
    | Map(entries: seq<(string, Value)>)

  /** Python's `str(v)`; containers are rendered as JSON text (see README, Left out). */
  function PyStr(v: Value): string {
    match v
    case Null => "None"
    case Bool(b) => if b then "True" else "False"
    case Int(i) => IntToString(i)
    case Str(s) => s
    case _ => Dumps(v)
  }

  // ---------------------------------------------------------------- json.dumps

  function HexDigit(d: nat): char
    requires d < 16
  {
    if d < 10 then ('0' as int + d) as char else ('a' as int + d - 10) as char
  }

  /** Four lower-case hex digits, as `'{0:04x}'.format(n)`. */
  function Hex4(n: nat): string
    requires n < 0x1_0000
  {
    [HexDigit(n / 0x100 / 16), HexDigit(n / 0x100 % 16), HexDigit(n % 0x100 / 16), HexDigit(n % 0x100 % 16)]
  }

  /**
   * How `json.dumps` (ensure_ascii) writes one character of a string: the
   * short escapes, printable ASCII as itself, anything else as `\uXXXX`,
   * with a surrogate pair above the Basic Multilingual Plane.
   */
  function EscapeChar(c: char): string {
    if c == '"' then "\\\""
    else if c == '\\' then "\\\\"
    else if c == '\n' then "\\n"
    else if c == '\r' then "\\r"
    else if c == '\t' then "\\t"
    else if c as int == 8 then "\\b"
    else if c as int == 12 then "\\f"
    else if 0x20 <= c as int <= 0x7e then [c]
    else if c as int < 0x1_0000 then "\\u" + Hex4(c as int)
    else
      var m := c as int - 0x1_0000;
      "\\u" + Hex4(0xd800 + m / 0x400) + "\\u" + Hex4(0xdc00 + m % 0x400)
  }

  function Escape(s: string): string {
    if s == [] then [] else EscapeChar(s[0]) + Escape(s[1..])
  }

  function Quote(s: string): string {
    "\"" + Escape(s) + "\""
  }

  /** `json.dumps(v)`: separators ", " and ": ", keys in mapping order. */
  function Dumps(v: Value): string
    decreases v
  {
    match v
    case Null => "null"
    case Bool(b) => if b then "true" else "false"
    case Int(i) => IntToString(i)
    case Str(s) => Quote(s)
    case List(items) => "[" + DumpItems(items) + "]"
    case Map(entries) => "{" + DumpEntries(entries) + "}"
  }

  function DumpItems(items: seq<Value>): string
    decreases items
  {
    if items == [] then ""
    else if |items| == 1 then Dumps(items[0])
    else Dumps(items[0]) + ", " + DumpItems(items[1..])
  }

  function DumpEntries(entries: seq<(string, Value)>): string
    decreases entries
  {
    if entries == [] then ""
    else
      var e := entries[0];
      assert e.1 < e;
      var field := Quote(e.0) + ": " + Dumps(e.1);
      if |entries| == 1 then field else field + ", " + DumpEntries(entries[1..])
  }

  // ---------------------------------------------------------------- json.loads

  function HexValue(c: char): Option<nat> {
    if '0' <= c <= '9' then Some(c as int - '0' as int)
    else if 'a' <= c <= 'f' then Some(c as int - 'a' as int + 10)
    else if 'A' <= c <= 'F' then Some(c as int - 'A' as int + 10)
    else None
  }

  function ParseHex4(s: string): (r: Option<(nat, string)>)
    ensures r.Some? ==> |s| >= 4 && r.value.0 < 0x1_0000 && r.value.1 == s[4..]
  {
    if |s| < 4 then None
    else
      match (HexValue(s[0]), HexValue(s[1]), HexValue(s[2]), HexValue(s[3]))
      case (Some(a), Some(b), Some(c), Some(d)) =>
        if a < 16 && b < 16 && c < 16 && d < 16 then Some((((a * 16 + b) * 16 + c) * 16 + d, s[4..])) else None
      case _ => None
  }

  predicate IsScalar(n: int) {
    0 <= n < 0xd800 || 0xe000 <= n < 0x11_0000
  }

  /** One escape sequence, after its backslash. */
  function ParseEscape(s: string): (r: Option<(char, string)>)
    ensures r.Some? ==> |r.value.1| < |s|
  {
    if |s| == 0 then None
    else if s[0] == '"' then Some(('"', s[1..]))
    else if s[0] == '\\' then Some(('\\', s[1..]))
    else if s[0] == '/' then Some(('/', s[1..]))
    else if s[0] == 'n' then Some(('\n', s[1..]))
    else if s[0] == 'r' then Some(('\r', s[1..]))
    else if s[0] == 't' then Some(('\t', s[1..]))
    else if s[0] == 'b' then Some((8 as char, s[1..]))
    else if s[0] == 'f' then Some((12 as char, s[1..]))
    else if s[0] == 'u' then
      match ParseHex4(s[1..])
      case None => None
      case Some((h, rest)) =>
        if 0xd800 <= h < 0xdc00 then
          if "\\u" <= rest then
            match ParseHex4(rest[2..])
            case None => None
            case Some((l, rest')) =>
              if 0xdc00 <= l < 0xe000 then Some(((0x1_0000 + (h - 0xd800) * 0x400 + (l - 0xdc00)) as char, rest'))
              else None
          else None
        else if IsScalar(h) then Some((h as char, rest))
        else None
    else None
  }

  /** One character of a string body other than its closing quote. */
  function ParseChar(s: string): (r: Option<(char, string)>)
    requires |s| > 0
    ensures r.Some? ==> |r.value.1| < |s|
  {
    if s[0] == '\\' then ParseEscape(s[1..]) else Some((s[0], s[1..]))
  }

  /** A string body up to and including its closing quote. */
  function ParseString(s: string): (r: Option<(string, string)>)
    ensures r.Some? ==> |r.value.1| < |s|
    decreases |s|
  {
    if |s| == 0 then None
    else if s[0] == '"' then Some(([], s[1..]))
    else
      match ParseChar(s)
      case None => None
      case Some((c, rest)) =>
        match ParseString(rest)
        case None => None
        case Some((t, rest')) => Some(([c] + t, rest'))
  }

  /** The length of the run of decimal digits that starts `s`. */
  function DigitRun(s: string): (n: nat)
    ensures n <= |s|
    ensures forall i :: 0 <= i < n ==> IsDigit(s[i])
    ensures n < |s| ==> !IsDigit(s[n])
  {
    if s == [] || !IsDigit(s[0]) then 0 else 1 + DigitRun(s[1..])
  }

  function ParseInt(s: string): (r: Option<(Value, string)>)
    ensures r.Some? ==> |r.value.1| < |s|
  {
    var neg := |s| > 0 && s[0] == '-';
    var t := if neg then s[1..] else s;
    var n := DigitRun(t);
    if n == 0 then None
    else
      assert forall c :: c in t[..n] ==> IsDigit(c);
      var m: int := DigitsValue(t[..n]);
      Some((Int(if neg then -m else m), t[n..]))
  }

  function ParseValue(s: string): (r: Option<(Value, string)>)
    ensures r.Some? ==> |r.value.1| < |s|
    decreases |s|, 0
  {
    if "null" <= s then Some((Null, s[4..]))
    else if "true" <= s then Some((Bool(true), s[4..]))
    else if "false" <= s then Some((Bool(false), s[5..]))
    else if |s| > 0 && s[0] == '"' then
      match ParseString(s[1..])
      case None => None
      case Some((t, rest)) => Some((Str(t), rest))
    else if |s| > 0 && s[0] == '[' then
      if |s| > 1 && s[1] == ']' then Some((List([]), s[2..]))
      else
        match ParseItems(s[1..])
        case None => None
        case Some((items, rest)) => Some((List(items), rest))
    else if |s| > 0 && s[0] == '{' then
      if |s| > 1 && s[1] == '}' then Some((Map([]), s[2..]))
      else
        match ParseEntries(s[1..])
        case None => None
        case Some((entries, rest)) => Some((Map(entries), rest))
    else ParseInt(s)
  }

  /** The items of a non-empty list up to and including its `]`. */
  function ParseItems(s: string): (r: Option<(seq<Value>, string)>)
    ensures r.Some? ==> |r.value.1| < |s|
    decreases |s|, 1
  {
    match ParseValue(s)
    case None => None
    case Some((v, rest)) =>
      if ", " <= rest then
        match ParseItems(rest[2..])
        case None => None
        case Some((vs, rest')) => Some(([v] + vs, rest'))
      else if "]" <= rest then Some(([v], rest[1..]))
      else None
  }

  /** The fields of a non-empty mapping up to and including its `}`. */
  function ParseEntries(s: string): (r: Option<(seq<(string, Value)>, string)>)
    ensures r.Some? ==> |r.value.1| < |s|
    decreases |s|, 1
  {
    if |s| == 0 || s[0] != '"' then None
    else
      match ParseString(s[1..])
      case None => None
      case Some((key, rest)) =>
        if !(": " <= rest) then None
        else
          match ParseValue(rest[2..])
          case None => None
          case Some((v, rest')) =>
            if ", " <= rest' then
              match ParseEntries(rest'[2..])
              case None => None
              case Some((es, rest'')) => Some(([(key, v)] + es, rest''))
            else if "}" <= rest' then Some(([(key, v)], rest'[1..]))
            else None
  }

  /** `json.loads(s)` on the texts `Dumps` writes: one value and nothing after it. */
  function Parse(s: string): Option<Value> {
    match ParseValue(s)
    case Some((v, rest)) => if rest == [] then Some(v) else None
    case None => None
  }

  // ---------------------------------------------------------------- round trip

  lemma HexDigitValue(d: nat)
    requires d < 16
    ensures HexValue(HexDigit(d)) == Some(d)
  {
  }

  /** The four hex digits of `n` put back together give `n`. */
  lemma Hex4Digits(n: nat)
    requires n < 0x1_0000
    ensures ((n / 0x100 / 16 * 16 + n / 0x100 % 16) * 16 + n % 0x100 / 16) * 16 + n % 0x100 % 16 == n
  {
    var hi, lo := n / 0x100, n % 0x100;
    assert hi / 16 * 16 + hi % 16 == hi;
    assert lo / 16 * 16 + lo % 16 == lo;
  }

  lemma ParseHex4Digits(s: string, a: nat, b: nat, c: nat, d: nat)
    requires |s| >= 4 && a < 16 && b < 16 && c < 16 && d < 16
    requires HexValue(s[0]) == Some(a) && HexValue(s[1]) == Some(b)
    requires HexValue(s[2]) == Some(c) && HexValue(s[3]) == Some(d)
    ensures ParseHex4(s) == Some((((a * 16 + b) * 16 + c) * 16 + d, s[4..]))
  {
  }

  lemma Hex4RoundTrip(n: nat, rest: string)
    requires n < 0x1_0000
    ensures ParseHex4(Hex4(n) + rest) == Some((n, rest))
  {
    var s := Hex4(n) + rest;
    var a, b, c, d := n / 0x100 / 16, n / 0x100 % 16, n % 0x100 / 16, n % 0x100 % 16;
    assert s[0] == HexDigit(a) && s[1] == HexDigit(b) && s[2] == HexDigit(c) && s[3] == HexDigit(d);
    HexDigitValue(a);
    HexDigitValue(b);
    HexDigitValue(c);
    HexDigitValue(d);
    ParseHex4Digits(s, a, b, c, d);
    Hex4Digits(n);
    assert s[4..] == rest;
  }

  /** A character of the Basic Multilingual Plane written as `\uXXXX`. */
  lemma UnicodeEscapeRoundTrip(c: char, rest: string)
    requires c as int < 0x1_0000
    ensures ParseChar("\\u" + Hex4(c as int) + rest) == Some((c, rest))
  {
    var s := "\\u" + Hex4(c as int) + rest;
    var t := s[1..];
    assert s[0] == '\\' && t[0] == 'u';
    assert t[1..] == Hex4(c as int) + rest;
    Hex4RoundTrip(c as int, rest);
  }

  /** `ParseEscape` on a `u` escape holding a surrogate pair. */
  lemma ParsePairStep(t: string, h: nat, r: string, l: nat, rest: string)
    requires |t| > 0 && t[0] == 'u' && ParseHex4(t[1..]) == Some((h, r))
    requires 0xd800 <= h < 0xdc00 && "\\u" <= r && ParseHex4(r[2..]) == Some((l, rest))
    requires 0xdc00 <= l < 0xe000
    ensures ParseEscape(t) == Some(((0x1_0000 + (h - 0xd800) * 0x400 + (l - 0xdc00)) as char, rest))
  {
  }

  /** A character above the Basic Multilingual Plane written as a surrogate pair. */
  lemma SurrogateEscapeRoundTrip(c: char, rest: string)
    requires c as int >= 0x1_0000
    ensures var m := c as int - 0x1_0000;
      ParseChar("\\u" + (Hex4(0xd800 + m / 0x400) + ("\\u" + (Hex4(0xdc00 + m % 0x400) + rest)))) == Some((c, rest))
  {
    var m := c as int - 0x1_0000;
    var h, l := 0xd800 + m / 0x400, 0xdc00 + m % 0x400;
    var low := "\\u" + (Hex4(l) + rest);
    var t := "u" + (Hex4(h) + low);
    var s := "\\" + t;
    assert s == "\\u" + (Hex4(h) + low);
    assert s[0] == '\\' && s[1..] == t;
    assert t[1..] == Hex4(h) + low;
    Hex4RoundTrip(h, low);
    assert "\\u" <= low && low[2..] == Hex4(l) + rest;
    Hex4RoundTrip(l, rest);
    ParsePairStep(t, h, low, l, rest);
    assert 0x1_0000 + (h - 0xd800) * 0x400 + (l - 0xdc00) == c as int;
  }

  /** The characters with a two-character escape. */
  lemma ShortEscapeRoundTrip(c: char, rest: string)
    requires c == '"' || c == '\\' || c == '\n' || c == '\r' || c == '\t' || c as int == 8 || c as int == 12
    ensures ParseChar(EscapeChar(c) + rest) == Some((c, rest))
  {
    var e := EscapeChar(c);
    var s := e + rest;
    assert |e| == 2 && s[0] == '\\' && s[1..] == [e[1]] + rest;
  }

  /** Every character `EscapeChar` writes is read back by `ParseChar`. */
  lemma EscapeCharRoundTrip(c: char, rest: string)
    ensures |EscapeChar(c)| > 0 && EscapeChar(c)[0] != '"'
    ensures ParseChar(EscapeChar(c) + rest) == Some((c, rest))
  {
    var e := EscapeChar(c);
    var s := e + rest;
    if c == '"' || c == '\\' || c == '\n' || c == '\r' || c == '\t' || c as int == 8 || c as int == 12 {
      ShortEscapeRoundTrip(c, rest);
    } else if 0x20 <= c as int <= 0x7e {
      assert s[0] == c && s[1..] == rest;
    } else if c as int < 0x1_0000 {
      UnicodeEscapeRoundTrip(c, rest);
    } else {
      var m := c as int - 0x1_0000;
      var hs, ls := Hex4(0xd800 + m / 0x400), Hex4(0xdc00 + m % 0x400);
      assert s == "\\u" + (hs + ("\\u" + (ls + rest)));
      SurrogateEscapeRoundTrip(c, rest);
    }
  }

  lemma RegroupHead(a: string, b: string, c: string, d: string)
    ensures a + b + c + d == a + (b + c + d)
  {
  }

  lemma {:induction false} StringRoundTrip(t: string, rest: string)
    ensures ParseString(Escape(t) + "\"" + rest) == Some((t, rest))
  {
    if t == [] {
      assert Escape(t) + "\"" + rest == "\"" + rest;
    } else {
      var s := Escape(t) + "\"" + rest;
      var tail := Escape(t[1..]) + "\"" + rest;
      assert Escape(t) == EscapeChar(t[0]) + Escape(t[1..]);
      RegroupHead(EscapeChar(t[0]), Escape(t[1..]), "\"", rest);
      EscapeCharRoundTrip(t[0], tail);
      StringRoundTrip(t[1..], rest);
      assert [t[0]] + t[1..] == t;
    }
  }

  lemma {:induction false} DigitRunOf(ds: string, rest: string)
    requires forall c :: c in ds ==> IsDigit(c)
    requires rest == [] || !IsDigit(rest[0])
    ensures DigitRun(ds + rest) == |ds|
  {
    if ds != [] {
      assert ds[0] in ds;
      assert (ds + rest)[1..] == ds[1..] + rest;
      DigitRunOf(ds[1..], rest);
    } else {
      assert ds + rest == rest;
    }
  }

  /** A run of digits followed by text that cannot extend it, split back apart. */
  lemma DigitsThen(ds: string, rest: string)
    requires forall c :: c in ds ==> IsDigit(c)
    requires rest == [] || !IsDigit(rest[0])
    ensures DigitRun(ds + rest) == |ds|
    ensures (ds + rest)[..|ds|] == ds && (ds + rest)[|ds|..] == rest
  {
    DigitRunOf(ds, rest);
  }

  /** `ParseInt` on a run of digits followed by text that cannot extend it. */
  lemma ParseIntDigits(ds: string, rest: string)
    requires ds != [] && forall c :: c in ds ==> IsDigit(c)
    requires rest == [] || !IsDigit(rest[0])
    ensures ParseInt(ds + rest) == Some((Int(DigitsValue(ds)), rest))
  {
    assert ds[0] in ds && (ds + rest)[0] == ds[0];
    DigitsThen(ds, rest);
  }

  /** `ParseInt` on a minus sign and a run of digits. */
  lemma ParseIntMinus(ds: string, rest: string)
    requires ds != [] && forall c :: c in ds ==> IsDigit(c)
    requires rest == [] || !IsDigit(rest[0])
    ensures ParseInt("-" + (ds + rest)) == Some((Int(0 - DigitsValue(ds)), rest))
  {
    var t := ds + rest;
    assert ("-" + t)[0] == '-' && ("-" + t)[1..] == t;
    DigitsThen(ds, rest);
  }

  lemma IntRoundTrip(i: int, rest: string)
    requires rest == [] || !IsDigit(rest[0])
    ensures ParseInt(IntToString(i) + rest) == Some((Int(i), rest))
  {
    var n: nat := if i < 0 then -i else i;
    var ds := NatToString(n);
    DigitsValueOfNatToString(n);
    if i < 0 {
      assert IntToString(i) + rest == "-" + (ds + rest);
      ParseIntMinus(ds, rest);
    } else {
      assert IntToString(i) == ds;
      ParseIntDigits(ds, rest);
    }
  }

  /** Text that starts with a sign or a digit is read as a number. */
  lemma ParseNumberStep(s: string)
    requires |s| > 0 && (s[0] == '-' || IsDigit(s[0]))
    ensures ParseValue(s) == ParseInt(s)
  {
    assert !("null" <= s) && !("true" <= s) && !("false" <= s);
  }

  /** The first character of any `Dumps` text opens a value. */
  lemma DumpsStart(v: Value)
    ensures |Dumps(v)| > 0
    ensures Dumps(v)[0] != ']' && Dumps(v)[0] != '}' && Dumps(v)[0] != ','
  {
    if v.Int? {
      var n: nat := if v.i < 0 then -v.i else v.i;
      assert NatToString(n)[0] in NatToString(n);
    }
  }

  // Each parser step, stated on plain strings so that the round-trip proofs
  // below never unfold the parsers on a `Dumps` text.

  lemma ParseMapStep(s: string, entries: seq<(string, Value)>, rest: string)
    requires |s| > 1 && s[0] == '{' && s[1] != '}'
    requires ParseEntries(s[1..]) == Some((entries, rest))
    ensures ParseValue(s) == Some((Map(entries), rest))
  {
  }

  lemma ParseListStep(s: string, items: seq<Value>, rest: string)
    requires |s| > 1 && s[0] == '[' && s[1] != ']'
    requires ParseItems(s[1..]) == Some((items, rest))
    ensures ParseValue(s) == Some((List(items), rest))
  {
  }

  lemma ParseStrStep(s: string, t: string, rest: string)
    requires |s| > 0 && s[0] == '"'
    requires ParseString(s[1..]) == Some((t, rest))
    ensures ParseValue(s) == Some((Str(t), rest))
  {
  }

  lemma ParseEmptyList(s: string)
    requires |s| > 1 && s[0] == '[' && s[1] == ']'
    ensures ParseValue(s) == Some((List([]), s[2..]))
  {
  }

  lemma ParseEmptyMap(s: string)
    requires |s| > 1 && s[0] == '{' && s[1] == '}'
    ensures ParseValue(s) == Some((Map([]), s[2..]))
  {
  }

  lemma ParseMoreItems(s: string, v: Value, more: string, items: seq<Value>, rest: string)
    requires ParseValue(s) == Some((v, ", " + more))
    requires ParseItems(more) == Some((items, rest))
    ensures ParseItems(s) == Some(([v] + items, rest))
  {
    assert ", " <= ", " + more && (", " + more)[2..] == more;
  }

  lemma ParseLastItem(s: string, v: Value, rest: string)
    requires ParseValue(s) == Some((v, "]" + rest))
    ensures ParseItems(s) == Some(([v], rest))
  {
    assert ("]" + rest)[0] == ']' && ("]" + rest)[1..] == rest;
  }

  /** `ParseEntries` on a last field `"key": v}`. */
  lemma ParseLastField(s: string, key: string, x: string, v: Value, rest: string)
    requires |s| > 0 && s[0] == '"'
    requires ParseString(s[1..]) == Some((key, ": " + x))
    requires ParseValue(x) == Some((v, "}" + rest))
    ensures ParseEntries(s) == Some(([(key, v)], rest))
  {
    assert ": " <= ": " + x && (": " + x)[2..] == x;
    assert ("}" + rest)[0] == '}' && ("}" + rest)[1..] == rest;
  }

  /** `ParseEntries` on a field `"key": v, ` followed by more fields. */
  lemma ParseMoreFields(s: string, key: string, x: string, v: Value, more: string, es: seq<(string, Value)>, rest: string)
    requires |s| > 0 && s[0] == '"'
    requires ParseString(s[1..]) == Some((key, ": " + x))
    requires ParseValue(x) == Some((v, ", " + more))
    requires ParseEntries(more) == Some((es, rest))
    ensures ParseEntries(s) == Some(([(key, v)] + es, rest))
  {
    assert ": " <= ": " + x && (": " + x)[2..] == x;
    assert ", " <= ", " + more && (", " + more)[2..] == more;
  }

  /** Regrouping a concatenation of four texts to the right. */
  lemma Regroup(a: string, b: string, c: string, d: string)
    ensures a + b + c + d == a + (b + (c + d))
  {
  }

  lemma NullRoundTrip(rest: string)
    ensures ParseValue("null" + rest) == Some((Null, rest))
  {
    assert ("null" + rest)[4..] == rest;
  }

  lemma BoolRoundTrip(b: bool, rest: string)
    ensures ParseValue(Dumps(Bool(b)) + rest) == Some((Bool(b), rest))
  {
    var s := Dumps(Bool(b)) + rest;
    if b {
      assert s[0] == 't';
      assert s[..4] == "true" && s[4..] == rest;
    } else {
      assert s[0] == 'f';
      assert s[..5] == "false" && s[5..] == rest;
    }
  }

  lemma IntValueRoundTrip(i: int, rest: string)
    requires rest == [] || !IsDigit(rest[0])
    ensures ParseValue(IntToString(i) + rest) == Some((Int(i), rest))
  {
    var s := IntToString(i) + rest;
    var n: nat := if i < 0 then -i else i;
    assert NatToString(n)[0] in NatToString(n);
    assert s[0] == '-' || IsDigit(s[0]);
    ParseNumberStep(s);
    IntRoundTrip(i, rest);
  }

  /** `json.loads(json.dumps(v)) == v`, for a value followed by any text that cannot extend it. */
  lemma {:induction false} ValueRoundTrip(v: Value, rest: string)
    requires rest == [] || !IsDigit(rest[0])
    ensures ParseValue(Dumps(v) + rest) == Some((v, rest))
    decreases v, 2
  {
    match v
    case Null => NullRoundTrip(rest);
    case Bool(b) => BoolRoundTrip(b, rest);
    case Int(i) => IntValueRoundTrip(i, rest);
    case Str(t) =>
      QuoteThen(t, rest);
      StringRoundTrip(t, rest);
      ParseStrStep(Quote(t) + rest, t, rest);
    case List(items) => ListRoundTrip(items, rest);
    case Map(entries) => MapRoundTrip(entries, rest);
  }

  lemma {:induction false} ListRoundTrip(items: seq<Value>, rest: string)
    requires rest == [] || !IsDigit(rest[0])
    ensures ParseValue(Dumps(List(items)) + rest) == Some((List(items), rest))
    decreases List(items), 1
  {
    var s := "[" + DumpItems(items) + "]" + rest;
    if items == [] {
      assert s == "[]" + rest && s[2..] == rest;
      ParseEmptyList(s);
    } else {
      var body := DumpItems(items) + ("]" + rest);
      Regroup("[", DumpItems(items), "]", rest);
      assert s[0] == '[' && s[1..] == body;
      ItemsRoundTrip(items, rest);
      DumpsStart(items[0]);
      DumpItemsStart(items);
      assert body[0] == Dumps(items[0])[0];
      ParseListStep(s, items, rest);
    }
  }

  lemma {:induction false} MapRoundTrip(entries: seq<(string, Value)>, rest: string)
    requires rest == [] || !IsDigit(rest[0])
    ensures ParseValue(Dumps(Map(entries)) + rest) == Some((Map(entries), rest))
    decreases Map(entries), 1
  {
    var s := "{" + DumpEntries(entries) + "}" + rest;
    if entries == [] {
      assert s == "{}" + rest && s[2..] == rest;
      ParseEmptyMap(s);
    } else {
      var body := DumpEntries(entries) + ("}" + rest);
      Regroup("{", DumpEntries(entries), "}", rest);
      assert s[0] == '{' && s[1..] == body;
      FieldRoundTrip(entries, rest);
      EntriesRoundTrip(entries, rest);
      ParseMapStep(s, entries, rest);
    }
  }

  lemma DumpItemsStart(items: seq<Value>)
    requires items != []
    ensures |Dumps(items[0])| > 0
    ensures DumpItems(items)[..|Dumps(items[0])|] == Dumps(items[0])
  {
    DumpsStart(items[0]);
  }

  lemma {:induction false} ItemsRoundTrip(items: seq<Value>, rest: string)
    requires items != []
    ensures ParseItems(DumpItems(items) + ("]" + rest)) == Some((items, rest))
    decreases items, 0
  {
    var s := DumpItems(items) + ("]" + rest);
    if |items| == 1 {
      assert DumpItems(items) == Dumps(items[0]);
      ValueRoundTrip(items[0], "]" + rest);
      ParseLastItem(s, items[0], rest);
      assert [items[0]] == items;
    } else {
      var more := DumpItems(items[1..]) + ("]" + rest);
      assert DumpItems(items) == Dumps(items[0]) + ", " + DumpItems(items[1..]);
      Regroup(Dumps(items[0]), ", ", DumpItems(items[1..]), "]" + rest);
      ValueRoundTrip(items[0], ", " + more);
      ItemsRoundTrip(items[1..], rest);
      ParseMoreItems(s, items[0], more, items[1..], rest);
      assert [items[0]] + items[1..] == items;
    }
  }

  /** The text after one field of a mapping: the closing brace, or a comma and the other fields. */
  function AfterField(entries: seq<(string, Value)>, rest: string): string
    requires entries != []
  {
    if |entries| == 1 then "}" + rest else ", " + (DumpEntries(entries[1..]) + ("}" + rest))
  }

  /** The text after the first field's value, split off without unfolding the rest. */
  function Tail(entries: seq<(string, Value)>): string
    requires entries != []
  {
    if |entries| == 1 then "" else ", " + DumpEntries(entries[1..])
  }

  lemma DumpEntriesHead(entries: seq<(string, Value)>)
    requires entries != []
    ensures DumpEntries(entries) == Quote(entries[0].0) + ": " + Dumps(entries[0].1) + Tail(entries)
  {
  }

  lemma AfterFieldTail(entries: seq<(string, Value)>, rest: string)
    requires entries != []
    ensures AfterField(entries, rest) == Tail(entries) + ("}" + rest)
  {
    if |entries| == 1 {
      assert Tail(entries) == "";
    }
  }

  /** One field's text regrouped around its key, for any text after it. */
  lemma FieldText(whole: string, q: string, d: string, tail: string, after: string)
    requires whole == q + ": " + d + tail
    ensures whole + after == q + (": " + (d + (tail + after)))
  {
  }

  lemma QuoteThen(t: string, x: string)
    ensures |Quote(t) + x| > 0 && (Quote(t) + x)[0] == '"'
    ensures (Quote(t) + x)[1..] == Escape(t) + "\"" + x
  {
  }

  lemma FieldRoundTrip(entries: seq<(string, Value)>, rest: string)
    requires entries != []
    ensures var s := DumpEntries(entries) + ("}" + rest);
      && |s| > 0 && s[0] == '"'
      && ParseString(s[1..]) == Some((entries[0].0, ": " + (Dumps(entries[0].1) + AfterField(entries, rest))))
  {
    var e := entries[0];
    var afterKey := ": " + (Dumps(e.1) + AfterField(entries, rest));
    DumpEntriesHead(entries);
    AfterFieldTail(entries, rest);
    FieldText(DumpEntries(entries), Quote(e.0), Dumps(e.1), Tail(entries), "}" + rest);
    QuoteThen(e.0, afterKey);
    StringRoundTrip(e.0, afterKey);
  }

  lemma {:induction false} EntriesRoundTrip(entries: seq<(string, Value)>, rest: string)
    requires entries != []
    ensures ParseEntries(DumpEntries(entries) + ("}" + rest)) == Some((entries, rest))
    decreases entries, 0
  {
    var e := entries[0];
    assert e.1 < e;
    var s := DumpEntries(entries) + ("}" + rest);
    var x := Dumps(e.1) + AfterField(entries, rest);
    FieldRoundTrip(entries, rest);
    if |entries| == 1 {
      ValueRoundTrip(e.1, "}" + rest);
      ParseLastField(s, e.0, x, e.1, rest);
      assert [e] == entries;
    } else {
      var more := DumpEntries(entries[1..]) + ("}" + rest);
      ValueRoundTrip(e.1, ", " + more);
      EntriesRoundTrip(entries[1..], rest);
      ParseMoreFields(s, e.0, x, e.1, more, entries[1..], rest);
      assert [e] + entries[1..] == entries;
    }
  }

  /** What `json.dumps` writes, `Parse` reads back to the same value. */
  lemma DumpsRoundTrip(v: Value)
    ensures Parse(Dumps(v)) == Some(v)
  {
    ValueRoundTrip(v, []);
    assert Dumps(v) + [] == Dumps(v);
  }
}
