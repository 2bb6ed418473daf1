/** The Python string built-ins the source relies on, stated on `seq<char>`. */
module Strings {

  import opened Wrappers

  /** Python's `needle in hay` on strings: a substring test. */
  function Contains(hay: string, needle: string): bool
    decreases |hay|
  {
    needle <= hay || (|hay| > 0 && Contains(hay[1..], needle))
  }

  lemma {:induction false} ContainsInfix(a: string, needle: string, b: string)
    ensures Contains(a + needle + b, needle)
    decreases |a|
  {
    if a == [] {
      assert a + needle + b == needle + b;
    } else {
      assert (a + needle + b)[1..] == a[1..] + needle + b;
      ContainsInfix(a[1..], needle, b);
    }
  }

  /** Text added after a string keeps every substring it had. */
  lemma {:induction false} ContainsAppend(m: string, c: string, needle: string)
    requires Contains(m, needle)
    ensures Contains(m + c, needle)
    decreases |m|
  {
    if !(needle <= m) {
      assert (m + c)[1..] == m[1..] + c;
      ContainsAppend(m[1..], c, needle);
    }
  }

  /** Text added before a string keeps every substring it had. */
  lemma {:induction false} ContainsPrepend(a: string, m: string, needle: string)
    requires Contains(m, needle)
    ensures Contains(a + m, needle)
    decreases |a|
  {
    if a == [] {
      assert a + m == m;
    } else {
      assert (a + m)[1..] == a[1..] + m;
      ContainsPrepend(a[1..], m, needle);
    }
  }

  /** The position of the first `c` in `s`. */
  function IndexOf(s: string, c: char): (i: nat)
    requires c in s
    ensures i < |s| && s[i] == c && c !in s[..i]
  {
    if s[0] == c then 0
    else
      var j := IndexOf(s[1..], c);
      assert s[..j + 1] == [s[0]] + s[1..][..j];
      j + 1
  }

  /** A position holding `c` with no `c` before it is the one `IndexOf` finds. */
  lemma {:induction false} IndexOfAt(s: string, c: char, j: nat)
    requires j < |s| && s[j] == c && c !in s[..j]
    ensures IndexOf(s, c) == j
  {
    if j > 0 {
      assert s[0] == s[..j][0];
      assert s[1..][..j - 1] == s[1..j];
      assert s[1..j] == s[..j][1..];
      IndexOfAt(s[1..], c, j - 1);
    }
  }

  /** `"".join(parts)`, taken from the first part on. */
  function Flatten(parts: seq<string>): string {
    if parts == [] then "" else Flatten(parts[..|parts| - 1]) + parts[|parts| - 1]
  }

  lemma {:induction false} FlattenAppend(a: seq<string>, b: seq<string>)
    ensures Flatten(a + b) == Flatten(a) + Flatten(b)
    decreases |b|
  {
    if b == [] {
      assert a + b == a;
    } else {
      var b' := b[..|b| - 1];
      var ab := a + b;
      assert ab[..|ab| - 1] == a + b';
      assert ab[|ab| - 1] == b[|b| - 1];
      FlattenAppend(a, b');
    }
  }

  /** One more part adds its text at the end. */
  lemma FlattenSnoc(parts: seq<string>, x: string)
    ensures Flatten(parts + [x]) == Flatten(parts) + x
  {
    assert (parts + [x])[..|parts|] == parts;
  }

  lemma SliceSnoc<T>(s: seq<T>, i: nat)
    requires i < |s|
    ensures s[..i + 1] == s[..i] + [s[i]]
  {
  }

  lemma SliceSplit<T>(s: seq<T>, k: nat)
    requires k <= |s|
    ensures s == s[..k] + s[k..]
  {
  }

  /** Dropping the last element, seen from the front part and from the back part of a cut at `i`. */
  lemma SliceLast<T>(s: seq<T>, i: nat)
    requires i < |s|
    ensures s[..|s| - 1][..i] == s[..i]
    ensures s[i..][..|s[i..]| - 1] == s[..|s| - 1][i..]
    ensures s[i..][|s[i..]| - 1] == s[|s| - 1]
  {
  }

  /** The joined text around one of its parts. */
  lemma FlattenAround(parts: seq<string>, i: nat)
    requires i < |parts|
    ensures Flatten(parts) == Flatten(parts[..i]) + parts[i] + Flatten(parts[i + 1..])
  {
    var upTo, after := parts[..i + 1], parts[i + 1..];
    SliceSnoc(parts, i);
    SliceSplit(parts, i + 1);
    FlattenAppend(upTo, after);
    assert Flatten(parts) == Flatten(upTo) + Flatten(after);
    FlattenSnoc(parts[..i], parts[i]);
    assert Flatten(upTo) == Flatten(parts[..i]) + parts[i];
  }

  /** Python's `s.split(sep)` for a one-character separator. */
  function Split(s: string, sep: char): (parts: seq<string>)
    ensures |parts| >= 1
    ensures forall i :: 0 <= i < |parts| ==> sep !in parts[i]
    decreases |s|
  {
    if sep !in s then [s]
    else
      var i := IndexOf(s, sep);
      [s[..i]] + Split(s[i + 1..], sep)
  }

  /** Python's `sep.join(parts)`, the inverse of `Split`. */
  function Join(parts: seq<string>, sep: char): string
    requires |parts| >= 1
  {
    if |parts| == 1 then parts[0] else parts[0] + [sep] + Join(parts[1..], sep)
  }

  /** Text around a separator that occurs nowhere before it splits back at that separator. */
  lemma SeparatorAt(a: string, sep: char, b: string)
    requires sep !in a
    ensures var s := a + [sep] + b;
      && sep in s && IndexOf(s, sep) == |a|
      && s[..|a|] == a && s[|a| + 1..] == b
  {
    var s := a + [sep] + b;
    assert s[|a|] == sep && s[..|a|] == a;
    IndexOfAt(s, sep, |a|);
    assert s[|a| + 1..] == b;
  }

  /** `Split` takes off the text before the first separator. */
  lemma SplitStep(a: string, sep: char, b: string)
    requires sep !in a
    ensures Split(a + [sep] + b, sep) == [a] + Split(b, sep)
  {
    SeparatorAt(a, sep, b);
  }

  /** A text put back together around one of its characters. */
  lemma AroundIndex(s: string, i: nat)
    requires i < |s|
    ensures s == s[..i] + [s[i]] + s[i + 1..]
  {
  }

  lemma {:induction false} JoinSplit(s: string, sep: char)
    ensures Join(Split(s, sep), sep) == s
    decreases |s|
  {
    if sep in s {
      var i := IndexOf(s, sep);
      JoinSplit(s[i + 1..], sep);
      AroundIndex(s, i);
    }
  }

  lemma {:induction false} SplitJoin(parts: seq<string>, sep: char)
    requires |parts| >= 1
    requires forall i :: 0 <= i < |parts| ==> sep !in parts[i]
    ensures Split(Join(parts, sep), sep) == parts
    decreases |parts|
  {
    if |parts| > 1 {
      var rest := Join(parts[1..], sep);
      assert Join(parts, sep) == parts[0] + [sep] + rest;
      SplitStep(parts[0], sep, rest);
      assert forall i :: 0 <= i < |parts[1..]| ==> parts[1..][i] == parts[i + 1];
      SplitJoin(parts[1..], sep);
      assert [parts[0]] + parts[1..] == parts;
    }
  }

  function LowerChar(c: char): char {
    if 'A' <= c <= 'Z' then (c as int + 32) as char else c
  }

  /** Python's `s.lower()`, on the ASCII letters. */
  function Lower(s: string): (r: string)
    ensures |r| == |s|
    ensures forall i :: 0 <= i < |s| ==> r[i] == LowerChar(s[i])
  {
    seq(|s|, i requires 0 <= i < |s| => LowerChar(s[i]))
  }

  predicate IsDigit(c: char) {
    '0' as int <= c as int <= '9' as int
  }

  /** `re.sub("\D", "", s)`: the decimal digits of `s`, in order. */
  function KeepDigits(s: string): (r: string)
    ensures forall c :: c in r ==> IsDigit(c)
    ensures |r| <= |s|
  {
    if s == [] then []
    else (if IsDigit(s[0]) then [s[0]] else []) + KeepDigits(s[1..])
  }

  /** `re.sub("\D", "", s)` keeps a run of digits and drops a suffix without digits, such as the unit of "30m". */
  lemma {:induction false} KeepDigitsOfDigits(ds: string, suffix: string)
    requires forall c :: c in ds ==> IsDigit(c)
    requires forall c :: c in suffix ==> !IsDigit(c)
    ensures KeepDigits(ds + suffix) == ds
    decreases |ds| + |suffix|
  {
    if ds != [] {
      assert ds[0] in ds;
      assert (ds + suffix)[1..] == ds[1..] + suffix;
      KeepDigitsOfDigits(ds[1..], suffix);
    } else if suffix != [] {
      assert suffix[0] in suffix;
      assert (ds + suffix)[1..] == [] + suffix[1..];
      KeepDigitsOfDigits([], suffix[1..]);
    } else {
      assert ds + suffix == [];
    }
  }

  function DigitChar(d: nat): (c: char)
    requires d < 10
    ensures IsDigit(c) && c as int - '0' as int == d
  {
    "0123456789"[d]
  }

  /** Python's `str(n)` for a natural number. */
  function NatToString(n: nat): (s: string)
    ensures |s| >= 1
    ensures forall c :: c in s ==> IsDigit(c)
  {
    if n < 10 then [DigitChar(n)] else NatToString(n / 10) + [DigitChar(n % 10)]
  }

  /** Python's `str(i)` for an integer. */
  function IntToString(i: int): string {
    if i < 0 then "-" + NatToString(-i) else NatToString(i)
  }

  /** The value of a string of decimal digits, as Python's `int` reads it. */
  function DigitsValue(ds: string): nat
    requires forall c :: c in ds ==> IsDigit(c)
  {
    if ds == [] then 0
    else
      var last := ds[|ds| - 1];
      assert last in ds;
      assert IsDigit(last);
      DigitsValue(ds[..|ds| - 1]) * 10 + (last as int - '0' as int)
  }

  /** Python's `int(ds)` for the output of `KeepDigits`: `int("")` raises, so it is `None`. */
  function ParseDigits(ds: string): (r: Option<nat>)
    requires forall c :: c in ds ==> IsDigit(c)
    ensures r.None? <==> ds == []
  {
    if ds == [] then None else Some(DigitsValue(ds))
  }

  lemma {:induction false} DigitsValueOfNatToString(n: nat)
    ensures DigitsValue(NatToString(n)) == n
  {
    if n >= 10 {
      var s := NatToString(n / 10) + [DigitChar(n % 10)];
      assert s[..|s| - 1] == NatToString(n / 10);
      DigitsValueOfNatToString(n / 10);
    }
  }
}
