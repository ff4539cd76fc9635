/** The few JavaScript string built-ins the core relies on, over `seq<char>`
    (one `char` per UTF-16 code unit). */
module JsString {

  /** `s.indexOf(c)`: the first position of `c` in `s`, or -1 when absent. */
  function IndexOf(s: string, c: char): (k: int)
    ensures -1 <= k < |s|
    ensures k == -1 <==> c !in s
    ensures k >= 0 ==> s[k] == c && c !in s[..k]
  {
    IndexFrom(s, c, 0)
  }

  /** The first position at or after `from` holding `c`, or -1. */
  function IndexFrom(s: string, c: char, from: nat): (k: int)
    requires from <= |s|
    ensures -1 <= k < |s|
    ensures k == -1 <==> c !in s[from..]
    ensures k >= 0 ==> from <= k && s[k] == c && c !in s[from..k]
    decreases |s| - from
  {
    if from == |s| then -1
    else if s[from] == c then from
    else
      var k := IndexFrom(s, c, from + 1);
      assert s[from..] == [s[from]] + s[from + 1..];
      assert k >= 0 ==> s[from..k] == [s[from]] + s[from + 1..k];
      k
  }

  /** `s.includes(t)`: `t` occurs in `s` at some offset. */
  predicate Includes(s: string, t: string) {
    IncludesFrom(s, t, 0)
  }

  /** `t` occurs in `s` at some offset from `from` on. */
  predicate IncludesFrom(s: string, t: string, from: nat)
    decreases |s| - from
  {
    from + |t| <= |s| && (s[from..from + |t|] == t || IncludesFrom(s, t, from + 1))
  }

  /** Searching for a one-character string is membership of that character. */
  lemma IncludesChar(s: string, c: char)
    ensures Includes(s, [c]) <==> c in s
  {
    IncludesCharFrom(s, c, 0);
  }

  lemma {:induction false} IncludesCharFrom(s: string, c: char, from: nat)
    requires from <= |s|
    ensures IncludesFrom(s, [c], from) <==> c in s[from..]
    decreases |s| - from
  {
    if from < |s| {
      IncludesCharFrom(s, c, from + 1);
      assert s[from..] == [s[from]] + s[from + 1..];
      assert s[from..from + 1] == [s[from]];
    }
  }

  /** `t` occurs at offset `k` of `s`. */
  lemma IncludesAt(s: string, t: string, k: nat)
    requires k + |t| <= |s| && s[k..k + |t|] == t
    ensures Includes(s, t)
  {
    IncludesAtFrom(s, t, k, 0);
  }

  lemma {:induction false} IncludesAtFrom(s: string, t: string, k: nat, from: nat)
    requires from <= k && k + |t| <= |s| && s[k..k + |t|] == t
    ensures IncludesFrom(s, t, from)
    decreases k - from
  {
    if from < k {
      IncludesAtFrom(s, t, k, from + 1);
    }
  }

  /** JavaScript clamps a `substring` bound into [0, n]. */
  function Clamp(i: int, n: nat): (r: nat)
    ensures r <= n
  {
    if i < 0 then 0 else if i > n then n else i
  }

  /** `s.substring(start, end)`: both bounds are clamped to [0, |s|] and
      swapped when the first exceeds the second. */
  function Substring(s: string, start: int, end: int): (r: string)
    ensures |r| <= |s|
  {
    var a, b := Clamp(start, |s|), Clamp(end, |s|);
    if a <= b then s[a..b] else s[b..a]
  }

  /** In-range bounds are taken as they are. */
  lemma SubstringInRange(s: string, start: int, end: int)
    requires 0 <= start <= end <= |s|
    ensures Substring(s, start, end) == s[start..end]
  {
  }

  /** The parts joined back with the separator (`parts.join(sep)`). */
  function Join(parts: seq<string>, sep: char): string
  {
    if |parts| == 0 then ""
    else if |parts| == 1 then parts[0]
    else parts[0] + [sep] + Join(parts[1..], sep)
  }

  /** `s.split(sep)` for a one-character separator. */
  function Split(s: string, sep: char): (parts: seq<string>)
    ensures |parts| >= 1
    decreases |s|
  {
    var k := IndexOf(s, sep);
    if k < 0 then [s] else [s[..k]] + Split(s[k + 1..], sep)
  }

  /** The parts of `s.split(sep)` hold no separator. */
  lemma {:induction false} SplitNoSeparator(s: string, sep: char)
    ensures forall i :: 0 <= i < |Split(s, sep)| ==> sep !in Split(s, sep)[i]
    decreases |s|
  {
    var k := IndexOf(s, sep);
    if k >= 0 {
      var rest := Split(s[k + 1..], sep);
      SplitNoSeparator(s[k + 1..], sep);
      var parts := Split(s, sep);
      assert parts == [s[..k]] + rest;
      forall i | 0 <= i < |parts|
        ensures sep !in parts[i]
      {
        if i > 0 {
          assert parts[i] == rest[i - 1];
        }
      }
    }
  }

  /** The parts of `s.split(sep)` join back to `s`. */
  lemma {:induction false} SplitJoin(s: string, sep: char)
    ensures Join(Split(s, sep), sep) == s
    decreases |s|
  {
    var k := IndexOf(s, sep);
    if k >= 0 {
      var head, rest := s[..k], Split(s[k + 1..], sep);
      var parts := [head] + rest;
      SplitJoin(s[k + 1..], sep);
      assert Split(s, sep) == parts;
      assert parts[1..] == rest;
      assert Join(parts, sep) == head + [sep] + Join(rest, sep);
      assert s == head + [sep] + s[k + 1..];
    }
  }

  /** Split is the only way of cutting `s` into separator-free parts that
      join back to `s`. */
  lemma {:induction false} SplitUnique(parts: seq<string>, s: string, sep: char)
    requires |parts| >= 1
    requires forall i :: 0 <= i < |parts| ==> sep !in parts[i]
    requires Join(parts, sep) == s
    ensures Split(s, sep) == parts
    decreases |parts|
  {
    if |parts| == 1 {
      assert sep !in s;
    } else {
      var head, tail := parts[0], Join(parts[1..], sep);
      assert s == head + [sep] + tail;
      SplitAt(s, head, tail, sep);
      SplitUnique(parts[1..], tail, sep);
      assert parts == [head] + parts[1..];
    }
  }

  /** A separator-free head followed by the separator is the first part. */
  lemma SplitAt(s: string, head: string, tail: string, sep: char)
    requires sep !in head && s == head + [sep] + tail
    ensures Split(s, sep) == [head] + Split(tail, sep)
  {
    var k := |head|;
    assert s[..k] == head;
    assert s[k] == sep;
    assert IndexOf(s, sep) == k;
    assert s[k + 1..] == tail;
  }

  /** The characters `String.prototype.trim` removes: the ECMAScript
      WhiteSpace and LineTerminator code points. */
  predicate IsSpace(c: char) {
    var n := c as int;
    n == 0x20 || 0x09 <= n <= 0x0D || n == 0xA0 || n == 0x1680 ||
    0x2000 <= n <= 0x200A || n == 0x2028 || n == 0x2029 || n == 0x202F ||
    n == 0x205F || n == 0x3000 || n == 0xFEFF
  }

  /** `s.trimStart()`: the suffix left after dropping leading white space. */
  function TrimStart(s: string): (r: string)
    ensures |r| <= |s| && r == s[|s| - |r|..]
  {
    if |s| > 0 && IsSpace(s[0]) then TrimStart(s[1..]) else s
  }

  /** `trimStart` removes white space only, and all of it. */
  lemma {:induction false} TrimStartSpaces(s: string)
    ensures forall i :: 0 <= i < |s| - |TrimStart(s)| ==> IsSpace(s[i])
    ensures TrimStart(s) != [] ==> !IsSpace(TrimStart(s)[0])
    decreases |s|
  {
    if |s| > 0 && IsSpace(s[0]) {
      TrimStartSpaces(s[1..]);
    }
  }

  /** `s.trimEnd()`: the prefix left after dropping trailing white space. */
  function TrimEnd(s: string): (r: string)
    ensures |r| <= |s| && r == s[..|r|]
  {
    if |s| > 0 && IsSpace(s[|s| - 1]) then TrimEnd(s[..|s| - 1]) else s
  }

  /** `trimEnd` removes white space only, and all of it. */
  lemma {:induction false} TrimEndSpaces(s: string)
    ensures forall i :: |TrimEnd(s)| <= i < |s| ==> IsSpace(s[i])
    ensures TrimEnd(s) != [] ==> !IsSpace(TrimEnd(s)[|TrimEnd(s)| - 1])
    decreases |s|
  {
    if |s| > 0 && IsSpace(s[|s| - 1]) {
      TrimEndSpaces(s[..|s| - 1]);
    }
  }

  /** `s.trim()`. */
  function Trim(s: string): string {
    TrimEnd(TrimStart(s))
  }

  predicate IsDigit(c: char) {
    '0' <= c <= '9'
  }

  function DigitChar(d: nat): (c: char)
    requires d < 10
    ensures IsDigit(c) && c as int - '0' as int == d
  {
    "0123456789"[d]
  }

  /** The decimal digits of `n`, most significant first, without leading zeros. */
  function NatToString(n: nat): (s: string)
    ensures |s| >= 1
    ensures forall i :: 0 <= i < |s| ==> IsDigit(s[i])
  {
    if n < 10 then [DigitChar(n)] else NatToString(n / 10) + [DigitChar(n % 10)]
  }

  /** `String(i)` / `${i}` for an integer-valued number. */
  function IntToString(i: int): string {
    if i < 0 then "-" + NatToString(-i) else NatToString(i)
  }
}
