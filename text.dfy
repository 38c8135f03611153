/** String operations the core relies on from its host languages: prefix and
    substring tests, `String.prototype.split` with a string separator, decimal
    formatting of numbers and the byte-wise ordering of Rust's `String::cmp`. */
module Text {
  import opened Wrappers

  predicate StartsWith(s: string, prefix: string)
  {
    |prefix| <= |s| && s[..|prefix|] == prefix
  }

  predicate EndsWith(s: string, suffix: string)
  {
    |suffix| <= |s| && s[|s| - |suffix|..] == suffix
  }

  predicate OccursAt(s: string, sub: string, i: int)
  {
    0 <= i && i + |sub| <= |s| && s[i..i + |sub|] == sub
  }

  /** `s.includes(sub)` in JavaScript, `s.contains(sub)` in Rust. */
  predicate Contains(s: string, sub: string)
  {
    exists i | 0 <= i <= |s| - |sub| :: OccursAt(s, sub, i)
  }

  lemma StartsWithContains(s: string, sub: string)
    requires StartsWith(s, sub)
    ensures Contains(s, sub)
  {
    assert OccursAt(s, sub, 0);
  }

  // ---------------------------------------------------------------------------
  // String.prototype.split with a non-empty string separator

  /** `s.split(sep)`: the pieces between the non-overlapping occurrences of `sep`,
      found from left to right; an input without `sep` is one piece. */
  function Split(s: string, sep: string): (parts: seq<string>)
    requires |sep| > 0
  {
    SplitFrom(s, sep, "")
  }

  /** Splits `s`, where `acc` is the part of the current piece already read. */
  function SplitFrom(s: string, sep: string, acc: string): (parts: seq<string>)
    requires |sep| > 0
    ensures |parts| > 0
    decreases |s|
  {
    if StartsWith(s, sep) then [acc] + SplitFrom(s[|sep|..], sep, "")
    else if s == [] then [acc]
    else SplitFrom(s[1..], sep, acc + [s[0]])
  }

  /** `parts.join(sep)`. */
  function Join(parts: seq<string>, sep: string): (s: string)
    requires |parts| > 0
  {
    if |parts| == 1 then parts[0] else parts[0] + sep + Join(parts[1..], sep)
  }

  lemma {:induction false} SplitFromJoin(s: string, sep: string, acc: string)
    requires |sep| > 0
    ensures Join(SplitFrom(s, sep, acc), sep) == acc + s
    decreases |s|
  {
    if StartsWith(s, sep) {
      var tail := s[|sep|..];
      var rest := SplitFrom(tail, sep, "");
      SplitFromJoin(tail, sep, "");
      var parts := [acc] + rest;
      assert parts == SplitFrom(s, sep, acc);
      assert parts[0] == acc && parts[1..] == rest;
      assert Join(parts, sep) == acc + sep + Join(rest, sep);
      assert s == sep + tail;
    } else if s == [] {
    } else {
      SplitFromJoin(s[1..], sep, acc + [s[0]]);
      assert (acc + [s[0]]) + s[1..] == acc + s;
    }
  }

  /** A piece free of the separator's first character ends at the separator
      that follows it. */
  lemma {:induction false} SplitLine(s: string, sep: string, t: string, acc: string)
    requires |sep| > 0
    requires forall i | 0 <= i < |s| :: s[i] != sep[0]
    ensures SplitFrom(s + sep + t, sep, acc) == [acc + s] + SplitFrom(t, sep, "")
    decreases |s|
  {
    var u := s + sep + t;
    if s == [] {
      assert u == sep + t;
      assert StartsWith(u, sep);
      assert u[|sep|..] == t;
      assert acc + s == acc;
    } else {
      assert !StartsWith(u, sep) by { assert u[0] == s[0]; }
      assert u[1..] == s[1..] + sep + t;
      SplitLine(s[1..], sep, t, acc + [s[0]]);
      assert (acc + [s[0]]) + s[1..] == acc + s;
    }
  }

  /** A line without the separator's first character, followed by the separator,
      splits into the line and an empty last piece. */
  lemma SplitTerminatedLine(line: string, sep: string)
    requires |sep| > 0
    requires forall i | 0 <= i < |line| :: line[i] != sep[0]
    ensures Split(line + sep, sep) == [line, ""]
  {
    SplitLine(line, sep, "", "");
    assert line + sep + "" == line + sep;
    assert SplitFrom("", sep, "") == [""];
    assert "" + line == line;
  }

  /** Joining the pieces with the separator gives back the input: no text is lost
      or invented by `split`. */
  lemma SplitJoin(s: string, sep: string)
    requires |sep| > 0
    ensures Join(Split(s, sep), sep) == s
  {
    SplitFromJoin(s, sep, "");
  }

  // ---------------------------------------------------------------------------
  // String-valued enums

  /** `Object.values(E).includes(str)` followed by the cast `str as E`: the
      first member whose string value is `str`, `None` when there is none. */
  function FindNamed<T>(members: seq<T>, name: T -> string, str: string): (r: Option<T>)
    ensures r.Some? ==> r.value in members && name(r.value) == str
    ensures r.None? <==> forall m | m in members :: name(m) != str
  {
    FindNamedFrom(members, name, str, 0)
  }

  /** The search from position `i` on. */
  function FindNamedFrom<T>(members: seq<T>, name: T -> string, str: string, i: nat): (r: Option<T>)
    requires i <= |members|
    ensures r.Some? ==> r.value in members && name(r.value) == str
    ensures r.None? <==> forall j | i <= j < |members| :: name(members[j]) != str
    decreases |members| - i
  {
    if i == |members| then None
    else if name(members[i]) == str then Some(members[i])
    else FindNamedFrom(members, name, str, i + 1)
  }

  // ---------------------------------------------------------------------------
  // Decimal formatting, as JavaScript template literals and Rust `format!` print
  // integers

  function DigitChar(d: nat): (c: char)
    requires d < 10
  {
    "0123456789"[d]
  }

  function DigitValue(c: char): (d: nat)
    requires '0' <= c <= '9'
  {
    c as int - '0' as int
  }

  predicate IsDigits(s: string)
  {
    forall i | 0 <= i < |s| :: '0' <= s[i] <= '9'
  }

  /** Decimal notation of `n`, without leading zeros. */
  function NatToString(n: nat): (s: string)
    ensures |s| > 0 && IsDigits(s)
    ensures s[0] == '0' ==> n == 0
  {
    if n < 10 then [DigitChar(n)] else NatToString(n / 10) + [DigitChar(n % 10)]
  }

  /** The value of a string of decimal digits. */
  function DigitsValue(s: string): (n: nat)
    requires IsDigits(s)
  {
    if s == [] then 0 else 10 * DigitsValue(s[..|s| - 1]) + DigitValue(s[|s| - 1])
  }

  /** Reading back the decimal text gives the number: formatting is injective. */
  lemma {:induction false} NatToStringValue(n: nat)
    ensures DigitsValue(NatToString(n)) == n
  {
    if n >= 10 {
      NatToStringValue(n / 10);
      var s := NatToString(n);
      assert s[..|s| - 1] == NatToString(n / 10);
    }
  }

  lemma NatToStringInjective(m: nat, n: nat)
    requires NatToString(m) == NatToString(n)
    ensures m == n
  {
    NatToStringValue(m);
    NatToStringValue(n);
  }

  /** `${n}` for an integer `n`. */
  function IntToString(n: int): (s: string)
  {
    if n < 0 then "-" + NatToString(-n) else NatToString(n)
  }

  // ---------------------------------------------------------------------------
  // Lexicographic order of Rust's `String::cmp`. UTF-8 preserves the order of code
  // points, so comparing characters is comparing bytes.

  predicate LexLe(a: string, b: string)
  {
    if a == [] then true
    else if b == [] then false
    else if a[0] != b[0] then a[0] < b[0]
    else LexLe(a[1..], b[1..])
  }

  lemma {:induction false} LexLeTotal(a: string, b: string)
    ensures LexLe(a, b) || LexLe(b, a)
  {
    if a != [] && b != [] && a[0] == b[0] {
      LexLeTotal(a[1..], b[1..]);
    }
  }

  lemma {:induction false} LexLeTransitive(a: string, b: string, c: string)
    requires LexLe(a, b) && LexLe(b, c)
    ensures LexLe(a, c)
  {
    if a != [] && b != [] && c != [] && a[0] == b[0] == c[0] {
      LexLeTransitive(a[1..], b[1..], c[1..]);
    }
  }

  lemma {:induction false} LexLeAntisymmetric(a: string, b: string)
    requires LexLe(a, b) && LexLe(b, a)
    ensures a == b
  {
    if a != [] && b != [] {
      LexLeAntisymmetric(a[1..], b[1..]);
      assert a == [a[0]] + a[1..];
      assert b == [b[0]] + b[1..];
    }
  }
}
