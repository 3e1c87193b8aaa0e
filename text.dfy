/**
 * The Python string operations the compiler relies on: `sep.join`, `str(int)`,
 * `int(text)` and `str.replace`, with the facts about them the rest of the
 * model uses.
 */
module Text {
  import opened Wrappers

  /** `sep.join(parts)`. */
  function Join(parts: seq<string>, sep: string): string
  {
    if |parts| == 0 then ""
    else if |parts| == 1 then parts[0]
    else parts[0] + sep + Join(parts[1..], sep)
  }

  /** Joining one more part adds the separator and that part at the end. */
  lemma {:induction false} JoinAppend(parts: seq<string>, last: string, sep: string)
    requires |parts| >= 1
    ensures Join(parts + [last], sep) == Join(parts, sep) + sep + last
    decreases |parts|
  {
    if |parts| > 1 {
      assert (parts + [last])[1..] == parts[1..] + [last];
      JoinAppend(parts[1..], last, sep);
    }
  }

  /** The parts with `sep` standing as a part of its own between each pair. */
  function Interleave(parts: seq<string>, sep: string): (r: seq<string>)
    requires |parts| >= 1
    ensures |r| == 2 * |parts| - 1
    ensures r[0] == parts[0] && r[|r| - 1] == parts[|parts| - 1]
    decreases |parts|
  {
    if |parts| == 1 then parts else [parts[0], sep] + Interleave(parts[1..], sep)
  }

  /**
   * Joining with `sep` a list that already holds `sep` between its parts
   * leaves the separator three times between each pair of parts.
   */
  lemma {:induction false} JoinInterleaved(parts: seq<string>, sep: string)
    requires |parts| >= 1
    ensures Join(Interleave(parts, sep), sep) == Join(parts, sep + sep + sep)
    decreases |parts|
  {
    if |parts| > 1 {
      var rest := Interleave(parts[1..], sep);
      JoinInterleaved(parts[1..], sep);
      JoinDelimiter(parts[0], sep, rest);
    }
  }

  /** A part followed by a separator part joins to the part and the separator three times. */
  lemma JoinDelimiter(first: string, sep: string, rest: seq<string>)
    requires |rest| >= 1
    ensures Join([first, sep] + rest, sep) == first + (sep + sep + sep) + Join(rest, sep)
  {
    assert [first, sep] + rest == [first] + ([sep] + rest);
    JoinCons(first, [sep] + rest, sep);
    JoinCons(sep, rest, sep);
    Regroup(first, sep, Join(rest, sep));
  }

  /** Joining with `.` a list that holds `.` between its parts separates the parts by `...`. */
  lemma JoinDotted(parts: seq<string>)
    requires |parts| >= 1
    ensures Join(Interleave(parts, "."), ".") == Join(parts, "...")
  {
    JoinInterleaved(parts, ".");
    ThreeDots();
  }

  /** Three dots written one at a time are the three-dot string. */
  lemma ThreeDots()
    ensures "." + "." + "." == "..."
  {
    var d := "." + "." + ".";
    assert |d| == 3 && d[0] == '.' && d[1] == '.' && d[2] == '.';
  }

  /** Two parts join to the first, the separator and the second. */
  lemma JoinTwo(a: string, b: string, sep: string)
    ensures Join([a, b], sep) == a + sep + b
  {
    assert [a, b][1..] == [b];
  }

  /** The separator written once and twice, regrouped as written three times. */
  lemma Regroup(a: string, s: string, x: string)
    ensures a + s + (s + s + x) == a + (s + s + s) + x
  {
    calc {
      a + s + (s + s + x);
      { AppendAssoc(a, s, s + s + x); }
      a + (s + (s + s + x));
      { AppendAssoc(s, s + s, x); }
      a + (s + (s + s) + x);
      { AppendAssoc(s, s, s); }
      a + (s + s + s + x);
      { AppendAssoc(a, s + s + s, x); }
      a + (s + s + s) + x;
    }
  }

  /** Joining a part in front of at least one more adds the part and the separator in front. */
  lemma JoinCons(first: string, rest: seq<string>, sep: string)
    requires |rest| >= 1
    ensures Join([first] + rest, sep) == first + sep + Join(rest, sep)
  {
    assert ([first] + rest)[1..] == rest;
  }

  /** `s.split(sep)` for a one-character separator; used only to state facts about `Join`. */
  function Split(s: string, sep: char): (r: seq<string>)
    ensures |r| >= 1
    decreases |s|
  {
    if |s| == 0 then [""]
    else
      var rest := Split(s[1..], sep);
      if s[0] == sep then [""] + rest else [[s[0]] + rest[0]] + rest[1..]
  }

  lemma {:induction false} SplitNoSeparator(s: string, sep: char)
    requires sep !in s
    ensures Split(s, sep) == [s]
    decreases |s|
  {
    if |s| > 0 {
      assert sep !in s[1..];
      SplitNoSeparator(s[1..], sep);
      assert [s[0]] + s[1..] == s;
    }
  }

  lemma {:induction false} SplitAtSeparator(a: string, sep: char, b: string)
    requires sep !in a
    ensures Split(a + [sep] + b, sep) == [a] + Split(b, sep)
    decreases |a|
  {
    if |a| == 0 {
      assert a + [sep] + b == [sep] + b;
      assert ([sep] + b)[1..] == b;
    } else {
      var s := a + [sep] + b;
      assert s[1..] == a[1..] + [sep] + b;
      assert sep !in a[1..];
      SplitAtSeparator(a[1..], sep, b);
      assert [a[0]] + a[1..] == a;
    }
  }

  /** Joining pieces that do not contain the separator and splitting again gives the pieces back. */
  lemma {:induction false} SplitJoin(parts: seq<string>, sep: char)
    requires |parts| >= 1
    requires forall i :: 0 <= i < |parts| ==> sep !in parts[i]
    ensures Split(Join(parts, [sep]), sep) == parts
    decreases |parts|
  {
    if |parts| == 1 {
      SplitNoSeparator(parts[0], sep);
    } else {
      SplitJoin(parts[1..], sep);
      SplitAtSeparator(parts[0], sep, Join(parts[1..], [sep]));
      assert [parts[0]] + parts[1..] == parts;
    }
  }

  /** The length of a join: the pieces plus one separator between each two neighbours. */
  lemma {:induction false} JoinLength(parts: seq<string>, sep: string)
    requires |parts| >= 1
    ensures |Join(parts, sep)| == SumLengths(parts) + (|parts| - 1) * |sep|
    decreases |parts|
  {
    if |parts| > 1 {
      JoinLength(parts[1..], sep);
    }
  }

  function SumLengths(parts: seq<string>): nat
  {
    if |parts| == 0 then 0 else |parts[0]| + SumLengths(parts[1..])
  }

  /** `s.removeprefix(p)`. */
  function RemovePrefix(s: string, p: string): (r: string)
    ensures p <= s ==> p + r == s
    ensures !(p <= s) ==> r == s
  {
    if p <= s then s[|p|..] else s
  }

  /** `s.removesuffix(p)`. */
  function RemoveSuffix(s: string, p: string): (r: string)
    ensures |p| <= |s| && s[|s| - |p|..] == p ==> r + p == s
    ensures !(|p| <= |s| && s[|s| - |p|..] == p) ==> r == s
  {
    if |p| <= |s| && s[|s| - |p|..] == p then s[..|s| - |p|] else s
  }

  // ---------------------------------------------------------------- integers

  predicate IsDigit(c: char) { '0' <= c <= '9' }

  predicate AllDigits(s: string) { forall i :: 0 <= i < |s| ==> IsDigit(s[i]) }

  function DigitChar(d: nat): (c: char)
    requires d < 10
    ensures IsDigit(c) && c as int - '0' as int == d
  {
    (d + '0' as int) as char
  }

  /** Decimal digits of `n`, most significant first, without leading zeros. */
  function NatToString(n: nat): (s: string)
    ensures |s| >= 1 && AllDigits(s)
    decreases n
  {
    if n < 10 then [DigitChar(n)] else NatToString(n / 10) + [DigitChar(n % 10)]
  }

  /** `str(i)` for a Python `int`. */
  function IntToString(i: int): string
  {
    if i < 0 then "-" + NatToString(-i) else NatToString(i)
  }

  /** The value of a string of decimal digits. */
  function DigitsValue(s: string): nat
    requires AllDigits(s)
    decreases |s|
  {
    if |s| == 0 then 0
    else DigitsValue(s[..|s| - 1]) * 10 + (s[|s| - 1] as int - '0' as int)
  }

  /**
   * `int(text)` restricted to the texts the integer token can match, `-?[0-9]+`;
   * anything else is rejected.
   */
  function ParseInt(s: string): Option<int>
  {
    if |s| >= 2 && s[0] == '-' && AllDigits(s[1..]) then Some(0 - DigitsValue(s[1..]))
    else if |s| >= 1 && AllDigits(s) then Some(DigitsValue(s))
    else None
  }

  lemma {:induction false} DigitsOfNat(n: nat)
    ensures DigitsValue(NatToString(n)) == n
    decreases n
  {
    if n >= 10 {
      DigitsOfNat(n / 10);
      var s := NatToString(n);
      assert s[..|s| - 1] == NatToString(n / 10);
    }
  }

  /** `int(str(i)) == i`: printing an integer and reading it back is the identity. */
  lemma IntRoundTrip(i: int)
    ensures ParseInt(IntToString(i)) == Some(i)
  {
    if i < 0 {
      var digits := NatToString(-i);
      var s := "-" + digits;
      assert IntToString(i) == s;
      assert s[1..] == digits;
      assert |s| >= 2 && s[0] == '-';
      DigitsOfNat(-i);
      assert ParseInt(s) == Some(0 - DigitsValue(digits));
    } else {
      var s := NatToString(i);
      assert IntToString(i) == s;
      assert IsDigit(s[0]);
      DigitsOfNat(i);
      assert ParseInt(s) == Some(DigitsValue(s));
    }
  }

  // ---------------------------------------------------------------- replace

  /** `pat` occurs in `s` starting at index `i`. */
  predicate StartsAt(s: string, pat: string, i: nat)
  {
    i + |pat| <= |s| && s[i..i + |pat|] == pat
  }

  predicate Occurs(s: string, pat: string)
  {
    exists i: nat | i <= |s| :: StartsAt(s, pat, i)
  }

  /** `rep` before every character of `s` and once more at the end: `s.replace("", rep)`. */
  function InsertEverywhere(s: string, rep: string): string
  {
    if |s| == 0 then rep else rep + [s[0]] + InsertEverywhere(s[1..], rep)
  }

  /** `s.replace(pat, rep)`: every non-overlapping occurrence, scanning left to right. */
  function ReplaceAll(s: string, pat: string, rep: string): string
    decreases |s|
  {
    if pat == "" then InsertEverywhere(s, rep)
    else if |s| < |pat| then s
    else if s[..|pat|] == pat then rep + ReplaceAll(s[|pat|..], pat, rep)
    else [s[0]] + ReplaceAll(s[1..], pat, rep)
  }

  /** A text in which the pattern does not occur is left as it is. */
  lemma {:induction false} ReplaceAbsent(s: string, pat: string, rep: string)
    requires pat != "" && !Occurs(s, pat)
    ensures ReplaceAll(s, pat, rep) == s
    decreases |s|
  {
    if |s| >= |pat| {
      assert !StartsAt(s, pat, 0);
      forall i: nat | i <= |s[1..]| && StartsAt(s[1..], pat, i) ensures false {
        ShiftStartsAt(s, pat, i);
      }
      ReplaceAbsent(s[1..], pat, rep);
      assert [s[0]] + s[1..] == s;
    }
  }

  lemma ShiftStartsAt(s: string, pat: string, j: nat)
    requires |s| >= 1
    ensures StartsAt(s[1..], pat, j) <==> StartsAt(s, pat, j + 1)
  {
    if j + 1 + |pat| <= |s| {
      assert s[1..][j..j + |pat|] == s[j + 1..j + 1 + |pat|];
    }
  }

  /** Before the first occurrence the scan copies one character and moves on. */
  lemma ReplaceSkip(s: string, pat: string, rep: string)
    requires pat != "" && |s| >= 1 && !StartsAt(s, pat, 0)
    ensures ReplaceAll(s, pat, rep) == [s[0]] + ReplaceAll(s[1..], pat, rep)
  {
  }

  /** An occurrence at the very start becomes `rep` and the scan resumes after it. */
  lemma ReplaceAtStart(s: string, pat: string, rep: string)
    requires pat != "" && StartsAt(s, pat, 0)
    ensures ReplaceAll(s, pat, rep) == rep + ReplaceAll(s[|pat|..], pat, rep)
  {
    assert s[..|pat|] == pat;
  }

  lemma NoMatchAt(s: string, pat: string, k: nat, j: nat)
    requires forall j: nat :: j < k ==> !StartsAt(s, pat, j)
    requires j < k
    ensures !StartsAt(s, pat, j)
  {
  }

  /** Dropping the first character keeps "no occurrence before `k`", one position earlier. */
  lemma NoMatchShift(s: string, pat: string, k: nat)
    requires 1 <= k <= |s|
    requires forall j: nat :: j < k ==> !StartsAt(s, pat, j)
    ensures forall j: nat :: j < k - 1 ==> !StartsAt(s[1..], pat, j)
  {
    forall j: nat | j < k - 1 ensures !StartsAt(s[1..], pat, j) {
      ShiftStartsAt(s, pat, j);
    }
  }

  /** Up to the first occurrence, the text is copied as it is. */
  lemma {:induction false} ReplaceKeepsPrefix(s: string, pat: string, rep: string, k: nat)
    requires pat != "" && k <= |s|
    requires forall j: nat :: j < k ==> !StartsAt(s, pat, j)
    ensures ReplaceAll(s, pat, rep) == s[..k] + ReplaceAll(s[k..], pat, rep)
    decreases k
  {
    if k == 0 {
      assert s[k..] == s;
    } else {
      var t := s[1..];
      NoMatchAt(s, pat, k, 0);
      ReplaceSkip(s, pat, rep);
      NoMatchShift(s, pat, k);
      ReplaceKeepsPrefix(t, pat, rep, k - 1);
      assert t[k - 1..] == s[k..];
      var tail := ReplaceAll(s[k..], pat, rep);
      assert ReplaceAll(t, pat, rep) == t[..k - 1] + tail;
      AppendAssoc([s[0]], t[..k - 1], tail);
      assert [s[0]] + s[1..][..k - 1] == s[..k];
    }
  }

  /**
   * The text before the first occurrence is kept, that occurrence becomes `rep`
   * and the scan resumes right after it.
   */
  lemma ReplaceFirst(s: string, pat: string, rep: string, k: nat)
    requires pat != "" && StartsAt(s, pat, k)
    requires forall j: nat :: j < k ==> !StartsAt(s, pat, j)
    ensures ReplaceAll(s, pat, rep) == s[..k] + rep + ReplaceAll(s[k + |pat|..], pat, rep)
  {
    var rest := ReplaceAll(s[k + |pat|..], pat, rep);
    ReplaceKeepsPrefix(s, pat, rep, k);
    ReplaceAtStart(s[k..], pat, rep);
    assert s[k..][|pat|..] == s[k + |pat|..];
    AppendAssoc(s[..k], rep, rest);
  }

  /** Concatenation regroups freely; stated once for strings and for lists of lines alike. */
  lemma AppendAssoc<T>(a: seq<T>, b: seq<T>, c: seq<T>)
    ensures a + (b + c) == a + b + c
  {
  }

  /** Replacing an absent pattern in a concatenation keeps it a concatenation. */
  lemma ReplaceSingle(a: string, pat: string, b: string, rep: string)
    requires pat != ""
    requires !Occurs(a + pat[..|pat| - 1], pat) && !Occurs(b, pat)
    ensures ReplaceAll(a + pat + b, pat, rep) == a + rep + b
  {
    var s := a + pat + b;
    assert StartsAt(s, pat, |a|) by { assert s[|a|..|a| + |pat|] == pat; }
    forall j: nat | j < |a| ensures !StartsAt(s, pat, j) {
      NoMatchBefore(a, pat, b, j);
    }
    ReplaceFirst(s, pat, rep, |a|);
    assert s[..|a|] == a;
    assert s[|a| + |pat|..] == b;
    ReplaceAbsent(b, pat, rep);
  }

  /** An occurrence starting inside `a` would lie within `a` and all but the last character of `pat`. */
  lemma NoMatchBefore(a: string, pat: string, b: string, j: nat)
    requires pat != "" && !Occurs(a + pat[..|pat| - 1], pat) && j < |a|
    ensures !StartsAt(a + pat + b, pat, j)
  {
    var s := a + pat + b;
    var t := a + pat[..|pat| - 1];
    assert j + |pat| <= |t|;
    assert t[j..j + |pat|] == s[j..j + |pat|];
    assert !StartsAt(t, pat, j);
  }
}
