/**
 * String helpers shared by the prompt builders, the dumpers and the dictionaries.
 * StringBuilder.AppendLine and Environment.NewLine are modelled with "\n".
 */
module Text {
  import opened Wrappers

  const NewLine: string := "\n"

  /** What StringBuilder.AppendLine(s) appends. */
  function Line(s: string): string { s + NewLine }

  /** string.Join(sep, parts); defined on the last element so that a loop appending one part at a time matches it. */
  function Join(sep: string, parts: seq<string>): string
  {
    if |parts| == 0 then ""
    else if |parts| == 1 then parts[0]
    else Join(sep, parts[..|parts| - 1]) + sep + parts[|parts| - 1]
  }

  /** The concatenation of the parts, in order (defined on the last element). */
  function Concat(parts: seq<string>): string
  {
    if |parts| == 0 then "" else Concat(parts[..|parts| - 1]) + parts[|parts| - 1]
  }

  lemma {:induction false} ConcatAppend(a: seq<string>, b: seq<string>)
    ensures Concat(a + b) == Concat(a) + Concat(b)
    decreases |b|
  {
    if |b| == 0 {
      assert a + b == a;
    } else {
      var b' := b[..|b| - 1];
      assert (a + b)[..|a + b| - 1] == a + b';
      ConcatAppend(a, b');
    }
  }

  /** Joining with a separator equals terminating every part with it and dropping the final separator. */
  lemma {:induction false} JoinIsTerminatedConcatMinusLast(sep: string, parts: seq<string>)
    requires |parts| > 0
    ensures Concat(Suffixed(parts, sep)) == Join(sep, parts) + sep
    decreases |parts|
  {
    if |parts| > 1 {
      var init := parts[..|parts| - 1];
      JoinIsTerminatedConcatMinusLast(sep, init);
      assert Suffixed(parts, sep)[..|parts| - 1] == Suffixed(init, sep);
    } else {
      assert Suffixed(parts, sep)[..0] == [];
    }
  }

  /** Every part followed by the suffix. */
  function Suffixed(parts: seq<string>, suffix: string): (r: seq<string>)
    ensures |r| == |parts| && forall i :: 0 <= i < |parts| ==> r[i] == parts[i] + suffix
  {
    seq(|parts|, i requires 0 <= i < |parts| => parts[i] + suffix)
  }

  /** A prefix of the suffixed parts is the suffixed prefix. */
  lemma SuffixedPrefix(parts: seq<string>, suffix: string, n: nat)
    requires n <= |parts|
    ensures Suffixed(parts, suffix)[..n] == Suffixed(parts[..n], suffix)
  {
  }

  /** The first two parts of a three-part concatenation can be sliced back out. */
  lemma SlicesOfConcat(a: string, b: string, c: string)
    ensures (a + b + c)[..|a|] == a && (a + b + c)[|a|..|a| + |b|] == b
  {
  }

  /**
   * Case folding of the ASCII letters: the key comparer behind StringComparer.OrdinalIgnoreCase,
   * which also folds letters outside ASCII; those are compared exactly here.
   */
  function FoldChar(c: char): char
  {
    if 'A' <= c <= 'Z' then (c as int + 32) as char else c
  }

  function Fold(s: string): (r: string)
    ensures |r| == |s| && forall i :: 0 <= i < |s| ==> r[i] == FoldChar(s[i])
  {
    seq(|s|, i requires 0 <= i < |s| => FoldChar(s[i]))
  }

  /** Folding is idempotent, so a folded key is its own key. */
  lemma FoldIdempotent(s: string)
    ensures Fold(Fold(s)) == Fold(s)
  {
  }

  /** Number of occurrences of c in s. */
  function CountChar(c: char, s: string): nat
  {
    if |s| == 0 then 0 else CountChar(c, s[..|s| - 1]) + (if s[|s| - 1] == c then 1 else 0)
  }

  lemma {:induction false} CountCharAppend(c: char, a: string, b: string)
    ensures CountChar(c, a + b) == CountChar(c, a) + CountChar(c, b)
    decreases |b|
  {
    if |b| > 0 {
      assert (a + b)[..|a + b| - 1] == a + b[..|b| - 1];
      CountCharAppend(c, a, b[..|b| - 1]);
    } else {
      assert a + b == a;
    }
  }

  /** A string without line breaks counts none. */
  lemma {:induction false} NoNewLineCount(s: string)
    requires '\n' !in s
    ensures CountChar('\n', s) == 0
    decreases |s|
  {
    if |s| > 0 {
      NoNewLineCount(s[..|s| - 1]);
    }
  }
  /** A line whose text holds no line break holds exactly one. */
  lemma LineCount(s: string)
    requires '\n' !in s
    ensures CountChar('\n', Line(s)) == 1
  {
    CountCharAppend('\n', s, NewLine);
    NoNewLineCount(s);
  }


  function DigitChar(d: nat): char
    requires d < 10
  {
    ['0', '1', '2', '3', '4', '5', '6', '7', '8', '9'][d]
  }

  /** Decimal rendering of a natural number, as Int32.ToString renders a non-negative value. */
  function NatToString(n: nat): (r: string)
    ensures |r| >= 1
    ensures n >= 10 ==> |r| >= 2
  {
    if n < 10 then [DigitChar(n)] else NatToString(n / 10) + [DigitChar(n % 10)]
  }

  /** Decimal rendering of an integer, with a leading '-' for negative values. */
  function IntToString(i: int): string
  {
    if i < 0 then "-" + NatToString(-i) else NatToString(i)
  }

  lemma DigitCharInjective(a: nat, b: nat)
    requires a < 10 && b < 10 && DigitChar(a) == DigitChar(b)
    ensures a == b
  {
  }

  /** Distinct numbers render differently: the renaming counters below rely on it. */
  lemma {:induction false} NatToStringInjective(a: nat, b: nat)
    requires NatToString(a) == NatToString(b)
    ensures a == b
    decreases a
  {
    var sa, sb := NatToString(a), NatToString(b);
    if a < 10 && b < 10 {
      DigitCharInjective(a, b);
    } else if a >= 10 && b >= 10 {
      assert sa[|sa| - 1] == DigitChar(a % 10) && sb[|sb| - 1] == DigitChar(b % 10);
      DigitCharInjective(a % 10, b % 10);
      assert sa[..|sa| - 1] == NatToString(a / 10);
      assert sb[..|sb| - 1] == NatToString(b / 10);
      NatToStringInjective(a / 10, b / 10);
    }
  }

  /**
   * StringBuilder.Replace(pattern, replacement) / string.Replace: every non-overlapping occurrence,
   * scanning left to right, is replaced.
   */
  function ReplaceAll(s: string, pattern: string, replacement: string): string
    requires |pattern| > 0
    decreases |s|
  {
    if |s| < |pattern| then s
    else if s[..|pattern|] == pattern then replacement + ReplaceAll(s[|pattern|..], pattern, replacement)
    else [s[0]] + ReplaceAll(s[1..], pattern, replacement)
  }

  /** A string that does not contain the pattern's first character is left as it is. */
  lemma {:induction false} ReplaceAllAbsent(s: string, pattern: string, replacement: string)
    requires |pattern| > 0 && pattern[0] !in s
    ensures ReplaceAll(s, pattern, replacement) == s
    decreases |s|
  {
    if |s| >= |pattern| {
      assert s[..|pattern|][0] == s[0];
      ReplaceAllAbsent(s[1..], pattern, replacement);
    }
  }

  /** A placeholder preceded by text free of the pattern's first character is replaced, and the scan goes on after it. */
  lemma {:induction false} ReplaceAllOccurrence(a: string, pattern: string, replacement: string, b: string)
    requires |pattern| > 0 && pattern[0] !in a
    ensures ReplaceAll(a + pattern + b, pattern, replacement) == a + replacement + ReplaceAll(b, pattern, replacement)
    decreases |a|
  {
    var s := a + pattern + b;
    if |a| == 0 {
      assert s == pattern + b;
      assert s[..|pattern|] == pattern;
      assert s[|pattern|..] == b;
    } else {
      assert s[0] == a[0] && a[0] != pattern[0];
      assert s[..|pattern|] != pattern by {
        assert s[..|pattern|][0] == s[0];
      }
      var t := a[1..] + pattern + b;
      assert s[1..] == t;
      calc {
        ReplaceAll(s, pattern, replacement);
        [s[0]] + ReplaceAll(t, pattern, replacement);
        { ReplaceAllOccurrence(a[1..], pattern, replacement, b); }
        [a[0]] + (a[1..] + replacement + ReplaceAll(b, pattern, replacement));
        { assert [a[0]] + a[1..] == a; }
        a + replacement + ReplaceAll(b, pattern, replacement);
      }
    }
  }

  /** string.IsNullOrEmpty, with null as None. */
  predicate IsNullOrEmpty(s: Option<string>)
  {
    s.None? || |s.value| == 0
  }
}
