/** String helpers that mirror the JavaScript string operations the two
    components use: `split` and `join` on a one-character separator, array
    `reverse`, decimal rendering of numbers in template literals, and
    `replace` with a string pattern (which replaces only the first match). */
module Strings {

  import opened Outcomes

  /** `s.split(sep)` for a one-character separator: the fields between
      separators, in order; the empty string splits into one empty field. */
  function Split(s: string, sep: char): (parts: seq<string>)
    ensures |parts| >= 1
    ensures forall i | 0 <= i < |parts| :: sep !in parts[i]
    decreases |s|
  {
    if s == [] then [[]]
    else if s[0] == sep then [[]] + Split(s[1..], sep)
    else
      var rest := Split(s[1..], sep);
      [[s[0]] + rest[0]] + rest[1..]
  }

  /** `parts.join(sep)`: the fields with one separator between neighbours. */
  function Join(parts: seq<string>, sep: char): string
    decreases |parts|
  {
    if parts == [] then []
    else if |parts| == 1 then parts[0]
    else parts[0] + [sep] + Join(parts[1..], sep)
  }

  /** Joining the fields of a split gives the original string back. */
  lemma {:induction false} JoinSplit(s: string, sep: char)
    ensures Join(Split(s, sep), sep) == s
    decreases |s|
  {
    if s == [] {
    } else if s[0] == sep {
      JoinSplit(s[1..], sep);
      var rest := Split(s[1..], sep);
      assert Split(s, sep) == [[]] + rest;
      assert Join([[]] + rest, sep) == [] + [sep] + Join(rest, sep);
    } else {
      JoinSplit(s[1..], sep);
      var rest := Split(s[1..], sep);
      JoinConsHead(s[0], rest, sep);
    }
  }

  /** Prepending a character to the first field prepends it to the join. */
  lemma JoinConsHead(c: char, parts: seq<string>, sep: char)
    requires |parts| >= 1
    ensures Join([[c] + parts[0]] + parts[1..], sep) == [c] + Join(parts, sep)
  {
    var q := [[c] + parts[0]] + parts[1..];
    assert q[1..] == parts[1..];
  }

  /** Splitting a join of separator-free fields gives the fields back. */
  lemma {:induction false} SplitJoin(parts: seq<string>, sep: char)
    requires |parts| >= 1
    requires forall i | 0 <= i < |parts| :: sep !in parts[i]
    ensures Split(Join(parts, sep), sep) == parts
    decreases |parts|, |parts[0]|
  {
    if |parts[0]| > 0 {
      var p0 := parts[0];
      var tail := [p0[1..]] + parts[1..];
      assert tail[1..] == parts[1..];
      SplitJoin(tail, sep);
      JoinConsHead(p0[0], tail, sep);
      assert [p0[0]] + p0[1..] == p0;
      assert [[p0[0]] + tail[0]] + tail[1..] == parts;
      var s := Join(parts, sep);
      assert s == [p0[0]] + Join(tail, sep);
      assert s[1..] == Join(tail, sep);
    } else if |parts| == 1 {
      assert Join(parts, sep) == [];
    } else {
      SplitJoin(parts[1..], sep);
      var s := Join(parts, sep);
      assert s == [sep] + Join(parts[1..], sep);
      assert s[1..] == Join(parts[1..], sep);
      assert [[]] + parts[1..] == parts;
    }
  }

  /** The first field of a split is a prefix of the string that ends at the
      first separator or at the end of the string. */
  lemma {:induction false} SplitHead(s: string, sep: char)
    ensures Split(s, sep)[0] <= s
    ensures |Split(s, sep)[0]| == |s| || s[|Split(s, sep)[0]|] == sep
    decreases |s|
  {
    if s != [] && s[0] != sep {
      SplitHead(s[1..], sep);
      assert Split(s, sep)[0] == [s[0]] + Split(s[1..], sep)[0];
    }
  }

  /** Splitting at the first separator: the text before it is the first
      field, and the fields after it are those of the rest. */
  lemma {:induction false} SplitAtFirst(s: string, sep: char)
    requires sep in s
    ensures var i := IndexOf(s, sep).value;
      Split(s, sep) == [s[..i]] + Split(s[i + 1..], sep)
    decreases |s|
  {
    if s[0] == sep {
      assert s[..0] == [];
    } else {
      assert sep in s[1..] by {
        var k :| 0 <= k < |s| && s[k] == sep;
        assert s[1..][k - 1] == sep;
      }
      SplitAtFirst(s[1..], sep);
      var i := IndexOf(s[1..], sep).value;
      assert IndexOf(s, sep).value == i + 1;
      assert s[1..][i + 1..] == s[i + 2..];
      assert [s[0]] + s[1..][..i] == s[..i + 1];
    }
  }

  /** `Array.prototype.reverse` on a copy. */
  function Reverse<T>(s: seq<T>): (r: seq<T>)
    ensures |r| == |s|
    ensures forall i | 0 <= i < |s| :: r[i] == s[|s| - 1 - i]
  {
    if s == [] then [] else Reverse(s[1..]) + [s[0]]
  }

  /** Whether a character is one of the ASCII decimal digits. */
  predicate IsDigit(c: char) {
    '0' <= c <= '9'
  }

  function DigitChar(d: nat): (c: char)
    requires d < 10
    ensures IsDigit(c)
  {
    ['0','1','2','3','4','5','6','7','8','9'][d]
  }

  function DigitValue(c: char): (d: nat)
    requires IsDigit(c)
    ensures d < 10
  {
    (c as int - '0' as int) as nat
  }

  /** The decimal rendering of a natural number, without leading zeros. */
  function Digits(n: nat): (s: string)
    ensures |s| >= 1
    ensures forall i | 0 <= i < |s| :: IsDigit(s[i])
    decreases n
  {
    if n < 10 then [DigitChar(n)] else Digits(n / 10) + [DigitChar(n % 10)]
  }

  /** The decimal value of a non-empty run of digits; None for anything else. */
  function ParseDigits(s: string): (r: Option<nat>)
    ensures r.Some? <==> |s| >= 1 && forall i | 0 <= i < |s| :: IsDigit(s[i])
    decreases |s|
  {
    if s == [] || !IsDigit(s[|s| - 1]) then None
    else if |s| == 1 then Some(DigitValue(s[0]))
    else
      match ParseDigits(s[..|s| - 1])
      case None => None
      case Some(v) => Some(v * 10 + DigitValue(s[|s| - 1]))
  }

  /** Reading back the decimal rendering gives the number. */
  lemma {:induction false} ParseDigitsOfDigits(n: nat)
    ensures ParseDigits(Digits(n)) == Some(n)
    decreases n
  {
    if n >= 10 {
      ParseDigitsOfDigits(n / 10);
      var s := Digits(n);
      assert s[..|s| - 1] == Digits(n / 10);
    }
  }

  /** How a number is rendered inside a template literal: a minus sign for
      negative numbers, then the digits. */
  function IntText(v: int): (s: string)
    ensures |s| >= 1
  {
    if v < 0 then "-" + Digits(-v) else Digits(v)
  }

  /** The index of the first occurrence of `c` in `s`, if any. */
  function IndexOf(s: string, c: char): (r: Option<nat>)
    ensures r.Some? ==> r.value < |s| && s[r.value] == c && c !in s[..r.value]
    ensures r.None? <==> c !in s
    decreases |s|
  {
    if s == [] then None
    else if s[0] == c then Some(0)
    else
      match IndexOf(s[1..], c)
      case None => None
      case Some(i) =>
        assert s[1..][..i] == s[1..i + 1];
        Some(i + 1)
  }

  /** `s.replace(from, to)` with a one-character string pattern: only the
      first occurrence is replaced. */
  function ReplaceFirst(s: string, from: char, to: char): (r: string)
    ensures |r| == |s|
    ensures from !in s ==> r == s
    ensures from in s ==> to in r
  {
    match IndexOf(s, from)
    case None => s
    case Some(i) => s[..i] + [to] + s[i + 1..]
  }

  /** The first occurrence is the one replaced. */
  lemma ReplaceAtFirst(s: string, i: nat, from: char, to: char)
    requires i < |s| && s[i] == from && from !in s[..i]
    ensures ReplaceFirst(s, from, to) == s[..i] + [to] + s[i + 1..]
  {
    assert IndexOf(s, from).Some?;
  }

  /** The number of occurrences of `c` in `s`. */
  function Count(s: string, c: char): nat
    decreases |s|
  {
    if s == [] then 0 else (if s[0] == c then 1 else 0) + Count(s[1..], c)
  }

  lemma {:induction false} CountAppend(a: string, b: string, c: char)
    ensures Count(a + b, c) == Count(a, c) + Count(b, c)
    decreases |a|
  {
    if a == [] {
      assert a + b == b;
    } else {
      assert (a + b)[0] == a[0] && (a + b)[1..] == a[1..] + b;
      CountAppend(a[1..], b, c);
    }
  }

  /** Turning one occurrence of `from` into `to` removes one occurrence. */
  lemma CountReplaceAt(p: string, q: string, from: char, to: char)
    requires from != to
    ensures Count(p + [to] + q, from) + 1 == Count(p + [from] + q, from)
  {
    CountAppend(p + [from], q, from);
    CountAppend(p, [from], from);
    CountAppend(p + [to], q, from);
    CountAppend(p, [to], from);
    assert Count([to], from) == 0 by { assert [to][1..] == []; }
    assert Count([from], from) == 1 by { assert [from][1..] == []; }
  }

  /** Replacing the first match keeps the length, changes exactly the first
      occurrence, and removes one occurrence of the pattern when there is one. */
  lemma ReplaceFirstEffect(s: string, from: char, to: char)
    requires from != to
    ensures |ReplaceFirst(s, from, to)| == |s|
    ensures from !in s ==> ReplaceFirst(s, from, to) == s
    ensures from in s ==> Count(ReplaceFirst(s, from, to), from) == Count(s, from) - 1
    ensures forall i | 0 <= i < |s| ::
      ReplaceFirst(s, from, to)[i] == (if Some(i) == IndexOf(s, from) then to else s[i])
  {
    var found := IndexOf(s, from);
    if found.Some? {
      ReplaceFound(s, found.value, from, to);
    } else {
      assert ReplaceFirst(s, from, to) == s;
    }
  }

  /** The effect of replacing the first occurrence, found at `i`. */
  lemma ReplaceFound(s: string, i: nat, from: char, to: char)
    requires from != to && IndexOf(s, from) == Some(i)
    ensures Count(ReplaceFirst(s, from, to), from) + 1 == Count(s, from)
    ensures forall j | 0 <= j < |s| :: ReplaceFirst(s, from, to)[j] == (if j == i then to else s[j])
  {
    var p, q := s[..i], s[i + 1..];
    assert s == p + [from] + q;
    ReplaceAtFirst(s, i, from, to);
    CountReplaceAt(p, q, from, to);
    ReplaceAtChangesOne(p, q, from, to);
  }

  /** Only the position of the replaced character differs. */
  lemma ReplaceAtChangesOne(p: string, q: string, from: char, to: char)
    ensures forall j | 0 <= j < |p| + 1 + |q| ::
      (p + [to] + q)[j] == (if j == |p| then to else (p + [from] + q)[j])
  {
    forall j | 0 <= j < |p| + 1 + |q|
      ensures (p + [to] + q)[j] == (if j == |p| then to else (p + [from] + q)[j])
    {
      if j < |p| {
        assert (p + [to] + q)[j] == p[j] == (p + [from] + q)[j];
      } else if j > |p| {
        assert (p + [to] + q)[j] == q[j - |p| - 1] == (p + [from] + q)[j];
      }
    }
  }
}
