/**
 * String helpers shared by the token and connection-string models:
 * `String.prototype.split` on one character, the decimal rendering of a
 * non-negative integer, and strings made of labelled fields joined by a
 * separator (`sr=..&sig=..`, `Endpoint=..;EntityPath=..`).
 */
module Text {
  import opened Wrappers

  /** Index of the first occurrence of `c` in `s`. */
  function IndexOf(s: string, c: char): (i: nat)
    requires c in s
    ensures i < |s| && s[i] == c && c !in s[..i]
  {
    if s[0] == c then 0 else 1 + IndexOf(s[1..], c)
  }

  /** The parts joined back together, `sep` between consecutive parts. */
  function Join(parts: seq<string>, sep: char): string
  {
    if |parts| == 0 then ""
    else if |parts| == 1 then parts[0]
    else parts[0] + [sep] + Join(parts[1..], sep)
  }

  /** A join starts with its first part, followed by the separator when more parts come. */
  lemma JoinStartsWithFirst(parts: seq<string>, sep: char)
    requires |parts| >= 1
    ensures |parts[0]| <= |Join(parts, sep)| && Join(parts, sep)[..|parts[0]|] == parts[0]
    ensures |parts| == 1 ==> Join(parts, sep) == parts[0]
    ensures |parts| > 1 ==> |parts[0]| < |Join(parts, sep)| && Join(parts, sep)[|parts[0]|] == sep
  {
    if |parts| > 1 {
      var s := Join(parts, sep);
      assert s == parts[0] + [sep] + Join(parts[1..], sep);
      assert s[..|parts[0]|] == parts[0];
    }
  }

  /**
   * `s.split(sep)` for a one-character separator: the maximal pieces of `s`
   * that do not contain `sep`, in order; there is always at least one piece.
   */
  function Split(s: string, sep: char): (parts: seq<string>)
    ensures |parts| >= 1
    ensures forall i :: 0 <= i < |parts| ==> sep !in parts[i]
    ensures Join(parts, sep) == s
    decreases |s|
  {
    if sep !in s then [s]
    else
      var i := IndexOf(s, sep);
      var rest := Split(s[i + 1..], sep);
      assert s == s[..i] + [sep] + s[i + 1..];
      [s[..i]] + rest
  }

  /** Splitting undoes joining when no part contains the separator. */
  lemma {:induction false} SplitJoin(parts: seq<string>, sep: char)
    requires |parts| >= 1
    requires forall i :: 0 <= i < |parts| ==> sep !in parts[i]
    ensures Split(Join(parts, sep), sep) == parts
    decreases |parts|
  {
    if |parts| == 1 {
      assert Join(parts, sep) == parts[0];
    } else {
      var s := Join(parts, sep);
      var tail := Join(parts[1..], sep);
      assert s == parts[0] + [sep] + tail;
      assert sep in s by { assert s[|parts[0]|] == sep; }
      IndexOfAfterFree(parts[0], sep, tail);
      assert s[IndexOf(s, sep) + 1..] == tail;
      assert s[..IndexOf(s, sep)] == parts[0];
      SplitJoin(parts[1..], sep);
    }
  }

  /** The first separator of `a + [sep] + b` is the one after `a` when `a` has none. */
  lemma IndexOfAfterFree(a: string, sep: char, b: string)
    requires sep !in a
    ensures sep in a + [sep] + b && IndexOf(a + [sep] + b, sep) == |a|
  {
    var s := a + [sep] + b;
    assert s[|a|] == sep;
  }

  predicate IsDigit(c: char)
  {
    '0' <= c <= '9'
  }

  predicate AllDigits(s: string)
  {
    forall i :: 0 <= i < |s| ==> IsDigit(s[i])
  }

  function DigitChar(d: nat): (c: char)
    requires d < 10
    ensures IsDigit(c) && c as int - '0' as int == d
  {
    ('0' as int + d) as char
  }

  /** The template-literal rendering `${n}` of a non-negative integer: its decimal digits, no leading zero. */
  function NatToString(n: nat): (s: string)
    ensures |s| >= 1 && AllDigits(s)
    ensures |s| > 1 ==> s[0] != '0'
    decreases n
  {
    if n < 10 then [DigitChar(n)]
    else NatToString(n / 10) + [DigitChar(n % 10)]
  }

  /** The value of a string of decimal digits, most significant first. */
  function DigitsValue(s: string): nat
    requires AllDigits(s)
    decreases |s|
  {
    if s == [] then 0
    else DigitsValue(s[..|s| - 1]) * 10 + (s[|s| - 1] as int - '0' as int)
  }

  /** Reads a non-empty run of decimal digits back as a number. */
  function ParseNat(s: string): (r: Option<nat>)
    ensures r.Some? <==> |s| >= 1 && AllDigits(s)
  {
    if |s| >= 1 && AllDigits(s) then Some(DigitsValue(s)) else None
  }

  /** Reading the decimal rendering of `n` gives `n` back. */
  lemma {:induction false} ParseNatToString(n: nat)
    ensures ParseNat(NatToString(n)) == Some(n)
    decreases n
  {
    var s := NatToString(n);
    if n >= 10 {
      ParseNatToString(n / 10);
      assert s[..|s| - 1] == NatToString(n / 10);
      assert s[|s| - 1] as int - '0' as int == n % 10;
      assert DigitsValue(s) == (n / 10) * 10 + n % 10;
    }
  }

  /** The rendering is one-to-one: equal strings come from equal numbers. */
  lemma NatToStringInjective(m: nat, n: nat)
    requires NatToString(m) == NatToString(n)
    ensures m == n
  {
    ParseNatToString(m);
    ParseNatToString(n);
  }

  /** `s` with `prefix` removed from its front, when `s` starts with it. */
  function After(prefix: string, s: string): (r: Option<string>)
    ensures r.Some? <==> |prefix| <= |s| && s[..|prefix|] == prefix
    ensures r.Some? ==> s == prefix + r.value
  {
    if |prefix| <= |s| && s[..|prefix|] == prefix then Some(s[|prefix|..]) else None
  }

  /** Each label immediately followed by its value, the fields joined by `sep`. */
  function Labelled(labels: seq<string>, values: seq<string>, sep: char): string
    requires |labels| == |values|
  {
    Join(seq(|labels|, i requires 0 <= i < |labels| => labels[i] + values[i]), sep)
  }

  /** The values of a `Labelled` string: split on `sep`, expect the labels in order, strip each one. */
  function Unlabel(s: string, labels: seq<string>, sep: char): (r: Option<seq<string>>)
    ensures r.Some? ==> |r.value| == |labels|
  {
    var fields := Split(s, sep);
    if |fields| != |labels| then None
    else StripLabels(fields, labels)
  }

  function StripLabels(fields: seq<string>, labels: seq<string>): (r: Option<seq<string>>)
    requires |fields| == |labels|
    ensures r.Some? ==> |r.value| == |labels|
    ensures r.Some? ==> forall i :: 0 <= i < |labels| ==> fields[i] == labels[i] + r.value[i]
    decreases |fields|
  {
    if fields == [] then Some([])
    else match (After(labels[0], fields[0]), StripLabels(fields[1..], labels[1..]))
      case (Some(v), Some(vs)) => Some([v] + vs)
      case _ => None
  }

  /** Stripping the labels of labelled fields gives the values back. */
  lemma {:induction false} StripLabelsOf(labels: seq<string>, values: seq<string>)
    requires |labels| == |values|
    ensures StripLabels(seq(|labels|, i requires 0 <= i < |labels| => labels[i] + values[i]), labels) == Some(values)
    decreases |labels|
  {
    var fields := seq(|labels|, i requires 0 <= i < |labels| => labels[i] + values[i]);
    if |labels| > 0 {
      assert fields[1..] == seq(|labels| - 1, i requires 0 <= i < |labels| - 1 => labels[1..][i] + values[1..][i]);
      StripLabelsOf(labels[1..], values[1..]);
      assert fields[0][..|labels[0]|] == labels[0];
      assert fields[0][|labels[0]|..] == values[0];
      assert [values[0]] + values[1..] == values;
    }
  }

  /**
   * Round trip: when neither labels nor values contain the separator, the
   * values are recovered from the labelled string.
   */
  lemma LabelledRoundTrip(labels: seq<string>, values: seq<string>, sep: char)
    requires |labels| == |values| >= 1
    requires forall i :: 0 <= i < |labels| ==> sep !in labels[i] && sep !in values[i]
    ensures Unlabel(Labelled(labels, values, sep), labels, sep) == Some(values)
  {
    var fields := seq(|labels|, i requires 0 <= i < |labels| => labels[i] + values[i]);
    forall i | 0 <= i < |fields|
      ensures sep !in fields[i]
    {
      assert sep !in labels[i] && sep !in values[i];
    }
    SplitJoin(fields, sep);
    StripLabelsOf(labels, values);
  }
}
