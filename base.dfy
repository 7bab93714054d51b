/**
 * Small shared vocabulary: an optional value, Python's `sep.join(pieces)` and
 * `s.split(c)`, and the decimal rendering that `'{}'.format(n)` gives an int.
 */
module Base {

  /** Python's `None` or a present value. */
  datatype Option<+T> = None | Some(value: T) {
    /** `x or default` for a value whose only falsy form is None. */
    function GetOr(default: T): T {
      if Some? then value else default
    }
  }

  /** `sep.join(pieces)`: the pieces in order, one separator between neighbours. */
  function Join(pieces: seq<string>, sep: string): string
  {
    if |pieces| == 0 then ""
    else if |pieces| == 1 then pieces[0]
    else pieces[0] + sep + Join(pieces[1..], sep)
  }

  /** Joining two non-empty runs of pieces puts exactly one separator between them. */
  lemma {:induction false} JoinAppend(a: seq<string>, b: seq<string>, sep: string)
    requires |a| > 0 && |b| > 0
    ensures Join(a + b, sep) == Join(a, sep) + sep + Join(b, sep)
  {
    if |a| == 1 {
      assert (a + b)[1..] == b;
    } else {
      assert (a + b)[1..] == a[1..] + b;
      JoinAppend(a[1..], b, sep);
    }
  }

  /** `s.split(c)` for a one-character separator: never an empty list. */
  function Split(s: string, c: char): (r: seq<string>)
    ensures |r| >= 1
    ensures |r| == 1 <==> c !in s
  {
    if s == [] then [""]
    else
      var rest := Split(s[1..], c);
      if s[0] == c then [""] + rest else [[s[0]] + rest[0]] + rest[1..]
  }

  /** A string without the separator splits into itself alone. */
  lemma {:induction false} SplitWithoutSeparator(s: string, c: char)
    requires c !in s
    ensures Split(s, c) == [s]
  {
    if s != [] {
      SplitWithoutSeparator(s[1..], c);
      assert [s[0]] + s[1..] == s;
    }
  }

  /** Splitting at a separator splits the text before it and the text after it independently. */
  lemma {:induction false} SplitAtSeparator(a: string, b: string, c: char)
    ensures Split(a + [c] + b, c) == Split(a, c) + Split(b, c)
  {
    if a == [] {
      assert a + [c] + b == [c] + b;
      assert ([c] + b)[1..] == b;
    } else {
      assert (a + [c] + b)[1..] == a[1..] + [c] + b;
      SplitAtSeparator(a[1..], b, c);
    }
  }

  /** Split undoes Join when no piece holds the separator. */
  lemma {:induction false} SplitJoin(pieces: seq<string>, c: char)
    requires |pieces| >= 1
    requires forall i :: 0 <= i < |pieces| ==> c !in pieces[i]
    ensures Split(Join(pieces, [c]), c) == pieces
  {
    SplitWithoutSeparator(pieces[0], c);
    if |pieces| > 1 {
      SplitJoin(pieces[1..], c);
      SplitAtSeparator(pieces[0], Join(pieces[1..], [c]), c);
      assert [pieces[0]] + pieces[1..] == pieces;
    }
  }

  function DigitChar(d: nat): char
    requires d < 10
  {
    (('0' as int) + d) as char
  }

  predicate IsDigit(ch: char) {
    '0' <= ch <= '9'
  }

  /** The decimal digits of a natural number, most significant first. */
  function NatToString(n: nat): (r: string)
    ensures |r| >= 1
    ensures forall i :: 0 <= i < |r| ==> IsDigit(r[i])
  {
    if n < 10 then [DigitChar(n)] else NatToString(n / 10) + [DigitChar(n % 10)]
  }

  /** `'{}'.format(i)` for a Python int. */
  function IntToString(i: int): (r: string)
    ensures |r| >= 1
    ensures forall k :: 0 <= k < |r| ==> IsDigit(r[k]) || (k == 0 && r[k] == '-' && i < 0)
  {
    if i < 0 then "-" + NatToString(-i) else NatToString(i)
  }

  /** The number a string of decimal digits denotes. */
  function DecimalValue(s: string): nat
    requires forall i :: 0 <= i < |s| ==> IsDigit(s[i])
  {
    if s == [] then 0
    else
      var last := s[|s| - 1];
      assert IsDigit(last);
      DecimalValue(s[..|s| - 1]) * 10 + ((last as int) - ('0' as int))
  }

  /** Reading the digits back gives the number: the rendering loses nothing. */
  lemma {:induction false} DecimalRoundTrip(n: nat)
    ensures DecimalValue(NatToString(n)) == n
  {
    if n >= 10 {
      var s := NatToString(n);
      assert s[..|s| - 1] == NatToString(n / 10);
      DecimalRoundTrip(n / 10);
    }
  }
}
