/** Strings built from parts: joined fields and decimal numbers can be read back. */
module Text {
  predicate Without(s: string, sep: char) { forall i :: 0 <= i < |s| ==> s[i] != sep }

  predicate AllWithout(parts: seq<string>, sep: char) { forall i :: 0 <= i < |parts| ==> Without(parts[i], sep) }

  function Join(parts: seq<string>, sep: char): string
    requires parts != []
  {
    if |parts| == 1 then parts[0] else parts[0] + [sep] + Join(parts[1..], sep)
  }

  /** Fields that do not contain the separator are determined by the joined string. */
  lemma {:induction false} JoinInjective(a: seq<string>, b: seq<string>, sep: char)
    requires a != [] && b != [] && AllWithout(a, sep) && AllWithout(b, sep) && Join(a, sep) == Join(b, sep)
    ensures a == b
  {
    FirstField(a, sep);
    FirstField(b, sep);
    if |a| > 1 {
      var s := Join(a, sep);
      assert s[|a[0]|] == sep;
      assert |b| > 1 && |a[0]| == |b[0]|;
      assert a[0] == s[..|a[0]|] == b[0];
      assert Join(a[1..], sep) == s[|a[0]| + 1..] == Join(b[1..], sep);
      JoinInjective(a[1..], b[1..], sep);
      assert a == [a[0]] + a[1..] && b == [b[0]] + b[1..];
    } else {
      assert |b| == 1;
    }
  }

  lemma {:induction false} JoinWithout(parts: seq<string>, sep: char, c: char)
    requires parts != [] && AllWithout(parts, c) && sep != c
    ensures Without(Join(parts, sep), c)
  {
    if |parts| > 1 {
      JoinWithout(parts[1..], sep, c);
    }
  }

  /** The first field ends at the first separator, if there is one. */
  lemma {:induction false} FirstField(a: seq<string>, sep: char)
    requires a != [] && AllWithout(a, sep)
    ensures var s := Join(a, sep);
            && |a[0]| <= |s| && s[..|a[0]|] == a[0] && Without(a[0], sep)
            && (|a| == 1 ==> s == a[0])
            && (|a| > 1 ==> |s| > |a[0]| && s[|a[0]|] == sep)
  {
  }

  // ---- splitting ----

  /** Splits at every separator; there is one more part than separators. */
  function Split(s: string, sep: char): (parts: seq<string>)
    ensures parts != []
  {
    if s == [] then [""]
    else
      var rest := Split(s[1..], sep);
      if s[0] == sep then [""] + rest else [[s[0]] + rest[0]] + rest[1..]
  }

  /** Splitting and joining are inverse: joining the parts gives the string back, and no part holds a separator. */
  lemma {:induction false} JoinSplit(s: string, sep: char)
    ensures Join(Split(s, sep), sep) == s && AllWithout(Split(s, sep), sep)
  {
    if s != [] {
      var rest := Split(s[1..], sep);
      JoinSplit(s[1..], sep);
      assert s == [s[0]] + s[1..];
      if s[0] == sep {
        assert ([""] + rest)[1..] == rest;
      } else {
        var parts := [[s[0]] + rest[0]] + rest[1..];
        assert parts[1..] == rest[1..];
      }
    }
  }

  lemma {:induction false} SplitJoin(parts: seq<string>, sep: char)
    requires parts != [] && AllWithout(parts, sep)
    ensures Split(Join(parts, sep), sep) == parts
  {
    JoinSplit(Join(parts, sep), sep);
    JoinInjective(Split(Join(parts, sep), sep), parts, sep);
  }

  // ---- decimal numbers ----

  function Digit(d: nat): char
    requires d < 10
  {
    '0' + d as char
  }

  function Dec(n: nat): (s: string)
    ensures |s| >= 1 && (forall i :: 0 <= i < |s| ==> '0' <= s[i] <= '9')
  {
    if n < 10 then [Digit(n)] else Dec(n / 10) + [Digit(n % 10)]
  }

  function Value(s: string): int {
    if s == [] then 0 else 10 * Value(s[..|s| - 1]) + (s[|s| - 1] as int - '0' as int)
  }

  /** A decimal number reads back. */
  lemma {:induction false} DecValue(n: nat)
    ensures Value(Dec(n)) == n
  {
    var s := Dec(n);
    if n < 10 {
      assert s[..0] == [] && Value(s[..0]) == 0;
    } else {
      DecValue(n / 10);
      assert s[..|s| - 1] == Dec(n / 10);
    }
  }

  /** Two digits at least: a leading zero below ten. */
  function Pad2(n: nat): (s: string)
    ensures |s| >= 2 && (forall i :: 0 <= i < |s| ==> '0' <= s[i] <= '9')
  {
    if n < 10 then "0" + Dec(n) else
      LongDec(n);
      Dec(n)
  }

  lemma {:induction false} LongDec(n: nat)
    requires n >= 10
    ensures |Dec(n)| >= 2
  {
  }

  lemma {:induction false} Pad2Value(n: nat)
    ensures Value(Pad2(n)) == n
  {
    DecValue(n);
    if n < 10 {
      var s := Pad2(n);
      assert s == ['0', Digit(n)] && s[..1] == ['0'] && ['0'][..0] == [];
      assert Value(['0']) == 0;
    }
  }
}
