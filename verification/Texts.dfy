// Python's str.strip() and the order of str.
module Texts {

  // str.isspace() for one character
  predicate Whitespace(c: char) {
    var n := c as int;
    || 0x09 <= n <= 0x0D || 0x1C <= n <= 0x20 || n == 0x85 || n == 0xA0 || n == 0x1680
    || 0x2000 <= n <= 0x200A || n == 0x2028 || n == 0x2029 || n == 0x202F || n == 0x205F || n == 0x3000
  }

  function StripLeft(s: string): (r: string)
    ensures r == [] || !Whitespace(r[0])
  {
    if s != [] && Whitespace(s[0]) then StripLeft(s[1..]) else s
  }

  function StripRight(s: string): (r: string)
    ensures r <= s
    ensures r == [] || !Whitespace(r[|r| - 1])
  {
    if s != [] && Whitespace(s[|s| - 1]) then StripRight(s[..|s| - 1]) else s
  }

  function Strip(s: string): (r: string)
    ensures r == [] || (!Whitespace(r[0]) && !Whitespace(r[|r| - 1]))
  {
    StripRight(StripLeft(s))
  }

  // Blanks, tabs, line ends and separators, code point by code point.
  lemma WhitespaceExactly(c: char)
    ensures Whitespace(c) <==>
              c as int in {0x09, 0x0A, 0x0B, 0x0C, 0x0D, 0x1C, 0x1D, 0x1E, 0x1F, 0x20, 0x85, 0xA0, 0x1680, 0x2000,
                           0x2001, 0x2002, 0x2003, 0x2004, 0x2005, 0x2006, 0x2007, 0x2008, 0x2009, 0x200A, 0x2028,
                           0x2029, 0x202F, 0x205F, 0x3000}
  {}

  ghost predicate AllWhitespace(s: string) {
    forall c <- s :: Whitespace(c)
  }

  lemma {:induction false} StrippedLeft(s: string) returns (left: string)
    ensures s == left + StripLeft(s) && AllWhitespace(left)
  {
    if s != [] && Whitespace(s[0]) {
      left := StrippedLeft(s[1..]);
      left := [s[0]] + left;
      assert s == [s[0]] + s[1..];
    } else {
      left := [];
    }
  }

  lemma {:induction false} StrippedRight(s: string) returns (right: string)
    ensures s == StripRight(s) + right && AllWhitespace(right)
  {
    if s != [] && Whitespace(s[|s| - 1]) {
      right := StrippedRight(s[..|s| - 1]);
      right := right + [s[|s| - 1]];
      assert s == s[..|s| - 1] + [s[|s| - 1]];
    } else {
      right := [];
    }
  }

  // Only whitespace at the ends goes, and all of it.
  lemma StripTrimsTheEnds(s: string) returns (left: string, right: string)
    ensures s == left + Strip(s) + right && AllWhitespace(left) && AllWhitespace(right)
    ensures Strip(s) != [] ==> !Whitespace(Strip(s)[0]) && !Whitespace(Strip(s)[|Strip(s)| - 1])
  {
    left := StrippedLeft(s);
    right := StrippedRight(StripLeft(s));
    assert s == left + (Strip(s) + right);
  }

  lemma StripAgain(s: string)
    ensures Strip(Strip(s)) == Strip(s)
  {}

  // Code point by code point; a proper prefix comes first.
  predicate ComesBefore(a: string, b: string) {
    b != [] && (a == [] || a[0] < b[0] || (a[0] == b[0] && ComesBefore(a[1..], b[1..])))
  }

  // They agree up to k, where the first ends or has the lower character.
  predicate PartsAt(a: string, b: string, k: nat) {
    k <= |a| && k < |b| && a[..k] == b[..k] && (k == |a| || a[k] < b[k])
  }

  lemma {:induction false} PartsAtFirst(a: string, b: string) returns (k: nat)
    requires ComesBefore(a, b)
    ensures PartsAt(a, b, k)
  {
    if a == [] || a[0] != b[0] {
      k := 0;
    } else {
      k := PartsAtFirst(a[1..], b[1..]);
      assert a[..k + 1] == [a[0]] + a[1..][..k] && b[..k + 1] == [b[0]] + b[1..][..k];
      k := k + 1;
    }
  }

  lemma {:induction false} PartedComesBefore(a: string, b: string, k: nat)
    requires PartsAt(a, b, k)
    ensures ComesBefore(a, b)
  {
    if k == 0 {
    } else {
      assert a[0] == a[..k][0] && b[0] == b[..k][0];
      assert a[1..][..k - 1] == a[..k][1..] && b[1..][..k - 1] == b[..k][1..];
      PartedComesBefore(a[1..], b[1..], k - 1);
    }
  }

  lemma ComesBeforeExactlyWhen(a: string, b: string)
    ensures ComesBefore(a, b) <==> exists k: nat :: PartsAt(a, b, k)
  {
    if ComesBefore(a, b) {
      var k := PartsAtFirst(a, b);
    }
    if k: nat :| PartsAt(a, b, k) {
      PartedComesBefore(a, b, k);
    }
  }

  lemma {:induction false} OrderIsTotal(a: string, b: string)
    ensures a == b || ComesBefore(a, b) || ComesBefore(b, a)
    ensures !(ComesBefore(a, b) && ComesBefore(b, a)) && !ComesBefore(a, a)
  {
    if a != [] && b != [] && a[0] == b[0] {
      OrderIsTotal(a[1..], b[1..]);
      assert a == [a[0]] + a[1..] && b == [b[0]] + b[1..];
    }
    if a == [] {
    } else {
      OrderIsTotal(a[1..], a[1..]);
    }
  }

  lemma {:induction false} OrderIsTransitive(a: string, b: string, c: string)
    requires ComesBefore(a, b) && ComesBefore(b, c)
    ensures ComesBefore(a, c)
  {
    if a == [] {
    } else if a[0] == b[0] == c[0] {
      OrderIsTransitive(a[1..], b[1..], c[1..]);
    }
  }
}
