/**
 * Strings as the service handles them: Rust's `trim`, and fields joined by colons.
 */
module Text {
  /** `char::is_whitespace`: the Unicode property White_Space. */
  predicate IsSpace(c: char) {
    || '\U{0009}' <= c <= '\U{000D}' || c == ' ' || c == '\U{0085}' || c == '\U{00A0}'
    || c == '\U{1680}' || '\U{2000}' <= c <= '\U{200A}' || c == '\U{2028}' || c == '\U{2029}'
    || c == '\U{202F}' || c == '\U{205F}' || c == '\U{3000}'
  }

  function TrimStart(s: string): string {
    if s != "" && IsSpace(s[0]) then TrimStart(s[1..]) else s
  }

  function TrimEnd(s: string): string {
    if s != "" && IsSpace(s[|s| - 1]) then TrimEnd(s[..|s| - 1]) else s
  }

  function Trim(s: string): string {
    TrimEnd(TrimStart(s))
  }

  /** Nothing is left to trim. */
  predicate Trimmed(s: string) {
    s == "" || (!IsSpace(s[0]) && !IsSpace(s[|s| - 1]))
  }

  lemma {:induction false} TrimEndKeepsStart(s: string)
    requires s == "" || !IsSpace(s[0])
    ensures Trimmed(TrimEnd(s))
  {
    if s != "" && IsSpace(s[|s| - 1]) {
      TrimEndKeepsStart(s[..|s| - 1]);
    }
  }

  lemma {:induction false} TrimStartStops(s: string)
    ensures TrimStart(s) == "" || !IsSpace(TrimStart(s)[0])
  {
    if s != "" && IsSpace(s[0]) {
      TrimStartStops(s[1..]);
    }
  }

  /** Trimming is idempotent: what has been trimmed once is left alone. */
  lemma TrimTwice(s: string)
    ensures Trimmed(Trim(s))
    ensures Trim(Trim(s)) == Trim(s)
  {
    TrimStartStops(s);
    TrimEndKeepsStart(TrimStart(s));
  }

  predicate Blank(s: string) {
    forall i :: 0 <= i < |s| ==> IsSpace(s[i])
  }

  lemma {:induction false} TrimStartOnly(s: string) returns (front: string)
    ensures Blank(front) && s == front + TrimStart(s)
  {
    front := "";
    if s != "" && IsSpace(s[0]) {
      var rest := TrimStartOnly(s[1..]);
      front := [s[0]] + rest;
      assert s == [s[0]] + s[1..];
    }
  }

  lemma {:induction false} TrimEndOnly(s: string) returns (back: string)
    ensures Blank(back) && s == TrimEnd(s) + back
  {
    back := "";
    if s != "" && IsSpace(s[|s| - 1]) {
      var rest := TrimEndOnly(s[..|s| - 1]);
      back := rest + [s[|s| - 1]];
      assert s == s[..|s| - 1] + [s[|s| - 1]];
    }
  }

  /** Trimming removes white space at both ends, all of it, and nothing else; no other text does that. */
  lemma TrimExactly(s: string, t: string)
    ensures t == Trim(s) <==>
      Trimmed(t) && exists front, back :: Blank(front) && Blank(back) && s == front + t + back
  {
    TrimTwice(s);
    var front := TrimStartOnly(s);
    var back := TrimEndOnly(TrimStart(s));
    assert s == front + Trim(s) + back;
    if Trimmed(t) && exists a, b :: Blank(a) && Blank(b) && s == a + t + b {
      var a, b :| Blank(a) && Blank(b) && s == a + t + b;
      OneTrim(front, Trim(s), back, a, t, b);
    }
  }

  lemma TrimmedStays(s: string)
    requires Trimmed(s)
    ensures Trim(s) == s
  {
    assert Blank("") && s == "" + s + "";
    TrimExactly(s, s);
  }

  /** A text that is white space at both ends has one way to take it off; if it is all white space, nothing is left. */
  lemma OneTrim(a: string, s: string, b: string, x: string, t: string, y: string)
    requires Blank(a) && Blank(b) && Blank(x) && Blank(y) && Trimmed(s) && Trimmed(t)
    requires a + s + b == x + t + y
    ensures s == t
  {
    if s == "" || t == "" {
      if s != "" {
        InBlank(a, s, b, x + y, 0);
      } else if t != "" {
        InBlank(x, t, y, a + b, 0);
      }
    } else {
      FirstAligned(a, s, b, x, t, y);
      FirstAligned(x, t, y, a, s, b);
      LastAligned(a, s, b, x, t, y);
      LastAligned(x, t, y, a, s, b);
      assert s == (a + s + b)[|a|..|a| + |s|] && t == (x + t + y)[|x|..|x| + |t|];
    }
  }

  lemma InBlank(a: string, s: string, b: string, all: string, i: nat)
    requires a + s + b == all && Blank(all) && i < |s|
    ensures IsSpace(s[i])
  {
    assert all[|a| + i] == s[i];
  }

  lemma AtEnds(x: string, t: string, y: string, i: nat)
    ensures i < |x| ==> (x + t + y)[i] == x[i]
    ensures |x| + |t| <= i < |x| + |t| + |y| ==> (x + t + y)[i] == y[i - |x| - |t|]
  {
  }

  lemma FirstAligned(a: string, s: string, b: string, x: string, t: string, y: string)
    requires Blank(x) && s != "" && !IsSpace(s[0]) && a + s + b == x + t + y
    ensures |a| >= |x|
  {
    assert (a + s + b)[|a|] == s[0];
    AtEnds(x, t, y, |a|);
  }

  lemma LastAligned(a: string, s: string, b: string, x: string, t: string, y: string)
    requires Blank(y) && s != "" && !IsSpace(s[|s| - 1]) && a + s + b == x + t + y
    ensures |a| + |s| <= |x| + |t|
  {
    var last := |a| + |s| - 1;
    assert (a + s + b)[last] == s[|s| - 1];
    AtEnds(x, t, y, last);
  }

  predicate NoColon(s: string) {
    forall i :: 0 <= i < |s| ==> s[i] != ':'
  }

  /** The last colon of a joined text marks its last field. */
  lemma LastField(a: string, x: string, b: string, y: string)
    requires NoColon(x) && NoColon(y)
    requires a + ":" + x == b + ":" + y
    ensures a == b && x == y
  {
    var s, t := a + ":" + x, b + ":" + y;
    assert s[|a|] == ':' && t[|b|] == ':';
    assert forall i :: |a| < i < |s| ==> s[i] == x[i - |a| - 1];
    assert forall i :: |b| < i < |t| ==> t[i] == y[i - |b| - 1];
    assert |a| == |b|;
    assert a == s[..|a|] && b == t[..|b|];
    assert x == s[|a| + 1..] && y == t[|b| + 1..];
  }

  /** A text with exactly one colon has only one reading as two fields, even against arbitrary fields. */
  lemma OnlyColon(a: string, x: string, b: string, y: string)
    requires NoColon(a) && NoColon(x)
    requires a + ":" + x == b + ":" + y
    ensures a == b && x == y
  {
    var s, t := a + ":" + x, b + ":" + y;
    assert t[|b|] == ':';
    assert forall i :: 0 <= i < |a| ==> s[i] == a[i];
    assert forall i :: |a| < i < |s| ==> s[i] == x[i - |a| - 1];
    assert |a| == |b|;
    assert a == s[..|a|] && b == t[..|b|];
    assert x == s[|a| + 1..] && y == t[|b| + 1..];
  }
}
