/** Text as the repository compares and bounds it. */
module Texts {
  const MaxIdentityBytes: nat := 256

  predicate Space(c: char)
  {
    c == ' ' || c == '\t' || c == '\n' || c == '\r' || c == '\U{0B}' || c == '\U{0C}' || c == '\U{85}' || c == '\U{A0}'
  }

  predicate Blank(s: string) { forall i :: 0 <= i < |s| ==> Space(s[i]) }

  /** invalidIdentity (management/status.go:364). */
  predicate InvalidIdentity(s: string) { Blank(s) || |s| > MaxIdentityBytes }

  /** Lexical order, as in the scripts and in strings.Compare. */
  predicate TextBefore(l: string, r: string)
  {
    r != [] && (l == [] || l[0] < r[0] || (l[0] == r[0] && TextBefore(l[1..], r[1..])))
  }

  lemma {:induction false} TextTotal(l: string, r: string)
    ensures TextBefore(l, r) || TextBefore(r, l) || l == r
    ensures !(TextBefore(l, r) && TextBefore(r, l)) && !TextBefore(l, l)
  {
    if l != [] && r != [] {
      TextTotal(l[1..], r[1..]);
      assert l == [l[0]] + l[1..] && r == [r[0]] + r[1..];
    }
    if l != [] { TextTotal(l[1..], l[1..]); }
  }

  lemma {:induction false} TextTransitive(a: string, b: string, c: string)
    requires TextBefore(a, b) && TextBefore(b, c)
    ensures TextBefore(a, c)
  {
    if a != [] && a[0] == b[0] == c[0] { TextTransitive(a[1..], b[1..], c[1..]); }
  }
}
