/** String helpers the views share: JavaScript's `slice`, address truncation and ASCII lower-casing. */
module Text {

  function Min(a: nat, b: nat): nat {
    if a <= b then a else b
  }

  /** `s.slice(0, n)`: the first `n` characters, or all of `s` when it is shorter. */
  function Head(s: string, n: nat): (r: string)
    ensures |r| == Min(n, |s|) && r == s[..|r|]
  {
    if |s| <= n then s else s[..n]
  }

  /** `s.slice(-n)` for `n > 0`: the last `n` characters, or all of `s` when it is shorter. */
  function Tail(s: string, n: nat): (r: string)
    requires n > 0
    ensures |r| == Min(n, |s|) && r == s[|s| - |r|..]
  {
    if |s| <= n then s else s[|s| - n..]
  }

  /**
   * `${a.slice(0, 6)}...${a.slice(-4)}`: the first six characters, an ellipsis and
   * the last four. Every character of the result comes from the ends of `a`.
   */
  function Truncate(a: string): (r: string)
    ensures |r| == Min(6, |a|) + 3 + Min(4, |a|)
    ensures r[..Min(6, |a|)] == a[..Min(6, |a|)]
    ensures r[Min(6, |a|)..Min(6, |a|) + 3] == "..."
    ensures r[|r| - Min(4, |a|)..] == a[|a| - Min(4, |a|)..]
  {
    Head(a, 6) + "..." + Tail(a, 4)
  }

  /** For an address of at least ten characters, only the middle is dropped. */
  lemma TruncateDropsMiddle(a: string)
    requires |a| >= 10
    ensures |Truncate(a)| == 13
    ensures a == Truncate(a)[..6] + a[6..|a| - 4] + Truncate(a)[9..]
  {
  }

  predicate IsUpper(c: char) {
    'A' <= c <= 'Z'
  }

  /** `toLowerCase` on one character, for the ASCII letters. */
  function LowerChar(c: char): (d: char)
    ensures !IsUpper(d)
    ensures IsUpper(c) ==> d as int == c as int + 32
    ensures !IsUpper(c) ==> d == c
  {
    if IsUpper(c) then (c as int + 32) as char else c
  }

  /** `s.toLowerCase()`: same length, each character lower-cased, no upper-case letter left. */
  function Lower(s: string): (r: string)
    ensures |r| == |s|
    ensures forall i :: 0 <= i < |s| ==> r[i] == LowerChar(s[i])
  {
    if s == [] then [] else [LowerChar(s[0])] + Lower(s[1..])
  }

  /** Lower-casing twice is lower-casing once. */
  lemma LowerIdempotent(s: string)
    ensures Lower(Lower(s)) == Lower(s)
  {
  }
}
