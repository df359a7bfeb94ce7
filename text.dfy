/** The JavaScript string operations the adapter relies on: `startsWith`,
    `includes`, the first piece of `split`, and `toLowerCase` on the ASCII
    letters of an HTTP method name. Strings are sequences of UTF-16 code
    units in JavaScript; here they are sequences of `char`. */
module Text {

  /** `s.startsWith(p)`. */
  predicate IsPrefix(p: string, s: string) {
    |p| <= |s| && s[..|p|] == p
  }

  /** `t` occurs in `s` starting at index `i`. */
  predicate OccursAt(s: string, t: string, i: int) {
    0 <= i && i + |t| <= |s| && s[i..i + |t|] == t
  }

  /** `s.includes(t)`. */
  predicate Contains(s: string, t: string) {
    exists i | 0 <= i <= |s| :: OccursAt(s, t, i)
  }

  /** Dropping the first character of `s` shifts every occurrence one place left. */
  lemma OccursShift(s: string, t: string, i: int)
    requires |s| > 0 && 0 <= i
    ensures OccursAt(s, t, i + 1) <==> OccursAt(s[1..], t, i)
  {
    if i + 1 + |t| <= |s| {
      assert s[1..][i..i + |t|] == s[i + 1..i + 1 + |t|];
    }
  }

  /** The first element of `s.split(sep)` for a non-empty separator: the part
      of `s` before the first occurrence of `sep`, or all of `s` when `sep`
      does not occur. */
  function SplitHead(s: string, sep: string): (r: string)
    requires sep != ""
    ensures IsPrefix(r, s)
    ensures r == s || OccursAt(s, sep, |r|)
    ensures forall i :: 0 <= i < |r| ==> !OccursAt(s, sep, i)
    decreases |s|
  {
    if |s| < |sep| then s
    else if s[..|sep|] == sep then ""
    else
      assert !OccursAt(s, sep, 0) by { assert s[0..|sep|] == s[..|sep|]; }
      var rest := SplitHead(s[1..], sep);
      assert forall i :: 1 <= i <= |rest| ==> !OccursAt(s, sep, i) by {
        forall i | 1 <= i <= |rest| ensures !OccursAt(s, sep, i) {
          OccursShift(s, sep, i - 1);
        }
      }
      assert rest == s[1..] || OccursAt(s, sep, |rest| + 1) by {
        OccursShift(s, sep, |rest|);
      }
      [s[0]] + rest
  }

  /** The three facts in SplitHead's contract pin the result down: any
      prefix of `s` that ends at the first occurrence of `sep` (or is `s`
      itself when there is none) is SplitHead(s, sep). */
  lemma SplitHeadUnique(s: string, sep: string, r: string)
    requires sep != ""
    requires IsPrefix(r, s)
    requires r == s || OccursAt(s, sep, |r|)
    requires forall i :: 0 <= i < |r| ==> !OccursAt(s, sep, i)
    ensures r == SplitHead(s, sep)
  {
  }

  /** The piece before the first separator does not itself contain the
      separator. */
  lemma SplitHeadHasNoSeparator(s: string, sep: string)
    requires sep != ""
    ensures !Contains(SplitHead(s, sep), sep)
  {
    var r := SplitHead(s, sep);
    if Contains(r, sep) {
      var i :| 0 <= i <= |r| && OccursAt(r, sep, i);
      assert s[i..i + |sep|] == r[i..i + |sep|];
      assert OccursAt(s, sep, i);
      assert false;
    }
  }

  /** `c.toLowerCase()` for a character of an HTTP method name. */
  function LowerChar(c: char): char {
    if 'A' <= c <= 'Z' then (c as int - 'A' as int + 'a' as int) as char else c
  }

  /** `s.toLowerCase()` restricted to ASCII letters. */
  function LowerAscii(s: string): (r: string)
    ensures |r| == |s|
    ensures forall i :: 0 <= i < |r| ==> !('A' <= r[i] <= 'Z')
    ensures forall i :: 0 <= i < |s| && !('A' <= s[i] <= 'Z') ==> r[i] == s[i]
    ensures forall i :: 0 <= i < |s| && 'A' <= s[i] <= 'Z' ==>
      r[i] as int == s[i] as int - 'A' as int + 'a' as int
  {
    seq(|s|, i requires 0 <= i < |s| => LowerChar(s[i]))
  }
}
