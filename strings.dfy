/**
 * The string helpers the filter relies on: Go's `strings.ToLower` and
 * `strings.Contains`, and the three anchored regular expressions of the
 * filter written as prefix tests.
 */
module GoStrings {

  /** Lower-case mapping of one character (ASCII letters only). */
  function LowerChar(c: char): char
  {
    if 'A' <= c <= 'Z' then (c as int + 32) as char else c
  }

  /**
   * `strings.ToLower`, restricted to the ASCII case mapping: the result has
   * no upper-case letter left, every upper-case letter becomes its
   * lower-case partner in place, and every other character is kept.
   */
  function ToLower(s: string): (r: string)
    ensures |r| == |s|
    ensures forall i :: 0 <= i < |r| ==> !('A' <= r[i] <= 'Z')
    ensures forall i :: 0 <= i < |s| && 'A' <= s[i] <= 'Z' ==> r[i] == (s[i] as int + 32) as char
    ensures forall i :: 0 <= i < |s| && !('A' <= s[i] <= 'Z') ==> r[i] == s[i]
  {
    seq(|s|, i requires 0 <= i < |s| => LowerChar(s[i]))
  }

  /** Lower-casing twice is lower-casing once. */
  lemma ToLowerIdempotent(s: string)
    ensures ToLower(ToLower(s)) == ToLower(s)
  {
    var r := ToLower(s);
    assert forall i :: 0 <= i < |r| ==> ToLower(r)[i] == r[i];
  }

  /** `sub` occurs in `s` starting at index `i`. */
  predicate OccursAt(s: string, sub: string, i: int)
  {
    0 <= i <= |s| - |sub| && s[i..i + |sub|] == sub
  }

  /**
   * `strings.Contains`, as a scan from the left: `sub` is a prefix of `s`
   * or occurs in its tail (the empty string occurs everywhere).
   */
  predicate Contains(s: string, sub: string)
    decreases |s|
  {
    HasPrefix(s, sub) || (s != [] && Contains(s[1..], sub))
  }

  /** The scan finds `sub` exactly when `sub` occurs at some index of `s`. */
  lemma {:induction false} ContainsIffOccurs(s: string, sub: string)
    ensures Contains(s, sub) <==> exists i :: OccursAt(s, sub, i)
    decreases |s|
  {
    if HasPrefix(s, sub) {
      assert s[0..|sub|] == s[..|sub|];
      assert OccursAt(s, sub, 0);
    } else {
      assert !OccursAt(s, sub, 0) by {
        if 0 <= |s| - |sub| {
          assert s[0..|sub|] == s[..|sub|];
        }
      }
      if s != [] {
        ContainsIffOccurs(s[1..], sub);
        if exists i :: OccursAt(s, sub, i) {
          var i :| OccursAt(s, sub, i);
          assert s[1..][i - 1..i - 1 + |sub|] == s[i..i + |sub|];
          assert OccursAt(s[1..], sub, i - 1);
        }
        if Contains(s[1..], sub) {
          var j :| OccursAt(s[1..], sub, j);
          assert s[1..][j..j + |sub|] == s[j + 1..j + 1 + |sub|];
          assert OccursAt(s, sub, j + 1);
        }
      }
    }
  }

  /** A string in which the first character of `sub` appears at no index where `sub` would fit does not contain `sub`. */
  lemma {:induction false} FirstCharAbsent(s: string, sub: string)
    requires |sub| > 0
    requires forall i :: 0 <= i <= |s| - |sub| ==> s[i] != sub[0]
    ensures !Contains(s, sub)
    decreases |s|
  {
    if |sub| <= |s| {
      assert s[..|sub|][0] == s[0];
    }
    if s != [] {
      assert forall i :: 0 <= i <= |s[1..]| - |sub| ==> s[1..][i] == s[i + 1];
      FirstCharAbsent(s[1..], sub);
    }
  }

  /** A regular expression `^p` with no meta-characters in `p` matches exactly the strings that start with `p`. */
  predicate HasPrefix(s: string, p: string)
  {
    |p| <= |s| && s[..|p|] == p
  }

  /** Request paths of the tracked property-view pages, `^/prop/view/`. */
  const ViewPrefix: string := "/prop/view/"

  /**
   * The confirmation-origin pattern `^s.anjuke.com`. Its two dots are not
   * escaped, so each matches any single character except a newline (Go's
   * default for `.`); the pattern is anchored only at the start.
   */
  predicate IsSearchHost(h: string)
  {
    && |h| >= 12
    && h[0] == 's'
    && h[1] != '\n'
    && h[2..8] == "anjuke"
    && h[8] != '\n'
    && h[9..12] == "com"
  }

  /** The literal host matches, and so do hosts in which the dots are other characters. */
  lemma SearchHostWildcards()
    ensures IsSearchHost("s.anjuke.com")
    ensures IsSearchHost("s.anjuke.com.cn")
    ensures IsSearchHost("sXanjukeYcom")
    ensures !IsSearchHost("www.anjuke.com")
    ensures !IsSearchHost("s\nanjuke.com")
  {
  }
}
