/**
 * The few string operations of JavaScript that the application relies on:
 * `toLowerCase`, `includes` and `replace` with a string pattern.
 */
module JsStrings {

  predicate IsUpper(c: char) {
    'A' <= c <= 'Z'
  }

  /** `toLowerCase` on one character; only the ASCII letters are folded. */
  function LowerChar(c: char): (r: char)
    ensures !IsUpper(r)
    ensures !IsUpper(c) ==> r == c
    ensures IsUpper(c) ==> 'a' <= r <= 'z' && r as int - c as int == 'a' as int - 'A' as int
  {
    if IsUpper(c) then (c as int - 'A' as int + 'a' as int) as char else c
  }

  /** `s.toLowerCase()`, character by character. */
  function Lower(s: string): (r: string)
    ensures |r| == |s|
    ensures forall i :: 0 <= i < |s| ==> !IsUpper(r[i])
    ensures forall i :: 0 <= i < |s| && !IsUpper(s[i]) ==> r[i] == s[i]
    ensures forall i :: 0 <= i < |s| && IsUpper(s[i]) ==> r[i] as int == s[i] as int + 32
  {
    seq(|s|, i requires 0 <= i < |s| => LowerChar(s[i]))
  }

  /** Lower-casing twice is lower-casing once. */
  lemma LowerIdempotent(s: string)
    ensures Lower(Lower(s)) == Lower(s)
  {
  }

  /** `s.includes(sub)`: `sub` occurs in `s` at some position. */
  predicate Contains(s: string, sub: string): (b: bool)
    ensures b ==> |sub| <= |s|
    ensures sub == [] ==> b
  {
    sub <= s || (|s| > 0 && Contains(s[1..], sub))
  }

  /** An occurrence of `sub` at position `i` of `s` makes `s` contain `sub`. */
  lemma {:induction false} ContainsAt(s: string, sub: string, i: nat)
    requires i + |sub| <= |s| && s[i..i + |sub|] == sub
    ensures Contains(s, sub)
  {
    if i == 0 {
      assert sub == s[..|sub|];
    } else {
      assert s[1..][i - 1..i - 1 + |sub|] == s[i..i + |sub|];
      ContainsAt(s[1..], sub, i - 1);
    }
  }

  /** Whenever `s` contains `sub`, it does so at some position. */
  lemma {:induction false} ContainsHasPosition(s: string, sub: string) returns (i: nat)
    requires Contains(s, sub)
    ensures i + |sub| <= |s| && s[i..i + |sub|] == sub
  {
    if sub <= s {
      i := 0;
    } else {
      var j := ContainsHasPosition(s[1..], sub);
      assert s[1..][j..j + |sub|] == s[j + 1..j + 1 + |sub|];
      i := j + 1;
    }
  }

  /**
   * `s.replace(pat, rep)` with a string pattern: only the FIRST occurrence of
   * `pat` is replaced; without an occurrence `s` is returned unchanged.
   */
  function ReplaceFirst(s: string, pat: string, rep: string): (r: string)
    ensures !Contains(s, pat) ==> r == s
  {
    if pat <= s then rep + s[|pat|..]
    else if s == [] then s
    else [s[0]] + ReplaceFirst(s[1..], pat, rep)
  }

  /**
   * When `i` is the first position at which `pat` occurs, the result is `s`
   * with that one occurrence replaced by `rep`; later occurrences stay.
   */
  lemma {:induction false} ReplaceFirstAt(s: string, pat: string, rep: string, i: nat)
    requires i + |pat| <= |s| && s[i..i + |pat|] == pat
    requires forall j :: 0 <= j < i ==> !(pat <= s[j..])
    ensures ReplaceFirst(s, pat, rep) == s[..i] + rep + s[i + |pat|..]
  {
    if i == 0 {
      assert pat <= s by {
        assert s[..|pat|] == pat;
      }
    } else {
      assert !(pat <= s) by {
        assert s[0..] == s;
      }
      var t := s[1..];
      assert t[i - 1..i - 1 + |pat|] == pat by {
        assert t[i - 1..i - 1 + |pat|] == s[i..i + |pat|];
      }
      forall j | 0 <= j < i - 1
        ensures !(pat <= t[j..])
      {
        assert t[j..] == s[j + 1..];
      }
      ReplaceFirstAt(t, pat, rep, i - 1);
      SplitAfterHead(s, i, |pat|, rep);
    }
  }

  /** Splitting `s` at `i` and `i + n` around `rep` commutes with taking off the head. */
  lemma SplitAfterHead(s: string, i: nat, n: nat, rep: string)
    requires 0 < i && i + n <= |s|
    ensures [s[0]] + (s[1..][..i - 1] + rep + s[1..][i - 1 + n..]) == s[..i] + rep + s[i + n..]
  {
    assert s[1..][..i - 1] == s[1..i];
    assert s[1..][i - 1 + n..] == s[i + n..];
    assert [s[0]] + s[1..i] == s[..i];
  }

  /** Removing ".json" from a name that has no dot before the suffix yields the base name. */
  lemma {:induction false} ReplaceJsonSuffix(base: string)
    requires '.' !in base
    ensures ReplaceFirst(base + ".json", ".json", "") == base
  {
    if base == [] {
      assert base + ".json" == ".json";
    } else {
      var s := base + ".json";
      assert s[0] == base[0] != '.';
      assert !(".json" <= s);
      assert s[1..] == base[1..] + ".json";
      ReplaceJsonSuffix(base[1..]);
    }
  }
}
