/** The few JavaScript string operations the bridge relies on, over `seq<char>`. */
module Strings {
  import opened Options

  /** JavaScript truthiness of an optional string: present and not empty. */
  predicate Truthy(s: Option<string>) {
    s.Some? && s.value != ""
  }

  /** `s.startsWith(prefix)` */
  predicate StartsWith(s: string, prefix: string) {
    |prefix| <= |s| && s[..|prefix|] == prefix
  }

  /** `s.endsWith(suffix)` */
  predicate EndsWith(s: string, suffix: string) {
    |suffix| <= |s| && s[|s| - |suffix|..] == suffix
  }

  /** `t` occurs in `s` starting at index `i`. */
  predicate OccursAt(s: string, t: string, i: int) {
    0 <= i && i + |t| <= |s| && s[i..i + |t|] == t
  }

  /** The reference meaning of `s.includes(t)`: some index where `t` occurs. */
  ghost predicate Substring(s: string, t: string) {
    exists i :: OccursAt(s, t, i)
  }

  /** `s.includes(t)`, as a left-to-right scan. The empty string is included in every string. */
  predicate Includes(s: string, t: string)
    decreases |s|
  {
    StartsWith(s, t) || (s != [] && Includes(s[1..], t))
  }

  /** The scan finds `t` exactly when `t` occurs somewhere in `s`. */
  lemma {:induction false} IncludesIff(s: string, t: string)
    ensures Includes(s, t) <==> Substring(s, t)
    decreases |s|
  {
    if StartsWith(s, t) {
      assert OccursAt(s, t, 0);
    } else if s == [] {
      assert t != [];
    } else {
      IncludesIff(s[1..], t);
      if Includes(s[1..], t) {
        var j :| OccursAt(s[1..], t, j);
        OccursShift(s, t, j + 1);
      }
      if Substring(s, t) {
        var i :| OccursAt(s, t, i);
        assert i != 0;
        OccursShift(s, t, i);
      }
    }
  }

  /** An occurrence past the first character is an occurrence in the tail, one index earlier. */
  lemma OccursShift(s: string, t: string, i: int)
    requires 0 < i && s != []
    ensures OccursAt(s, t, i) <==> OccursAt(s[1..], t, i - 1)
  {
    if i + |t| <= |s| {
      assert s[1..][i - 1..i - 1 + |t|] == s[i..i + |t|];
    }
  }

  /** Every string includes the empty string (`"abc".includes("") === true`). */
  lemma {:induction false} IncludesEmpty(s: string)
    ensures Includes(s, "")
  {
    assert StartsWith(s, "");
  }

  /** A string includes itself and every piece cut out of it. */
  lemma IncludesPiece(p: string, t: string, q: string)
    ensures Includes(p + t + q, t)
  {
    var s := p + t + q;
    assert s[|p|..|p| + |t|] == t;
    assert OccursAt(s, t, |p|);
    IncludesIff(s, t);
  }

  lemma StartsWithConcat(a: string, b: string)
    ensures StartsWith(a + b, a)
  {
    assert (a + b)[..|a|] == a;
  }

  /** The last piece of a right-nested concatenation ends it. */
  lemma EndsWithNested(p: string, x: string, y: string)
    ensures EndsWith(p + (x + y), y)
  {
    var s := p + (x + y);
    assert s[|s| - |y|..] == y;
  }

  lemma EndsWithTrans(s: string, t: string, u: string)
    requires EndsWith(s, t) && EndsWith(t, u)
    ensures EndsWith(s, u)
  {
    assert s[|s| - |u|..] == s[|s| - |t|..][|t| - |u|..];
  }

  /** The middle piece of `a + ((b + t) + c)` is included in it. */
  lemma IncludesMiddle(a: string, b: string, t: string, c: string)
    ensures Includes(a + ((b + t) + c), t)
  {
    assert a + ((b + t) + c) == (a + b) + t + c;
    IncludesPiece(a + b, t, c);
  }
}
