/**
 * The caller-trust classifier (`isCallerTrusted`): a caller is trusted when, after all
 * whitespace is removed from both sides, some configured trusted entry and the caller
 * contain one another in either direction.
 */
module Trust {
  import opened Options
  import opened Strings

  /** The characters the JavaScript regular-expression class `\s` matches. */
  predicate IsWhitespace(c: char) {
    || c == ' ' || c == '\t' || c == '\n' || c == '\r'
    || c == '\U{000B}' || c == '\U{000C}' || c == '\U{00A0}' || c == '\U{1680}'
    || ('\U{2000}' <= c <= '\U{200A}')
    || c == '\U{2028}' || c == '\U{2029}' || c == '\U{202F}' || c == '\U{205F}'
    || c == '\U{3000}' || c == '\U{FEFF}'
  }

  /** `s.replace(/\s/g, '')`: the string with every whitespace character deleted. */
  function StripWhitespace(s: string): (r: string)
    ensures |r| <= |s|
    ensures forall i :: 0 <= i < |r| ==> !IsWhitespace(r[i])
  {
    if s == [] then []
    else (if IsWhitespace(s[0]) then [] else [s[0]]) + StripWhitespace(s[1..])
  }

  /** Stripping distributes over concatenation: it acts character by character. */
  lemma {:induction false} StripConcat(a: string, b: string)
    ensures StripWhitespace(a + b) == StripWhitespace(a) + StripWhitespace(b)
  {
    if a != [] {
      assert (a + b)[1..] == a[1..] + b;
      StripConcat(a[1..], b);
    } else {
      assert a + b == b;
    }
  }

  /** A string without whitespace is left as it is, so stripping twice changes nothing. */
  lemma {:induction false} StripFixed(s: string)
    requires forall i :: 0 <= i < |s| ==> !IsWhitespace(s[i])
    ensures StripWhitespace(s) == s
  {
    if s != [] {
      StripFixed(s[1..]);
    }
  }

  /** A string made only of whitespace strips to the empty string. */
  lemma {:induction false} AllBlankStrips(s: string)
    requires forall i :: 0 <= i < |s| ==> IsWhitespace(s[i])
    ensures StripWhitespace(s) == ""
  {
    if s != [] {
      AllBlankStrips(s[1..]);
    }
  }

  /** A space inside a number is dropped and the digits around it keep their order. */
  lemma InnerSpaceStripped(p: string, q: string)
    requires forall i :: 0 <= i < |p| ==> !IsWhitespace(p[i])
    requires forall i :: 0 <= i < |q| ==> !IsWhitespace(q[i])
    ensures StripWhitespace(p + " " + q) == p + q
  {
    var blank := " ";
    AllBlankStrips(blank);
    StripFixed(p);
    StripFixed(q);
    StripConcat(p, blank);
    assert StripWhitespace(p + blank) == p;
    StripConcat(p + blank, q);
  }

  /** One trusted entry matches the caller: after stripping, either includes the other. */
  predicate Matches(caller: string, entry: string) {
    var c := StripWhitespace(caller);
    var e := StripWhitespace(entry);
    Includes(c, e) || Includes(e, c)
  }

  /** `trustedCallers.some(...)`: the entries are tried from the first to the last. */
  predicate AnyMatches(trusted: seq<string>, caller: string) {
    trusted != [] && (Matches(caller, trusted[0]) || AnyMatches(trusted[1..], caller))
  }

  /** `isCallerTrusted(callerNumber)`: a missing or empty caller is never trusted. */
  predicate IsCallerTrusted(trusted: seq<string>, caller: Option<string>) {
    Truthy(caller) && AnyMatches(trusted, caller.value)
  }

  /** The reference meaning of a match, with `includes` read as "occurs somewhere". */
  ghost predicate MatchesSpec(caller: string, entry: string) {
    var c := StripWhitespace(caller);
    var e := StripWhitespace(entry);
    Substring(c, e) || Substring(e, c)
  }

  lemma {:induction false} AnyMatchesIff(trusted: seq<string>, caller: string)
    ensures AnyMatches(trusted, caller) <==>
            exists k :: 0 <= k < |trusted| && MatchesSpec(caller, trusted[k])
  {
    if trusted != [] {
      var c := StripWhitespace(caller);
      var e := StripWhitespace(trusted[0]);
      IncludesIff(c, e);
      IncludesIff(e, c);
      AnyMatchesIff(trusted[1..], caller);
      if AnyMatches(trusted[1..], caller) {
        var k :| 0 <= k < |trusted[1..]| && MatchesSpec(caller, trusted[1..][k]);
        assert MatchesSpec(caller, trusted[k + 1]);
      }
      if exists k :: 0 <= k < |trusted| && MatchesSpec(caller, trusted[k]) {
        var k :| 0 <= k < |trusted| && MatchesSpec(caller, trusted[k]);
        if k > 0 {
          assert MatchesSpec(caller, trusted[1..][k - 1]);
        }
      }
    }
  }

  /**
   * The classifier's whole contract: false for a missing or empty caller; otherwise true
   * exactly when some entry, whitespace removed, occurs in the whitespace-free caller or
   * the other way round.
   */
  lemma CallerTrustedIff(trusted: seq<string>, caller: Option<string>)
    ensures IsCallerTrusted(trusted, caller) <==>
            caller.Some? && caller.value != "" &&
            exists k :: 0 <= k < |trusted| && MatchesSpec(caller.value, trusted[k])
  {
    if caller.Some? {
      AnyMatchesIff(trusted, caller.value);
    }
  }

  /** A caller equal to a configured entry, or that entry with digits or spaces around it, is trusted. */
  lemma {:induction false} ExtendedEntryTrusted(trusted: seq<string>, k: nat, p: string, q: string)
    requires k < |trusted|
    requires p + trusted[k] + q != ""
    ensures IsCallerTrusted(trusted, Some(p + trusted[k] + q))
  {
    var caller := p + trusted[k] + q;
    StripConcat(p + trusted[k], q);
    StripConcat(p, trusted[k]);
    var e := StripWhitespace(trusted[k]);
    IncludesPiece(StripWhitespace(p), e, StripWhitespace(q));
    IncludesIff(StripWhitespace(caller), e);
    AnyMatchesIff(trusted, caller);
  }

  /** A caller who dials a configured number with a space inside it is still trusted. */
  lemma SpacedNumberTrusted(trusted: seq<string>, k: nat, p: string, q: string)
    requires k < |trusted| && trusted[k] == p + q
    requires forall i :: 0 <= i < |p| ==> !IsWhitespace(p[i])
    requires forall i :: 0 <= i < |q| ==> !IsWhitespace(q[i])
    ensures IsCallerTrusted(trusted, Some(p + " " + q))
  {
    var caller := p + " " + q;
    InnerSpaceStripped(p, q);
    StripConcat(p, q);
    StripFixed(p);
    StripFixed(q);
    assert OccursAt(p + q, p + q, 0);
    assert MatchesSpec(caller, trusted[k]);
    CallerTrustedIff(trusted, Some(caller));
  }

  /**
   * A consequence of `"".includes`: an entry that is empty once whitespace is removed (what a
   * trailing comma in the configured list yields) makes every non-empty caller trusted.
   */
  lemma {:induction false} BlankEntryTrustsEveryone(trusted: seq<string>, k: nat, caller: string)
    requires k < |trusted| && StripWhitespace(trusted[k]) == ""
    requires caller != ""
    ensures IsCallerTrusted(trusted, Some(caller))
  {
    IncludesEmpty(StripWhitespace(caller));
    IncludesIff(StripWhitespace(caller), "");
    AnyMatchesIff(trusted, caller);
  }

  /**
   * The same consequence from the other side: a caller made only of whitespace is trusted as
   * soon as the list has any entry, since every string includes the empty one.
   */
  lemma {:induction false} BlankCallerTrusted(trusted: seq<string>, caller: string)
    requires trusted != []
    requires caller != "" && forall i :: 0 <= i < |caller| ==> IsWhitespace(caller[i])
    ensures IsCallerTrusted(trusted, Some(caller))
  {
    AllBlankStrips(caller);
    IncludesEmpty(StripWhitespace(trusted[0]));
    assert Matches(caller, trusted[0]);
  }
}
