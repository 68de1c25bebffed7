/** String helpers that stand for the Python built-ins the gateway uses. */
module Text {

  /** The characters Python's `str.isspace` accepts, i.e. what `str.strip()` removes. */
  predicate IsSpace(c: char) {
    ('\t' <= c <= '\r') || ('\U{001C}' <= c <= ' ') || c == '\U{0085}' || c == '\U{00A0}'
    || c == '\U{1680}' || ('\U{2000}' <= c <= '\U{200A}') || c == '\U{2028}' || c == '\U{2029}'
    || c == '\U{202F}' || c == '\U{205F}' || c == '\U{3000}'
  }

  predicate AllSpace(s: string) {
    forall i :: 0 <= i < |s| ==> IsSpace(s[i])
  }

  /** Neither end of `s` is whitespace: what `strip()` leaves behind. */
  predicate Stripped(s: string) {
    s == [] || (!IsSpace(s[0]) && !IsSpace(s[|s| - 1]))
  }

  /** `s.lstrip()`: drops the leading whitespace and nothing else. */
  function TrimStart(s: string): (r: string)
    ensures |r| <= |s| && r == s[|s| - |r|..]
    ensures AllSpace(s[..|s| - |r|])
    ensures r == [] || !IsSpace(r[0])
  {
    if s != [] && IsSpace(s[0]) then TrimStart(s[1..]) else s
  }

  /** `s.rstrip()`: drops the trailing whitespace and nothing else. */
  function TrimEnd(s: string): (r: string)
    ensures |r| <= |s| && r == s[..|r|]
    ensures AllSpace(s[|r|..])
    ensures r == [] || !IsSpace(r[|r| - 1])
  {
    if s != [] && IsSpace(s[|s| - 1]) then
      var r := TrimEnd(s[..|s| - 1]);
      assert s[|r|..] == s[..|s| - 1][|r|..] + [s[|s| - 1]];
      r
    else s
  }

  /** `s.strip()`. */
  function Strip(s: string): (r: string)
    ensures Stripped(r)
    ensures |r| <= |s|
  {
    TrimEnd(TrimStart(s))
  }

  /** `s.startswith(prefix)`. */
  predicate StartsWith(s: string, prefix: string) {
    |prefix| <= |s| && s[..|prefix|] == prefix
  }

  /** `sub in s`: `sub` occurs somewhere in `s` (the empty string occurs everywhere). */
  predicate Contains(s: string, sub: string)
    decreases |s|
  {
    StartsWith(s, sub) || (s != [] && Contains(s[1..], sub))
  }

  /** The Markdown code fence "```" begins at index `i` of `s`. */
  predicate FenceAt(s: string, i: int) {
    0 <= i && i + 3 <= |s| && s[i] == '`' && s[i + 1] == '`' && s[i + 2] == '`'
  }

  predicate NoFence(s: string) {
    forall i :: 0 <= i < |s| ==> !FenceAt(s, i)
  }

  /** `s.split('```')[0]`: the text of `s` before its first fence, or all of `s`. */
  function UntilFence(s: string): (r: string)
    ensures |r| <= |s| && r == s[..|r|]
    ensures NoFence(r)
    ensures |r| == |s| || FenceAt(s, |r|)
  {
    if |s| < 3 then s
    else if FenceAt(s, 0) then []
    else
      var t := UntilFence(s[1..]);
      assert forall i :: 1 <= i <= |t| ==> (FenceAt([s[0]] + t, i) ==> FenceAt(t, i - 1));
      [s[0]] + t
  }

  /** `strip()` removes exactly the whitespace padding around a stripped text. */
  lemma {:induction false} StripPadded(lead: string, p: string, trail: string)
    requires AllSpace(lead) && AllSpace(trail) && Stripped(p)
    ensures Strip(lead + p + trail) == p
  {
    if p == [] {
      assert AllSpace(lead + p + trail);
      TrimStartPadded(lead + p + trail, []);
      assert lead + p + trail + [] == lead + p + trail;
    } else {
      assert lead + p + trail == lead + (p + trail);
      TrimStartPadded(lead, p + trail);
      TrimEndPadded(p, trail);
    }
  }

  lemma {:induction false} TrimStartPadded(lead: string, rest: string)
    requires AllSpace(lead) && (rest == [] || !IsSpace(rest[0]))
    ensures TrimStart(lead + rest) == rest
  {
    if lead != [] {
      assert (lead + rest)[1..] == lead[1..] + rest;
      TrimStartPadded(lead[1..], rest);
    }
  }

  lemma {:induction false} TrimEndPadded(rest: string, trail: string)
    requires AllSpace(trail) && (rest == [] || !IsSpace(rest[|rest| - 1]))
    ensures TrimEnd(rest + trail) == rest
  {
    if trail != [] {
      var s := rest + trail;
      assert s[..|s| - 1] == rest + trail[..|trail| - 1];
      TrimEndPadded(rest, trail[..|trail| - 1]);
    } else {
      assert rest + trail == rest;
    }
  }

  /** `strip()` is idempotent. */
  lemma StripIdempotent(s: string)
    ensures Strip(Strip(s)) == Strip(s)
  {
    StripPadded([], Strip(s), []);
    assert [] + Strip(s) + [] == Strip(s);
  }

  /** The text before the first fence of `x + "```" + tail` is `x` when `x` cannot begin a fence. */
  lemma {:induction false} UntilFenceStops(x: string, tail: string)
    requires NoFence(x) && (x == [] || x[|x| - 1] != '`')
    ensures UntilFence(x + "```" + tail) == x
  {
    var s := x + "```" + tail;
    if x == [] {
      assert s[..3] == "```";
    } else {
      assert s[1..] == x[1..] + "```" + tail;
      if |x| >= 3 {
        assert s[..3] == x[..3];
        assert !FenceAt(x, 0);
      } else if |x| == 2 {
        assert s[..3] == x + "`";
        assert s[1] == x[1];
      } else {
        assert s[..3] == x + "``";
      }
      forall i | 0 <= i < |x[1..]| ensures !FenceAt(x[1..], i) {
        if FenceAt(x[1..], i) {
          assert x[1..][i..i + 3] == x[i + 1..i + 4];
          assert FenceAt(x, i + 1);
        }
      }
      UntilFenceStops(x[1..], tail);
    }
  }
}
