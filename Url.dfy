/** The two string operations `_compose_url` is built from: Python's `s.strip("/")`, which
    removes every separator at either end of `s` however many there are, and `"/".join`. */
module Url {

  const Slash: char := '/'

  /** `n` separators in a row. */
  function Slashes(n: nat): (s: string)
    ensures |s| == n
  {
    seq(n, _ => Slash)
  }

  /** Neither end of `s` is a separator. */
  predicate NoBoundarySlash(s: string)
  {
    s == [] || (s[0] != Slash && s[|s| - 1] != Slash)
  }

  /** `s.lstrip("/")`: what is left of `s` once every leading separator is gone; `s` is
      those separators followed by the result. */
  function StripLeading(s: string): (r: string)
    ensures |r| <= |s|
    ensures s == Slashes(|s| - |r|) + r
    ensures r == [] || r[0] != Slash
  {
    if s != [] && s[0] == Slash then
      var r := StripLeading(s[1..]);
      assert s == [Slash] + s[1..];
      SlashesCons(|s| - 1 - |r|);
      r
    else
      assert s == Slashes(0) + s;
      s
  }

  /** `s.rstrip("/")`: what is left of `s` once every trailing separator is gone; `s` is
      the result followed by those separators. */
  function StripTrailing(s: string): (r: string)
    ensures |r| <= |s|
    ensures s == r + Slashes(|s| - |r|)
    ensures r == [] || r[|r| - 1] != Slash
  {
    if s != [] && s[|s| - 1] == Slash then
      var r := StripTrailing(s[..|s| - 1]);
      assert s == s[..|s| - 1] + [Slash];
      SlashesSnoc(|s| - 1 - |r|);
      r
    else
      assert s == s + Slashes(0);
      s
  }

  /** `s.strip("/")`. */
  function Strip(s: string): (r: string)
    ensures |r| <= |s|
    ensures NoBoundarySlash(r)
  {
    StripTrailing(StripLeading(s))
  }

  /** How many separators `strip` takes off the front of `s`, and off the back. */
  function LeadingSlashCount(s: string): nat
  {
    |s| - |StripLeading(s)|
  }

  function TrailingSlashCount(s: string): nat
  {
    |StripLeading(s)| - |Strip(s)|
  }

  /** `sep.join(parts)`. */
  function Join(sep: string, parts: seq<string>): string
  {
    if |parts| == 0 then ""
    else if |parts| == 1 then parts[0]
    else parts[0] + sep + Join(sep, parts[1..])
  }

  lemma JoinPair(sep: string, a: string, b: string)
    ensures Join(sep, [a, b]) == a + sep + b
  {
    assert [a, b][1..] == [b];
  }

  lemma SlashesCons(n: nat)
    ensures [Slash] + Slashes(n) == Slashes(n + 1)
  {
  }

  lemma SlashesSnoc(n: nat)
    ensures Slashes(n) + [Slash] == Slashes(n + 1)
  {
  }

  lemma SlashesAdd(m: nat, n: nat)
    ensures Slashes(m) + Slashes(n) == Slashes(m + n)
  {
  }

  /** Stripping the front of a padded string removes exactly the padding. */
  lemma {:induction false} StripLeadingOfPadded(a: nat, u: string)
    requires u == [] || u[0] != Slash
    ensures StripLeading(Slashes(a) + u) == u
  {
    var x := Slashes(a) + u;
    if a == 0 {
      assert x == u;
    } else {
      assert x[0] == Slash;
      assert x[1..] == Slashes(a - 1) + u;
      StripLeadingOfPadded(a - 1, u);
    }
  }

  /** Stripping the back of a padded string removes exactly the padding. */
  lemma {:induction false} StripTrailingOfPadded(u: string, b: nat)
    requires u == [] || u[|u| - 1] != Slash
    ensures StripTrailing(u + Slashes(b)) == u
  {
    var x := u + Slashes(b);
    if b == 0 {
      assert x == u;
    } else {
      assert x[|x| - 1] == Slash;
      assert x[..|x| - 1] == u + Slashes(b - 1);
      StripTrailingOfPadded(u, b - 1);
    }
  }

  /** Reference characterisation of `strip`, uniqueness half: a core with no separator at
      either end, padded with any number of separators on each side, strips back to itself. */
  lemma StripOfPadded(a: nat, t: string, b: nat)
    requires NoBoundarySlash(t)
    ensures Strip(Slashes(a) + t + Slashes(b)) == t
  {
    if t == [] {
      SlashesAdd(a, b);
      assert Slashes(a) + t + Slashes(b) == Slashes(a + b) + [];
      StripLeadingOfPadded(a + b, []);
    } else {
      assert Slashes(a) + t + Slashes(b) == Slashes(a) + (t + Slashes(b));
      StripLeadingOfPadded(a, t + Slashes(b));
      StripTrailingOfPadded(t, b);
    }
  }

  /** Reference characterisation of `strip`, existence half: `s` is some separators, then
      `Strip(s)`, then some separators. So `strip` only removes separators, only at the ends,
      and keeps the interior of `s` (a `//` inside a URL, say) untouched. */
  lemma StripDecomposes(s: string)
    ensures s == Slashes(LeadingSlashCount(s)) + Strip(s) + Slashes(TrailingSlashCount(s))
  {
    var l := StripLeading(s);
    var t := StripTrailing(l);
    var p, q := Slashes(|s| - |l|), Slashes(|l| - |t|);
    assert s == p + (t + q) by {
      assert s == p + l && l == t + q;
    }
    assert p + (t + q) == p + t + q;
  }

  lemma Regroup(a: nat, a': nat, t: string, b': nat, b: nat)
    ensures Slashes(a) + (Slashes(a') + t + Slashes(b')) + Slashes(b)
         == Slashes(a + a') + t + Slashes(b' + b)
  {
    SlashesAdd(a, a');
    SlashesAdd(b', b);
  }

  /** Padding a string that is already a padded core only adds to the padding. */
  lemma StripOfRepadded(a: nat, s: string, b: nat, a': nat, t: string, b': nat)
    requires NoBoundarySlash(t) && s == Slashes(a') + t + Slashes(b')
    ensures Strip(Slashes(a) + s + Slashes(b)) == t
  {
    var x := Slashes(a + a') + t + Slashes(b' + b);
    assert Slashes(a) + s + Slashes(b) == x by {
      Regroup(a, a', t, b', b);
    }
    StripOfPadded(a + a', t, b' + b);
  }

  /** Extra separators at either end of the input never change what `strip` returns. */
  lemma StripIgnoresPadding(a: nat, s: string, b: nat)
    ensures Strip(Slashes(a) + s + Slashes(b)) == Strip(s)
  {
    StripDecomposes(s);
    StripOfRepadded(a, s, b, LeadingSlashCount(s), Strip(s), TrailingSlashCount(s));
  }

  /** `strip` is idempotent. */
  lemma StripIdempotent(s: string)
    ensures Strip(Strip(s)) == Strip(s)
  {
    assert Slashes(0) + Strip(s) + Slashes(0) == Strip(s);
    StripOfPadded(0, Strip(s), 0);
  }
}
