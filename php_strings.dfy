/**
 * The PHP string built-ins the service relies on: the truthiness that `?:`
 * and `empty` use, `trim` with a one-character list, and `explode`/`implode`
 * on a one-character delimiter.
 */
module PhpStrings {

  /** PHP reads a string as false exactly when it is "" or "0". */
  predicate Truthy(s: string) {
    s != "" && s != "0"
  }

  /** Every character of `s` is `c`. */
  predicate AllOf(s: string, c: char) {
    forall i :: 0 <= i < |s| ==> s[i] == c
  }

  /** `ltrim` with one character: the suffix of `s` left after dropping every leading `c`. */
  function TrimLeft(s: string, c: char): (r: string)
    ensures |r| <= |s| && r == s[|s| - |r|..]
    ensures forall i :: 0 <= i < |s| - |r| ==> s[i] == c
    ensures r == [] || r[0] != c
    decreases |s|
  {
    if |s| > 0 && s[0] == c then TrimLeft(s[1..], c) else s
  }

  /** `rtrim` with one character: the prefix of `s` left after dropping every trailing `c`. */
  function TrimRight(s: string, c: char): (r: string)
    ensures |r| <= |s| && r == s[..|r|]
    ensures forall i :: |r| <= i < |s| ==> s[i] == c
    ensures r == [] || r[|r| - 1] != c
    decreases |s|
  {
    if |s| > 0 && s[|s| - 1] == c then TrimRight(s[..|s| - 1], c) else s
  }

  /** `trim` with one character: neither end of the result is `c`; it is empty exactly when `s` is all `c`. */
  function Trim(s: string, c: char): (r: string)
    ensures |r| <= |s|
    ensures r == [] || (r[0] != c && r[|r| - 1] != c)
    ensures r == [] <==> AllOf(s, c)
  {
    var left := TrimLeft(s, c);
    var r := TrimRight(left, c);
    assert left != [] ==> r != [] && r[0] == left[0];
    r
  }

  lemma {:induction false} TrimLeftOfPadded(pad: string, rest: string, c: char)
    requires AllOf(pad, c)
    requires rest == [] || rest[0] != c
    ensures TrimLeft(pad + rest, c) == rest
    decreases |pad|
  {
    if pad != [] {
      assert (pad + rest)[1..] == pad[1..] + rest;
      TrimLeftOfPadded(pad[1..], rest, c);
    }
  }

  lemma {:induction false} TrimRightOfPadded(rest: string, pad: string, c: char)
    requires AllOf(pad, c)
    requires rest == [] || rest[|rest| - 1] != c
    ensures TrimRight(rest + pad, c) == rest
    decreases |pad|
  {
    if pad != [] {
      var shorter := pad[..|pad| - 1];
      assert (rest + pad)[..|rest + pad| - 1] == rest + shorter;
      TrimRightOfPadded(rest, shorter, c);
    }
  }

  /** `trim` removes exactly the padding: whatever core is wrapped in runs of `c` comes back. */
  lemma TrimOfPadded(pre: string, core: string, post: string, c: char)
    requires AllOf(pre, c) && AllOf(post, c)
    requires core == [] || (core[0] != c && core[|core| - 1] != c)
    ensures Trim(pre + core + post, c) == core
  {
    if core == [] {
      assert pre + core + post == (pre + post) + [];
      TrimLeftOfPadded(pre + post, [], c);
    } else {
      assert pre + core + post == pre + (core + post);
      TrimLeftOfPadded(pre, core + post, c);
      TrimRightOfPadded(core, post, c);
    }
  }

  /** `explode` on one character: the pieces of `s` between occurrences of `d`; never empty. */
  function Explode(s: string, d: char): (parts: seq<string>)
    ensures |parts| >= 1
    ensures forall i :: 0 <= i < |parts| ==> d !in parts[i]
    decreases |s|
  {
    if s == [] then [[]]
    else
      var rest := Explode(s[1..], d);
      if s[0] == d then [[]] + rest
      else [[s[0]] + rest[0]] + rest[1..]
  }

  /** `implode` with one character: the pieces joined by the delimiter. */
  function Implode(parts: seq<string>, d: char): string
    requires |parts| >= 1
    decreases |parts|
  {
    if |parts| == 1 then parts[0] else parts[0] + [d] + Implode(parts[1..], d)
  }

  /** Joining the pieces back with the delimiter gives the original string. */
  lemma {:induction false} ImplodeExplode(s: string, d: char)
    ensures Implode(Explode(s, d), d) == s
    decreases |s|
  {
    if s != [] {
      var rest := Explode(s[1..], d);
      ImplodeExplode(s[1..], d);
      if s[0] == d {
        assert ([[]] + rest)[1..] == rest;
      } else {
        var parts := [[s[0]] + rest[0]] + rest[1..];
        assert parts[1..] == rest[1..];
        if |rest| > 1 {
          assert Implode(rest, d) == rest[0] + [d] + Implode(rest[1..], d);
        }
      }
    }
  }

  /** A string with no delimiter glued in front of `rest` extends `rest`'s first piece. */
  lemma {:induction false} ExplodeUndelimitedPrefix(a: string, rest: string, d: char)
    requires d !in a
    ensures Explode(a + rest, d) == [a + Explode(rest, d)[0]] + Explode(rest, d)[1..]
    decreases |a|
  {
    var e := Explode(rest, d);
    if a == [] {
      assert a + rest == rest && a + e[0] == e[0];
      assert e == [e[0]] + e[1..];
    } else {
      var s := a + rest;
      assert s[0] == a[0] && s[0] != d;
      assert s[1..] == a[1..] + rest;
      ExplodeUndelimitedPrefix(a[1..], rest, d);
      assert [a[0]] + (a[1..] + e[0]) == a + e[0];
    }
  }

  /** Splitting undoes joining, for pieces that do not contain the delimiter. */
  lemma {:induction false} ExplodeImplode(parts: seq<string>, d: char)
    requires |parts| >= 1
    requires forall i :: 0 <= i < |parts| ==> d !in parts[i]
    ensures Explode(Implode(parts, d), d) == parts
    decreases |parts|
  {
    if |parts| == 1 {
      ExplodeUndelimitedPrefix(parts[0], [], d);
      assert parts[0] + [] == parts[0];
    } else {
      var tail := Implode(parts[1..], d);
      ExplodeImplode(parts[1..], d);
      assert Implode(parts, d) == parts[0] + ([d] + tail);
      ExplodeUndelimitedPrefix(parts[0], [d] + tail, d);
      assert ([d] + tail)[1..] == tail;
      var x := Explode([d] + tail, d);
      assert x == [[]] + parts[1..];
      assert x[0] == [] && x[1..] == parts[1..];
      assert parts[0] + [] == parts[0];
      assert parts == [parts[0]] + parts[1..];
    }
  }

  lemma {:induction false} ExplodeHead(s: string, d: char)
    ensures var h := Explode(s, d)[0];
      |h| <= |s| && h == s[..|h|] && (|h| == |s| || s[|h|] == d)
    decreases |s|
  {
    if s != [] {
      ExplodeHead(s[1..], d);
    }
  }

  /**
   * Element 0 of `explode` on '/': the part of `s` before its first '/', or all of `s`
   * when it has none. Element 0 always exists.
   */
  function FirstSegment(s: string): (v: string)
    ensures |v| <= |s| && v == s[..|v|]
    ensures '/' !in v
    ensures |v| == |s| || s[|v|] == '/'
  {
    ExplodeHead(s, '/');
    Explode(s, '/')[0]
  }

  /** The first segment of `a/b` is `a` whenever `a` holds no '/'. */
  lemma FirstSegmentOfJoined(a: string, b: string)
    requires '/' !in a
    ensures FirstSegment(a + "/" + b) == a
  {
    assert a + "/" + b == a + ("/" + b);
    ExplodeUndelimitedPrefix(a, "/" + b, '/');
    assert ("/" + b)[1..] == b;
    assert Explode("/" + b, '/')[0] == [];
    assert a + [] == a;
  }
}
