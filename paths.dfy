/** Own models of Go's lexical path routines filepath.Clean, filepath.Join and
    filepath.Split for '/'-separated paths, following their documented rules:
    runs of '/' collapse, "." elements vanish, ".." removes the element before
    it, a ".." at the start of a rooted path is dropped, and an empty result is
    ".". */
module Paths {
  import Text

  /** The longest prefix of `s` without '/'. */
  function Segment(s: string): (w: string)
    ensures |w| <= |s| && w == s[..|w|] && '/' !in w
    ensures |w| < |s| ==> s[|w|] == '/'
  {
    if s == [] || s[0] == '/' then [] else [s[0]] + Segment(s[1..])
  }

  /** The non-empty names between the slashes of `s`, in order. */
  function Parts(s: string): (r: seq<string>)
    ensures forall i :: 0 <= i < |r| ==> r[i] != [] && '/' !in r[i]
    decreases |s|
  {
    if s == [] then []
    else if s[0] == '/' then Parts(s[1..])
    else
      var w := Segment(s);
      [w] + Parts(s[|w|..])
  }

  /** A name Clean may keep as it is. */
  predicate IsName(e: string) {
    e != [] && '/' !in e && e != "."
  }

  predicate AllNames(r: seq<string>) {
    forall i :: 0 <= i < |r| ==> IsName(r[i])
  }

  function DropDots(r: seq<string>): (d: seq<string>)
    requires forall i :: 0 <= i < |r| ==> r[i] != [] && '/' !in r[i]
    ensures AllNames(d)
  {
    if r == [] then [] else (if r[0] == "." then [] else [r[0]]) + DropDots(r[1..])
  }

  /** The path elements Clean works on: the names of `p` without ".". */
  function Elements(p: string): (r: seq<string>)
    ensures AllNames(r)
  {
    DropDots(Parts(p))
  }

  function Last(r: seq<string>): string
    requires r != []
  {
    r[|r| - 1]
  }

  /** One step of Clean on the elements kept so far: ".." removes the last
      kept name; at the root it is dropped, and in a relative path with
      nothing left to remove it is kept. */
  function Push(kept: seq<string>, e: string, rooted: bool): seq<string> {
    if e == ".." then
      if kept != [] && Last(kept) != ".." then kept[..|kept| - 1]
      else if rooted then kept
      else kept + [".."]
    else kept + [e]
  }

  function Reduce(es: seq<string>, rooted: bool): seq<string> {
    if es == [] then [] else Push(Reduce(es[..|es| - 1], rooted), Last(es), rooted)
  }

  /** Elements that Clean leaves alone: no ".." in a rooted path, and in a
      relative one the ".." elements only at the front. */
  predicate Reduced(r: seq<string>, rooted: bool) {
    && AllNames(r)
    && (rooted ==> forall i :: 0 <= i < |r| ==> r[i] != "..")
    && (!rooted ==> forall i, j :: 0 <= i < j < |r| && r[j] == ".." ==> r[i] == "..")
  }

  function Render(rooted: bool, r: seq<string>): string {
    if rooted then "/" + Text.Join(r, "/")
    else if r == [] then "."
    else Text.Join(r, "/")
  }

  predicate Rooted(p: string) {
    p != [] && p[0] == '/'
  }

  /** filepath.Clean. */
  function Clean(p: string): string {
    if p == [] then "." else Render(Rooted(p), Reduce(Elements(p), Rooted(p)))
  }

  /** filepath.Join of two elements: the elements from the first non-empty
      one on, joined by '/' and cleaned; "" when both are empty. */
  function JoinPath(a: string, b: string): string {
    if a != [] then Clean(a + "/" + b)
    else if b != [] then Clean(b)
    else ""
  }

  /** The index of the last '/' in `s`, or -1. */
  function LastSlash(s: string): (k: int)
    ensures -1 <= k < |s|
    ensures k >= 0 ==> s[k] == '/'
    ensures forall j :: k < j < |s| ==> s[j] != '/'
  {
    if s == [] then -1
    else if s[|s| - 1] == '/' then |s| - 1
    else LastSlash(s[..|s| - 1])
  }

  predicate NoSlash(s: string) {
    forall j :: 0 <= j < |s| ==> s[j] != '/'
  }

  /** filepath.Split: the directory part up to and including the last '/',
      and the file name after it. */
  function Split(p: string): (parts: (string, string))
    ensures parts.0 + parts.1 == p
    ensures NoSlash(parts.1)
    ensures parts.0 == [] || parts.0[|parts.0| - 1] == '/'
    ensures parts.0 == [] <==> NoSlash(p)
  {
    var k := LastSlash(p);
    (p[..k + 1], p[k + 1..])
  }

  // ----- Clean keeps what it returns -----

  lemma PushReduced(kept: seq<string>, e: string, rooted: bool)
    requires Reduced(kept, rooted) && IsName(e)
    ensures Reduced(Push(kept, e, rooted), rooted)
  {
    var r := Push(kept, e, rooted);
    if e == ".." && !(kept != [] && Last(kept) != "..") && !rooted {
      forall i, j | 0 <= i < j < |r| && r[j] == ".." ensures r[i] == ".." {
        if j < |kept| { assert r[i] == kept[i] && r[j] == kept[j]; }
        else if kept != [] { assert Last(kept) == ".."; assert r[i] == kept[i]; }
      }
    }
  }

  lemma {:induction false} ReduceReduced(es: seq<string>, rooted: bool)
    requires AllNames(es)
    ensures Reduced(Reduce(es, rooted), rooted)
  {
    if es != [] {
      ReduceReduced(es[..|es| - 1], rooted);
      PushReduced(Reduce(es[..|es| - 1], rooted), Last(es), rooted);
    }
  }

  lemma {:induction false} ReduceOfReduced(r: seq<string>, rooted: bool)
    requires Reduced(r, rooted)
    ensures Reduce(r, rooted) == r
  {
    if r != [] {
      var init := r[..|r| - 1];
      assert Reduced(init, rooted);
      ReduceOfReduced(init, rooted);
      assert init + [Last(r)] == r;
    }
  }

  lemma {:induction false} SegmentOfJoin(w: string, rest: string)
    requires '/' !in w
    requires rest == [] || rest[0] == '/'
    ensures Segment(w + rest) == w
    decreases |w|
  {
    if w == [] {
      assert w + rest == rest;
    } else {
      assert (w + rest)[0] == w[0] && w[0] in w;
      assert (w + rest)[1..] == w[1..] + rest;
      assert '/' !in w[1..] by {
        forall j | 0 <= j < |w| - 1 ensures w[1..][j] != '/' { assert w[1..][j] == w[j + 1] && w[j + 1] in w; }
      }
      SegmentOfJoin(w[1..], rest);
      assert [w[0]] + w[1..] == w;
    }
  }

  lemma {:induction false} PartsOfJoin(r: seq<string>)
    requires forall i :: 0 <= i < |r| ==> r[i] != [] && '/' !in r[i]
    ensures Parts(Text.Join(r, "/")) == r
  {
    if |r| == 1 {
      SegmentOfJoin(r[0], []);
      assert r[0] + [] == r[0];
      assert r[0][|r[0]|..] == [];
    } else if |r| > 1 {
      var rest := "/" + Text.Join(r[1..], "/");
      assert Text.Join(r, "/") == r[0] + rest;
      SegmentOfJoin(r[0], rest);
      assert (r[0] + rest)[|r[0]|..] == rest;
      assert rest[1..] == Text.Join(r[1..], "/");
      PartsOfJoin(r[1..]);
      assert [r[0]] + r[1..] == r;
    }
  }

  lemma {:induction false} DropDotsOfNames(r: seq<string>)
    requires AllNames(r)
    ensures DropDots(r) == r
  {
    if r != [] {
      DropDotsOfNames(r[1..]);
      assert [r[0]] + r[1..] == r;
    }
  }

  lemma ElementsOfRender(rooted: bool, r: seq<string>)
    requires AllNames(r)
    ensures Elements(Render(rooted, r)) == r
  {
    PartsOfJoin(r);
    DropDotsOfNames(r);
    if rooted {
      var q := "/" + Text.Join(r, "/");
      assert q[1..] == Text.Join(r, "/");
    } else if r == [] {
      assert Segment(".") == "." by { assert "."[1..] == ""; }
      assert "."[1..] == "";
      assert Parts(".") == ["."];
    }
  }

  lemma RenderRooted(rooted: bool, r: seq<string>)
    requires AllNames(r)
    ensures Render(rooted, r) != []
    ensures Rooted(Render(rooted, r)) == rooted
  {
    if !rooted && r != [] {
      if |r| > 1 {
        assert Text.Join(r, "/") == r[0] + "/" + Text.Join(r[1..], "/");
      }
      assert Text.Join(r, "/")[0] == r[0][0];
      assert r[0][0] != '/' by { assert r[0][0] in r[0]; }
    }
  }

  /** Clean is idempotent: cleaning a clean path changes nothing. */
  lemma CleanIdempotent(p: string)
    ensures Clean(Clean(p)) == Clean(p)
  {
    var rooted := Rooted(p);
    var r := Reduce(Elements(p), rooted);
    ReduceReduced(Elements(p), rooted);
    if p != [] {
      RenderRooted(rooted, r);
      ElementsOfRender(rooted, r);
      ReduceOfReduced(r, rooted);
    } else {
      ElementsOfRender(false, []);
    }
  }

  /** A rooted path cleans to a rooted path whose names include neither "."
      nor "..". */
  lemma CleanRooted(p: string)
    requires Rooted(p)
    ensures Rooted(Clean(p))
    ensures forall e :: e in Parts(Clean(p)) ==> e != "." && e != ".."
  {
    var r := Reduce(Elements(p), true);
    ReduceReduced(Elements(p), true);
    PartsOfJoin(r);
    var q := "/" + Text.Join(r, "/");
    assert q[1..] == Text.Join(r, "/");
  }

  /** Every path that starts at the root and is its own Clean. */
  predicate AbsClean(p: string) {
    Rooted(p) && Clean(p) == p
  }

  lemma CleanRootedIsAbsClean(p: string)
    requires Rooted(p)
    ensures AbsClean(Clean(p))
  {
    CleanRooted(p);
    CleanIdempotent(p);
  }

  /** Joining onto a rooted directory stays rooted and clean. */
  lemma JoinPathRooted(a: string, b: string)
    ensures Rooted(a) ==> AbsClean(JoinPath(a, b))
  {
    if Rooted(a) {
      CleanRootedIsAbsClean(a + "/" + b);
    }
  }
}
