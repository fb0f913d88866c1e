/** POSIX paths as pathlib's PurePosixPath parses and joins them: the part of pathlib that
    records.py relies on to name and place a downloaded file. */
module Paths {

  /** A parsed path: whether it starts at the root, and its parts in order. */
  datatype Path = Path(absolute: bool, parts: seq<string>)

  /** A part pathlib keeps: not empty, not ".", and free of the separator. */
  predicate IsPart(s: string) {
    s != "" && s != "." && '/' !in s
  }

  ghost predicate Normal(p: Path) {
    forall i :: 0 <= i < |p.parts| ==> IsPart(p.parts[i])
  }

  /** s.split('/'): the pieces between separators, empty ones included. */
  function Split(s: string): (r: seq<string>)
    ensures |r| > 0
    ensures forall i :: 0 <= i < |r| ==> '/' !in r[i]
  {
    if s == [] then [""]
    else
      var rest := Split(s[1..]);
      if s[0] == '/' then [""] + rest
      else [[s[0]] + rest[0]] + rest[1..]
  }

  /** '/'.join(segs). */
  function Join(segs: seq<string>): string {
    if segs == [] then ""
    else if |segs| == 1 then segs[0]
    else segs[0] + "/" + Join(segs[1..])
  }

  /** The pieces pathlib keeps as parts: empty pieces (from repeated, leading or trailing
      separators) and "." pieces are dropped. */
  function Parts(segs: seq<string>): (r: seq<string>)
    requires forall i :: 0 <= i < |segs| ==> '/' !in segs[i]
    ensures forall i :: 0 <= i < |r| ==> IsPart(r[i])
    ensures |r| <= |segs|
  {
    if segs == [] then []
    else
      var init := Parts(segs[..|segs| - 1]);
      var last := segs[|segs| - 1];
      if last == "" || last == "." then init else init + [last]
  }

  /** Keeping parts distributes over concatenating piece sequences. */
  lemma {:induction false} PartsAppend(a: seq<string>, b: seq<string>)
    requires forall i :: 0 <= i < |a| ==> '/' !in a[i]
    requires forall i :: 0 <= i < |b| ==> '/' !in b[i]
    ensures Parts(a + b) == Parts(a) + Parts(b)
  {
    if b == [] {
      assert a + b == a;
    } else {
      var n := |b| - 1;
      assert (a + b)[..|a + b| - 1] == a + b[..n];
      PartsAppend(a, b[..n]);
    }
  }

  /** A single piece is kept exactly when it is a proper part. */
  lemma PartsOfOne(x: string)
    requires '/' !in x
    ensures Parts([x]) == if IsPart(x) then [x] else []
  {
    assert [x][..0] == [];
  }

  /** segs[j] is a proper part and no later piece is one. */
  ghost predicate LastProper(segs: seq<string>, j: int) {
    && 0 <= j < |segs|
    && IsPart(segs[j])
    && forall k :: j < k < |segs| ==> !IsPart(segs[k])
  }

  /** There are no parts exactly when no piece is a proper part; otherwise the last part is
      the last proper piece. */
  lemma {:induction false} LastPart(segs: seq<string>)
    requires forall i :: 0 <= i < |segs| ==> '/' !in segs[i]
    ensures Parts(segs) == [] <==> forall i :: 0 <= i < |segs| ==> !IsPart(segs[i])
    ensures Parts(segs) != [] ==>
      exists j :: LastProper(segs, j) && Parts(segs)[|Parts(segs)| - 1] == segs[j]
  {
    if segs != [] {
      var n := |segs| - 1;
      var init := segs[..n];
      assert forall i :: 0 <= i < n ==> init[i] == segs[i];
      assert Parts(segs) == if IsPart(segs[n]) then Parts(init) + [segs[n]] else Parts(init);
      LastPart(init);
      if IsPart(segs[n]) {
        assert LastProper(segs, n);
      } else if Parts(init) != [] {
        var j :| LastProper(init, j) && Parts(init)[|Parts(init)| - 1] == init[j];
        assert LastProper(segs, j);
      }
    }
  }

  /** Path(s). */
  function Parse(s: string): (p: Path)
    ensures Normal(p)
    ensures p.absolute <==> |s| > 0 && s[0] == '/'
    ensures Name(p) == "" || IsPart(Name(p))
  {
    Path(|s| > 0 && s[0] == '/', Parts(Split(s)))
  }

  /** Path.name: the last part, or "" when there is none. */
  function Name(p: Path): string {
    if p.parts == [] then "" else p.parts[|p.parts| - 1]
  }

  /** Path.parent of a path that has at least one part. */
  function Parent(p: Path): Path
    requires p.parts != []
  {
    Path(p.absolute, p.parts[..|p.parts| - 1])
  }

  /** p.joinpath(s): an absolute s replaces p, a relative one is appended part by part. */
  function JoinPath(p: Path, s: string): (r: Path)
    ensures s == "" ==> r == p
    ensures IsPart(s) ==> r.parts != [] && Parent(r) == p && Name(r) == s
    ensures IsPart(s) ==> r == Path(p.absolute, p.parts + [s])
  {
    var q := Parse(s);
    assert IsPart(s) ==> Split(s) == [s] by {
      if IsPart(s) {
        SplitWithoutSeparator(s);
      }
    }
    if q.absolute then q else Path(p.absolute, p.parts + q.parts)
  }

  /** Splitting and joining again gives back the string. */
  lemma {:induction false} SplitJoin(s: string)
    ensures Join(Split(s)) == s
  {
    if s != [] {
      var rest := Split(s[1..]);
      SplitJoin(s[1..]);
      if s[0] == '/' {
        assert Split(s) == [""] + rest;
        assert Join(Split(s)) == "" + "/" + Join(rest);
      } else if |rest| == 1 {
        assert Split(s) == [[s[0]] + rest[0]];
        assert Join(rest) == rest[0];
      } else {
        var segs := [[s[0]] + rest[0]] + rest[1..];
        assert segs[1..] == rest[1..];
        assert Join(segs) == [s[0]] + rest[0] + "/" + Join(rest[1..]);
        assert Join(rest) == rest[0] + "/" + Join(rest[1..]);
      }
    }
  }

  /** Splitting at an inserted separator splits each side on its own. */
  lemma {:induction false} SplitAround(a: string, b: string)
    ensures Split(a + "/" + b) == Split(a) + Split(b)
  {
    if a == [] {
      assert a + "/" + b == "/" + b;
      assert ("/" + b)[1..] == b;
    } else {
      var s := a + "/" + b;
      assert s[0] == a[0];
      assert s[1..] == a[1..] + "/" + b;
      SplitAround(a[1..], b);
    }
  }

  /** A string without a separator is a single piece. */
  lemma {:induction false} SplitWithoutSeparator(s: string)
    requires '/' !in s
    ensures Split(s) == [s]
  {
    if s != [] {
      assert '/' !in s[1..] by {
        forall i | 0 <= i < |s[1..]| ensures s[1..][i] != '/' {
          assert s[1..][i] == s[i + 1];
        }
      }
      SplitWithoutSeparator(s[1..]);
      assert [s[0]] + s[1..] == s;
    }
  }

  /** The name of a path written as some prefix, a separator and a proper part is that part. */
  lemma NameOfLastPart(prefix: string, n: string)
    requires IsPart(n)
    ensures Name(Parse(prefix + "/" + n)) == n
  {
    SplitAround(prefix, n);
    SplitWithoutSeparator(n);
    var segs := Split(prefix) + [n];
    assert segs[..|segs| - 1] == Split(prefix);
  }

  /** Path(s).name is "" exactly when no piece of s.split('/') is a proper part, and otherwise
      the last piece that is one. */
  lemma NameOfParse(s: string)
    ensures Name(Parse(s)) == "" <==> forall i :: 0 <= i < |Split(s)| ==> !IsPart(Split(s)[i])
    ensures Name(Parse(s)) != "" ==>
      exists j :: LastProper(Split(s), j) && Name(Parse(s)) == Split(s)[j]
  {
    var segs := Split(s);
    var ps := Parts(segs);
    LastPart(segs);
    if ps != [] {
      assert IsPart(ps[|ps| - 1]);
      var j :| LastProper(segs, j) && ps[|ps| - 1] == segs[j];
      assert IsPart(Split(s)[j]);
      assert Name(Parse(s)) == segs[j];
    }
  }
}
