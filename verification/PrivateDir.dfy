// privatedir/privatedir.go: the path check, on systems whose only separator is '/' and which have no volumes.
module PrivateDir {
  import opened Basics

  // One more character in front of some segments.
  function Prepend(c: char, segs: seq<string>): seq<string>
    requires |segs| >= 1
  {
    if c == '/' then [""] + segs else [[c] + segs[0]] + segs[1..]
  }

  // The segments between separators; there is always at least one.
  function Split(path: string): (segs: seq<string>)
    ensures |segs| >= 1
    ensures forall i :: 0 <= i < |segs| ==> '/' !in segs[i]
  {
    if |path| == 0 then [""] else Prepend(path[0], Split(path[1..]))
  }

  function Join(segs: seq<string>): string {
    if |segs| == 0 then "" else if |segs| == 1 then segs[0] else segs[0] + "/" + Join(segs[1..])
  }

  lemma {:induction false} SplitPlain(s: string)
    requires '/' !in s
    ensures Split(s) == [s]
    decreases |s|
  {
    if |s| > 0 {
      SplitPlain(s[1..]);
      assert [s[0]] + s[1..] == s;
    }
  }

  lemma PrependConcat(c: char, a: seq<string>, b: seq<string>)
    requires |a| >= 1
    ensures Prepend(c, a + b) == Prepend(c, a) + b
  {
    assert (a + b)[1..] == a[1..] + b;
  }

  lemma {:induction false} SplitConcat(a: string, b: string)
    ensures Split(a + "/" + b) == Split(a) + Split(b)
    decreases |a|
  {
    var all := a + "/" + b;
    if |a| == 0 {
      assert all[1..] == b;
    } else {
      hide Prepend;
      assert all[1..] == a[1..] + "/" + b && all[0] == a[0];
      SplitConcat(a[1..], b);
      PrependConcat(a[0], Split(a[1..]), Split(b));
    }
  }

  // Splitting and joining undo each other.
  lemma {:induction false} JoinSplit(path: string)
    ensures Join(Split(path)) == path
    decreases |path|
  {
    if |path| > 0 {
      var rest := Split(path[1..]);
      JoinSplit(path[1..]);
      assert path == [path[0]] + path[1..];
      if path[0] == '/' {
        assert ([""] + rest)[1..] == rest;
      } else if |rest| > 1 {
        assert Split(path)[1..] == rest[1..];
      }
    }
  }

  lemma {:induction false} SplitJoin(segs: seq<string>)
    requires |segs| >= 1 && forall i :: 0 <= i < |segs| ==> '/' !in segs[i]
    ensures Split(Join(segs)) == segs
    decreases |segs|
  {
    if |segs| == 1 {
      SplitPlain(segs[0]);
    } else {
      SplitJoin(segs[1..]);
      SplitPlain(segs[0]);
      SplitConcat(segs[0], Join(segs[1..]));
      assert [segs[0]] + segs[1..] == segs;
    }
  }

  /* ---------- filepath.Clean, segment by segment ---------- */

  // One segment: empty and "." vanish, ".." takes the one before it away, where there is one to take.
  function CleanSegment(out: seq<string>, seg: string, rooted: bool): seq<string> {
    if seg == "" || seg == "." then out
    else if seg != ".." then out + [seg]
    else if |out| > 0 && Last(out) != ".." then DropLast(out)
    else if rooted then out
    else out + [seg]
  }

  function CleanSegments(segs: seq<string>, rooted: bool): seq<string> {
    if |segs| == 0 then [] else CleanSegment(CleanSegments(DropLast(segs), rooted), Last(segs), rooted)
  }

  predicate Rooted(path: string) {
    |path| > 0 && path[0] == '/'
  }

  function Clean(path: string): string {
    var out := CleanSegments(Split(path), Rooted(path));
    if Rooted(path) then "/" + Join(out) else if |out| == 0 then "." else Join(out)
  }

  // Some segment is "." or "..".
  predicate HasDots(path: string) {
    Dotted(Split(path))
  }

  predicate Dotted(segs: seq<string>) {
    "." in segs || ".." in segs
  }

  function Trim(path: string): string {
    if |path| > 1 && Last(path) == '/' then Trim(DropLast(path)) else path
  }

  // What is left of a path when its root is taken off.
  function Body(path: string): string {
    if Rooted(path) then path[1..] else path
  }

  // No empty segment, but for the root.
  predicate NoEmptySegment(path: string) {
    path == "/" || "" !in Split(Body(path))
  }

  // The paths normalize accepts.
  predicate Acceptable(path: string) {
    !HasDots(path) && NoEmptySegment(Trim(path))
  }

  /* ---------- Clean on paths without dot segments ---------- */

  function NonEmpty(segs: seq<string>): seq<string> {
    if |segs| == 0 then []
    else NonEmpty(DropLast(segs)) + if Last(segs) == "" then [] else [Last(segs)]
  }

  lemma {:induction false} CleanKeepsPlain(segs: seq<string>, rooted: bool)
    requires !Dotted(segs)
    ensures CleanSegments(segs, rooted) == NonEmpty(segs)
  {
    if |segs| > 0 {
      CleanKeepsPlain(DropLast(segs), rooted);
      assert Last(segs) in segs;
    }
  }

  lemma {:induction false} NonEmptyProperties(segs: seq<string>)
    ensures "" !in NonEmpty(segs)
    ensures forall seg :: seg in NonEmpty(segs) ==> seg in segs
    ensures "" !in segs ==> NonEmpty(segs) == segs
  {
    if |segs| > 0 {
      NonEmptyProperties(DropLast(segs));
      assert DropLast(segs) + [Last(segs)] == segs;
    }
  }

  lemma {:induction false} NonEmptyConcat(a: seq<string>, b: seq<string>)
    ensures NonEmpty(a + b) == NonEmpty(a) + NonEmpty(b)
    decreases |b|
  {
    if |b| == 0 {
      assert a + b == a;
    } else {
      assert DropLast(a + b) == a + DropLast(b);
      NonEmptyConcat(a, DropLast(b));
    }
  }

  lemma BodySegments(path: string)
    ensures NonEmpty(Split(path)) == NonEmpty(Split(Body(path)))
  {
    if Rooted(path) {
      NonEmptyConcat([""], Split(path[1..]));
      assert NonEmpty([""]) == [];
    }
  }

  lemma CleanPlain(path: string)
    requires !HasDots(path)
    ensures var out := NonEmpty(Split(Body(path)));
            Clean(path) == if Rooted(path) then "/" + Join(out) else if |out| == 0 then "." else Join(out)
  {
    CleanKeepsPlain(Split(path), Rooted(path));
    BodySegments(path);
  }

  // A non-empty path without dot segments is clean exactly when it has no empty segment besides its root.
  lemma CleanFixpoint(path: string)
    requires path != "" && !HasDots(path)
    ensures Clean(path) == path <==> NoEmptySegment(path)
  {
    hide Clean, Split, Join;
    var body := Body(path);
    var out := NonEmpty(Split(body));
    CleanPlain(path);
    if path == "/" {
      EmptyBody();
    } else if Clean(path) == path {
      FixpointSegments(path);
      NonEmptyProperties(Split(body));
    } else if NoEmptySegment(path) {
      NonEmptyProperties(Split(body));
      JoinSplit(body);
    }
  }

  lemma EmptyBody()
    ensures NonEmpty(Split("")) == [] && Join([]) == ""
  {
    assert DropLast([""]) == [];
  }

  // A clean path's non-empty segments are all its segments.
  lemma FixpointSegments(path: string)
    requires path != "" && path != "/" && !HasDots(path) && Clean(path) == path
    ensures NonEmpty(Split(Body(path))) == Split(Body(path))
  {
    hide Clean, Split, Join;
    var segs := Split(Body(path));
    var out := NonEmpty(segs);
    CleanPlain(path);
    NonEmptyProperties(segs);
    if |out| > 0 {
      assert Join(out) == Body(path);
      assert forall i :: 0 <= i < |out| ==> out[i] in segs;
      SplitJoin(out);
    } else {
      SplitPlain(".");
      EmptyBody();
    }
  }

  lemma DropSeparator(path: string)
    requires |path| > 1 && Last(path) == '/'
    ensures HasDots(path) <==> HasDots(DropLast(path))
    ensures !HasDots(path) ==> Clean(path) == Clean(DropLast(path))
  {
    var before := DropLast(path);
    var segs := Split(before);
    assert path == before + "/" + "";
    SplitConcat(before, "");
    assert Split(path) == segs + [""];
    NonEmptyConcat(segs, [""]);
    assert NonEmpty([""]) == [];
    if !HasDots(path) {
      CleanKeepsPlain(Split(path), Rooted(path));
      CleanKeepsPlain(segs, Rooted(before));
    }
  }

  lemma {:induction false} TrimProperties(path: string)
    requires path != ""
    ensures Trim(path) != "" && (|Trim(path)| > 1 ==> Last(Trim(path)) != '/') && Trim(Trim(path)) == Trim(path)
    ensures HasDots(path) <==> HasDots(Trim(path))
    ensures !HasDots(path) ==> Clean(Trim(path)) == Clean(path)
    decreases |path|
  {
    if |path| > 1 && Last(path) == '/' {
      DropSeparator(path);
      TrimProperties(DropLast(path));
    }
  }

  /* ---------- normalize ---------- */

  method Normalize(path: string) returns (result: Option<string>)
    ensures path == "" ==> result == None
    // It succeeds exactly on the acceptable paths, and then agrees with filepath.Clean on the whole path.
    ensures path != "" ==> (result.Some? <==> Acceptable(path))
    ensures result.Some? ==> result.value == Clean(path)
  {
    hide Split, Clean, Acceptable;
    var start := 0;
    ghost var done: seq<string> := [];
    assert path[start..] == path;
    for i := 0 to |path| + 1
      invariant 0 <= start <= i && (i <= |path| ==> start <= |path|)
      invariant i <= |path| ==> done + Split(path[start..]) == Split(path) && '/' !in path[start..i]
      invariant i == |path| + 1 ==> done == Split(path)
      invariant !Dotted(done)
    {
      if i != |path| && path[i] != '/' {
        assert path[start..i + 1] == path[start..i] + [path[i]];
        continue;
      }
      var segment := path[start..i];
      SegmentTaken(path, done, start, i);
      if segment == "." || segment == ".." {
        if path != "" {
          DottedRefused(path);
        }
        return None;
      }
      done := done + [segment];
      start := i + 1;
    }
    var trimmed := path;
    while |trimmed| > 1 && trimmed[|trimmed| - 1] == '/'
      invariant Trim(trimmed) == Trim(path)
      invariant path != "" ==> trimmed != ""
    {
      trimmed := trimmed[..|trimmed| - 1];
    }
    TrimmedClean(path, trimmed);
    if Clean(trimmed) != trimmed {
      return None;
    }
    result := Some(trimmed);
  }

  lemma TrimmedClean(path: string, trimmed: string)
    requires !HasDots(path) && Trim(path) == trimmed
    ensures path == "" ==> Clean(trimmed) != trimmed
    ensures path != "" ==> Clean(trimmed) == Clean(path) && (Clean(trimmed) == trimmed <==> Acceptable(path))
  {
    if path == "" {
      SplitPlain("");
      assert Clean("") == ".";
    } else {
      TrimProperties(path);
      CleanFixpoint(trimmed);
    }
  }

  lemma SegmentEnds(path: string, start: nat, i: nat)
    requires start <= i <= |path| && '/' !in path[start..i] && (i == |path| || path[i] == '/')
    ensures Split(path[start..]) == if i == |path| then [path[start..i]] else [path[start..i]] + Split(path[i + 1..])
  {
    SplitPlain(path[start..i]);
    if i < |path| {
      assert path[start..] == path[start..i] + "/" + path[i + 1..];
      SplitConcat(path[start..i], path[i + 1..]);
    } else {
      assert path[start..i] == path[start..];
    }
  }

  // The segments before `start` and the one that ends at i are the first segments of the path.
  lemma SegmentTaken(path: string, done: seq<string>, start: nat, i: nat)
    requires start <= i <= |path| && '/' !in path[start..i] && (i == |path| || path[i] == '/')
    requires done + Split(path[start..]) == Split(path)
    ensures path[start..i] in Split(path)
    ensures Split(path) == done + [path[start..i]] + if i == |path| then [] else Split(path[i + 1..])
  {
    hide Split;
    SegmentEnds(path, start, i);
    assert Split(path)[|done|] == path[start..i];
  }

  lemma DottedRefused(path: string)
    requires HasDots(path)
    ensures !Acceptable(path)
  {
  }

  // Normalizing again changes nothing: an accepted path's normal form is accepted as it is.
  lemma NormalizeIdempotent(path: string)
    requires path != "" && Acceptable(path)
    ensures Clean(path) == Trim(path) && Acceptable(Clean(path)) && Clean(Clean(path)) == Clean(path)
  {
    TrimProperties(path);
    CleanFixpoint(Trim(path));
  }
}
