/**
 * Joining a backend's base path with a tunnelled request path (tokiame/client_data.go).
 *
 * The two paths are overlapped as far as they agree: the result is the shortest path that starts
 * with the base and ends with the request.
 */
module PathMerge {
  import opened Text

  ghost predicate Segment(s: string) {
    s != "" && Trimmed(s, IsSpace) && '/' !in s
  }

  ghost predicate Segments(parts: seq<string>) {
    forall part :: part in parts ==> Segment(part)
  }

  // ----- The code

  method SplitURLPathSegments(rawPath: string) returns (segments: seq<string>)
    ensures segments == PathSegments(rawPath)
  {
    var path := TrimSpace(rawPath);
    if path == "" || path == "/" {
      NoSegments(path);
      return [];
    }
    segments := TrimParts(Split(path, '/'));
  }

  method PathSegmentsEqual(left: seq<string>, right: seq<string>) returns (equal: bool)
    ensures equal <==> left == right
  {
    if |left| != |right| {
      return false;
    }
    for index := 0 to |left|
      invariant left[..index] == right[..index]
    {
      if left[index] != right[index] {
        return false;
      }
    }
    return true;
  }

  method MergeTargetPath(basePath: string, requestPath: string) returns (merged: string)
    ensures merged == MergedPath(basePath, requestPath)
  {
    var base := SplitURLPathSegments(basePath);
    var request := SplitURLPathSegments(requestPath);
    MergedPathIs(basePath, requestPath);
    if |request| == 0 {
      MergedWithNothing(base, request);
      if |base| == 0 {
        return "/";
      }
      return "/" + Join(base, '/');
    } else if |base| == 0 {
      MergedWithNothing(base, request);
      return "/" + Join(request, '/');
    }

    hide *;
    var overlap := FindOverlap(base, request);
    MergedIs(base, request);
    var all := base + request[overlap..];
    if |all| == 0 {
      return "/";
    }
    return "/" + Join(all, '/');
  }

  /** The downward search for the overlap. */
  method FindOverlap(base: seq<string>, request: seq<string>) returns (overlap: nat)
    ensures overlap == Overlap(base, request)
  {
    overlap := 0;
    var size := if |base| < |request| then |base| else |request|;
    while size > 0
      invariant overlap == 0
      invariant 0 <= size <= |base| && size <= |request|
      invariant forall n :: size < n <= |base| && n <= |request| ==> !Overlaps(base, request, n)
    {
      var equal := PathSegmentsEqual(base[|base| - size..], request[..size]);
      if equal {
        overlap := size;
        break;
      }
      size := size - 1;
    }
    assert Overlaps(base, request, overlap);
    OverlapIsLongest(base, request);
  }

  // ----- What the code computes

  function PathSegments(rawPath: string): seq<string> {
    NonEmpty(Split(TrimSpace(rawPath), '/'))
  }

  /** The last n segments of the base are the first n of the request. */
  ghost predicate Overlaps(base: seq<string>, request: seq<string>, n: nat) {
    n <= |base| && n <= |request| && base[|base| - n..] == request[..n]
  }

  ghost function LongestOverlap(base: seq<string>, request: seq<string>, n: nat): nat
    requires n <= |base| && n <= |request|
  {
    if n == 0 || Overlaps(base, request, n) then n else LongestOverlap(base, request, n - 1)
  }

  ghost function Overlap(base: seq<string>, request: seq<string>): nat {
    LongestOverlap(base, request, if |base| < |request| then |base| else |request|)
  }

  ghost function Merged(base: seq<string>, request: seq<string>): seq<string> {
    OverlapIsLongest(base, request);
    base + request[Overlap(base, request)..]
  }

  ghost function MergedPath(basePath: string, requestPath: string): string {
    "/" + Join(Merged(PathSegments(basePath), PathSegments(requestPath)), '/')
  }

  lemma MergedPathIs(basePath: string, requestPath: string)
    ensures MergedPath(basePath, requestPath) == "/" + Join(Merged(PathSegments(basePath), PathSegments(requestPath)), '/')
    ensures Join([], '/') == ""
  {
  }

  lemma MergedIs(base: seq<string>, request: seq<string>)
    ensures Overlap(base, request) <= |request| && Merged(base, request) == base + request[Overlap(base, request)..]
  {
    OverlapIsLongest(base, request);
  }

  lemma MergedWithNothing(base: seq<string>, request: seq<string>)
    ensures request == [] ==> Merged(base, request) == base
    ensures base == [] ==> Merged(base, request) == request
  {
    OverlapIsLongest(base, request);
  }

  // ----- Properties

  lemma {:induction false} LongestOverlapIsLongest(base: seq<string>, request: seq<string>, n: nat)
    requires n <= |base| && n <= |request|
    ensures var k := LongestOverlap(base, request, n);
      k <= n && Overlaps(base, request, k) && forall m :: k < m <= n ==> !Overlaps(base, request, m)
  {
    if n > 0 && !Overlaps(base, request, n) {
      LongestOverlapIsLongest(base, request, n - 1);
    }
  }

  lemma OverlapIsLongest(base: seq<string>, request: seq<string>)
    ensures var k := Overlap(base, request);
      Overlaps(base, request, k) && forall m: nat :: Overlaps(base, request, m) ==> m <= k
  {
    LongestOverlapIsLongest(base, request, if |base| < |request| then |base| else |request|);
  }

  ghost predicate Covers(path: seq<string>, base: seq<string>, request: seq<string>) {
    base <= path && |request| <= |path| && path[|path| - |request|..] == request
  }

  /** The merge starts with the base and ends with the request, and no other path that does is as short. */
  lemma MergedIsShortest(base: seq<string>, request: seq<string>, path: seq<string>)
    requires Covers(path, base, request)
    ensures Covers(Merged(base, request), base, request)
    ensures |Merged(base, request)| <= |path|
    ensures |Merged(base, request)| == |path| ==> path == Merged(base, request)
  {
    MergedCovers(base, request);
    var k := Overlap(base, request);
    OverlapIsLongest(base, request);
    if |path| < |base| + |request| {
      CoversOverlaps(path, base, request);
    }
    if |Merged(base, request)| == |path| {
      CoversEnds(path, base, request, k);
    }
  }

  /** A covering path that is shorter than both together overlaps them. */
  lemma CoversOverlaps(path: seq<string>, base: seq<string>, request: seq<string>)
    requires Covers(path, base, request) && |path| < |base| + |request|
    ensures Overlaps(base, request, |base| + |request| - |path|)
  {
    var n := |base| + |request| - |path|;
    assert base == path[..|base|];
    assert base[|base| - n..] == path[|path| - |request|..|base|] == request[..n];
  }

  lemma CoversEnds(path: seq<string>, base: seq<string>, request: seq<string>, k: nat)
    requires Covers(path, base, request) && k <= |request| && |path| == |base| + |request| - k
    ensures path == base + request[k..]
  {
    assert path == path[..|base|] + path[|base|..];
    assert path[|base|..] == request[k..];
  }

  lemma MergedCovers(base: seq<string>, request: seq<string>)
    ensures Covers(Merged(base, request), base, request)
  {
    var k := Overlap(base, request);
    OverlapIsLongest(base, request);
    var m := Merged(base, request);
    assert request == request[..k] + request[k..];
    assert m[|m| - |request|..] == base[|base| - k..] + request[k..];
  }

  /** A path that already ends with the request is left alone. */
  lemma MergedIsIdempotent(base: seq<string>, request: seq<string>)
    ensures Merged(Merged(base, request), request) == Merged(base, request)
  {
    var m := Merged(base, request);
    MergedCovers(base, request);
    MergedIsShortest(m, request, m);
    MergedCovers(m, request);
  }

  lemma NoSegments(path: string)
    requires path == "" || path == "/"
    ensures NonEmpty(Split(path, '/')) == []
  {
    if path == "" {
      assert Split(path, '/')[1..] == [];
    } else {
      SplitOfJoin(["", ""], '/');
      assert ["", ""][1..] == [""] && [""][1..] == [];
    }
  }

  lemma {:induction false} NonEmptyOfSegments(parts: seq<string>)
    ensures (forall part :: part in parts ==> '/' !in part) ==> Segments(NonEmpty(parts))
    ensures Segments(parts) ==> NonEmpty(parts) == parts
  {
    if parts != [] {
      NonEmptyOfSegments(parts[1..]);
      assert parts[0] in parts;
      assert forall part :: part in parts[1..] ==> part in parts;
      if '/' !in parts[0] {
        TrimKeepsOut(parts[0], '/');
      }
    }
  }

  lemma PathSegmentsAreSegments(rawPath: string)
    ensures Segments(PathSegments(rawPath))
  {
    NonEmptyOfSegments(Split(TrimSpace(rawPath), '/'));
  }

  lemma {:induction false} JoinEnds(parts: seq<string>)
    requires parts != [] && Segments(parts)
    ensures var s := Join(parts, '/'); s != "" && !IsSpace(s[|s| - 1])
  {
    assert parts[0] in parts;
    if |parts| > 1 {
      assert forall part :: part in parts[1..] ==> part in parts;
      JoinEnds(parts[1..]);
    }
  }

  /** Splitting "/a/b" gives back a, b. */
  lemma SplitOfPath(segments: seq<string>)
    requires Segments(segments)
    ensures PathSegments("/" + Join(segments, '/')) == segments
  {
    var path := "/" + Join(segments, '/');
    if segments == [] {
      assert path == "/";
      NoSegments(path);
    } else {
      JoinEnds(segments);
      assert Trimmed(path, IsSpace);
      var parts := [""] + segments;
      assert parts[1..] == segments;
      assert Join(parts, '/') == path;
      SplitOfJoin(parts, '/');
      NonEmptyOfSegments(segments);
    }
  }

  lemma MergedSegments(basePath: string, requestPath: string)
    ensures var m := Merged(PathSegments(basePath), PathSegments(requestPath));
      Segments(m) && PathSegments(MergedPath(basePath, requestPath)) == m
  {
    PathSegmentsAreSegments(basePath);
    PathSegmentsAreSegments(requestPath);
    OverlapIsLongest(PathSegments(basePath), PathSegments(requestPath));
    SplitOfPath(Merged(PathSegments(basePath), PathSegments(requestPath)));
  }

  /** Merging the same request again changes nothing, on the path texts themselves. */
  lemma MergedPathIsIdempotent(basePath: string, requestPath: string)
    ensures MergedPath(MergedPath(basePath, requestPath), requestPath) == MergedPath(basePath, requestPath)
  {
    MergedSegments(basePath, requestPath);
    MergedIsIdempotent(PathSegments(basePath), PathSegments(requestPath));
  }
}
