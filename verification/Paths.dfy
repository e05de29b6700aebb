/**
 Absolute paths in the file preview: splitting at slashes, resolving `.` and `..`, and links
 relative to a directory.
 */
module Paths {
  import opened Wrappers

  // ---- Splitting and joining -----------------------------------------------------------------

  function Split(s: string): (r: seq<string>)
    ensures |r| > 0
  {
    if s == [] then [[]]
    else
      var rest := Split(s[1..]);
      if s[0] == '/' then [[]] + rest else [[s[0]] + rest[0]] + rest[1..]
  }

  function Join(segments: seq<string>): string {
    if segments == [] then []
    else if |segments| == 1 then segments[0]
    else segments[0] + "/" + Join(segments[1..])
  }

  predicate NoSlash(segment: string) { '/' !in segment }

  lemma {:induction false} SplitOfSegment(segment: string)
    requires NoSlash(segment)
    ensures Split(segment) == [segment]
    decreases |segment|
  {
    if segment != [] {
      SplitOfSegment(segment[1..]);
      assert segment == [segment[0]] + segment[1..];
    }
  }

  lemma FirstPartGrows(rest: seq<string>, tail: seq<string>, c: char)
    requires rest != []
    ensures [[]] + (rest + tail) == ([[]] + rest) + tail
    ensures [[c] + (rest + tail)[0]] + (rest + tail)[1..] == ([[c] + rest[0]] + rest[1..]) + tail
  {
  }

  /** A slash separates: what is before it and what is after it split on their own. */
  lemma {:induction false} SplitAtSlash(a: string, b: string)
    ensures Split(a + "/" + b) == Split(a) + Split(b)
    decreases |a|
  {
    if a == [] {
      assert (a + "/" + b)[1..] == b;
    } else {
      var s, rest, tail := a + "/" + b, Split(a[1..]), Split(b);
      assert s[0] == a[0] && s[1..] == a[1..] + "/" + b;
      SplitAtSlash(a[1..], b);
      FirstPartGrows(rest, tail, a[0]);
    }
  }

  lemma {:induction false} SplitOfJoin(segments: seq<string>)
    requires segments != [] && forall s | s in segments :: NoSlash(s)
    ensures Split(Join(segments)) == segments
    decreases |segments|
  {
    SplitOfSegment(segments[0]);
    if |segments| > 1 {
      SplitAtSlash(segments[0], Join(segments[1..]));
      SplitOfJoin(segments[1..]);
      assert segments == [segments[0]] + segments[1..];
    }
  }

  lemma {:induction false} PartsHaveNoSlash(s: string)
    ensures forall part | part in Split(s) :: NoSlash(part)
    decreases |s|
  {
    if s != [] {
      PartsHaveNoSlash(s[1..]);
      assert Split(s[1..])[0] in Split(s[1..]);
    }
  }

  // ---- Normalising ---------------------------------------------------------------------------

  /** One segment on a stack of segments; popping the empty stack leaves it empty. */
  function Push(stack: seq<string>, segment: string): seq<string> {
    if segment == "" || segment == "." then stack
    else if segment == ".." then (if stack == [] then [] else stack[..|stack| - 1])
    else stack + [segment]
  }

  function PushAll(stack: seq<string>, parts: seq<string>): seq<string>
    decreases |parts|
  {
    if parts == [] then stack else PushAll(Push(stack, parts[0]), parts[1..])
  }

  function Segments(value: string): seq<string> {
    PushAll([], Split(value))
  }

  function NormalizeAbsolutePath(value: string): string {
    "/" + Join(Segments(value))
  }

  method NormalizePath(value: string) returns (r: string)
    ensures r == NormalizeAbsolutePath(value)
  {
    var segments: seq<string>, parts := [], Split(value);
    var i := 0;
    while i < |parts|
      invariant 0 <= i <= |parts|
      invariant PushAll([], parts) == PushAll(segments, parts[i..])
    {
      var segment := parts[i];
      assert parts[i..][1..] == parts[i + 1..];
      i := i + 1;
      if segment == "" || segment == "." { continue; }
      if segment == ".." {
        if segments != [] { segments := segments[..|segments| - 1]; }
      } else {
        segments := segments + [segment];
      }
    }
    assert parts[i..] == [];
    r := "/" + Join(segments);
  }

  /** Neither empty nor `.` nor `..`, and without a slash. */
  predicate Clean(segment: string) {
    segment != "" && segment != "." && segment != ".." && NoSlash(segment)
  }

  lemma {:induction false} PushAllAdds(stack: seq<string>, a: seq<string>, b: seq<string>)
    ensures PushAll(stack, a + b) == PushAll(PushAll(stack, a), b)
    decreases |a|
  {
    if a == [] {
      assert a + b == b;
    } else {
      assert (a + b)[1..] == a[1..] + b;
      PushAllAdds(Push(stack, a[0]), a[1..], b);
    }
  }

  lemma {:induction false} PushedAreClean(stack: seq<string>, parts: seq<string>)
    requires (forall s | s in stack :: Clean(s)) && forall p | p in parts :: NoSlash(p)
    ensures forall s | s in PushAll(stack, parts) :: Clean(s)
    decreases |parts|
  {
    if parts != [] { PushedAreClean(Push(stack, parts[0]), parts[1..]); }
  }

  /** Clean segments stay as they are. */
  lemma {:induction false} CleanArePushed(stack: seq<string>, segments: seq<string>)
    requires forall s | s in segments :: Clean(s)
    ensures PushAll(stack, segments) == stack + segments
    decreases |segments|
  {
    if segments == [] {
      assert stack + segments == stack;
    } else {
      assert Clean(segments[0]);
      CleanArePushed(stack + [segments[0]], segments[1..]);
      assert stack + [segments[0]] + segments[1..] == stack + segments;
    }
  }

  /** A normalised path has no empty, `.` or `..` segment. */
  lemma SegmentsAreClean(value: string)
    ensures forall s | s in Segments(value) :: Clean(s)
  {
    PartsHaveNoSlash(value);
    PushedAreClean([], Split(value));
  }

  /** A normalised path has the segments it was made of. */
  lemma SegmentsOfPath(segments: seq<string>)
    requires forall s | s in segments :: Clean(s)
    ensures Segments("/" + Join(segments)) == segments
  {
    var path := "/" + Join(segments);
    SplitAtSlash([], Join(segments));
    assert [] + "/" + Join(segments) == path;
    PushAllAdds([], [[]], Split(Join(segments)));
    if segments == [] {
      assert Split(Join(segments)) == [[]];
    } else {
      SplitOfJoin(segments);
      CleanArePushed([], segments);
      assert [] + segments == segments;
    }
    assert Split([]) == [[]];
    assert PushAll([], [[]]) == [];
  }

  lemma NormalFormHasSegments(value: string)
    ensures Segments(NormalizeAbsolutePath(value)) == Segments(value)
  {
    SegmentsAreClean(value);
    SegmentsOfPath(Segments(value));
  }

  /** Where one more segment leads: nowhere, one up (from the root nowhere), or into it. */
  lemma EachSegmentLeads(value: string, segment: string)
    requires NoSlash(segment)
    ensures var here, there := Segments(value), Segments(value + "/" + segment);
            && (segment == "" || segment == "." ==> there == here)
            && (segment == ".." ==> there == if |here| == 0 then [] else here[..|here| - 1])
            && (Clean(segment) ==> there == here + [segment])
    ensures Segments("") == []
  {
    SplitAtSlash(value, segment);
    SplitOfSegment(segment);
    PushAllAdds([], Split(value), [segment]);
    assert [segment][1..] == [];
    assert PushAll(Segments(value), [segment]) == PushAll(Push(Segments(value), segment), []);
    assert Split("") == [""] && PushAll([], [""]) == PushAll(Push([], ""), [""][1..]);
  }

  lemma NormalizeIsIdempotent(value: string)
    ensures NormalizeAbsolutePath(NormalizeAbsolutePath(value)) == NormalizeAbsolutePath(value)
  {
    NormalFormHasSegments(value);
  }

  /** Resolving from a path or from its normal form is the same. */
  lemma NormalizeComposes(a: string, b: string)
    ensures NormalizeAbsolutePath(NormalizeAbsolutePath(a) + "/" + b) == NormalizeAbsolutePath(a + "/" + b)
  {
    SegmentsAreClean(a);
    SegmentsOfPath(Segments(a));
    SplitAtSlash(NormalizeAbsolutePath(a), b);
    SplitAtSlash(a, b);
    PushAllAdds([], Split(NormalizeAbsolutePath(a)), Split(b));
    PushAllAdds([], Split(a), Split(b));
  }

  /** Two paths have the same normal form exactly if they resolve to the same segments. */
  lemma SameNormalFormIff(a: string, b: string)
    ensures NormalizeAbsolutePath(a) == NormalizeAbsolutePath(b) <==> Segments(a) == Segments(b)
  {
    SegmentsAreClean(a);
    SegmentsAreClean(b);
    SegmentsOfPath(Segments(a));
    SegmentsOfPath(Segments(b));
  }

  // ---- Directories and links -----------------------------------------------------------------

  function LastSlash(s: string): (r: int)
    ensures -1 <= r < |s|
  {
    if s == [] then -1 else if s[|s| - 1] == '/' then |s| - 1 else LastSlash(s[..|s| - 1])
  }

  function DirectoryName(value: string): string {
    var normalized := NormalizeAbsolutePath(value);
    var slash := LastSlash(normalized);
    if slash <= 0 then "/" else normalized[..slash]
  }

  lemma {:induction false} LastSlashBefore(a: string, segment: string)
    requires NoSlash(segment)
    ensures LastSlash(a + "/" + segment) == |a|
    decreases |segment|
  {
    var s := a + "/" + segment;
    if segment != [] {
      LastSlashBefore(a, segment[..|segment| - 1]);
      assert s[..|s| - 1] == a + "/" + segment[..|segment| - 1];
    }
  }

  lemma {:induction false} JoinEnds(segments: seq<string>, last: string)
    ensures "/" + Join(segments + [last]) == (if segments == [] then "" else "/" + Join(segments)) + "/" + last
    decreases |segments|
  {
    if segments == [] {
      assert segments + [last] == [last];
    } else {
      JoinEnds(segments[1..], last);
      assert (segments + [last])[1..] == segments[1..] + [last];
      if |segments| > 1 {
        assert Join(segments + [last]) == segments[0] + "/" + Join(segments[1..] + [last]);
        assert Join(segments[1..] + [last]) == Join(segments[1..]) + "/" + last by {
          assert "/" + Join(segments[1..] + [last]) == "/" + (Join(segments[1..]) + "/" + last);
          SameTail(Join(segments[1..] + [last]), Join(segments[1..]) + "/" + last);
        }
      }
    }
  }

  lemma SameTail(a: string, b: string)
    requires "/" + a == "/" + b
    ensures a == b
  {
    assert ("/" + a)[1..] == a && ("/" + b)[1..] == b;
  }

  /** The directory of a path is where `..` leads from it. */
  lemma DirectoryIsParent(value: string)
    ensures DirectoryName(value) == NormalizeAbsolutePath(value + "/..")
  {
    ParentSegments(value);
    SegmentsAreClean(value);
    DirectoryOf(Segments(value), NormalizeAbsolutePath(value));
  }

  lemma ParentSegments(value: string)
    ensures Segments(value + "/..") == Push(Segments(value), "..")
  {
    SplitAtSlash(value, "..");
    SplitOfSegment("..");
    PushAllAdds([], Split(value), [".."]);
    assert value + "/.." == value + "/" + "..";
    assert [".."][1..] == [] && PushAll(Segments(value), [".."]) == PushAll(Push(Segments(value), ".."), []);
  }

  lemma DirectoryOf(segments: seq<string>, path: string)
    requires path == "/" + Join(segments) && forall s | s in segments :: Clean(s)
    ensures var slash := LastSlash(path);
            && slash <= |path|
            && (if slash <= 0 then "/" else path[..slash]) == "/" + Join(Push(segments, ".."))
  {
    if segments != [] {
      var above, last := segments[..|segments| - 1], segments[|segments| - 1];
      assert segments == above + [last] && Clean(last);
      var front := if above == [] then "" else "/" + Join(above);
      JoinEnds(above, last);
      CutAtSlash(front, last);
    }
  }

  lemma CutAtSlash(front: string, last: string)
    requires NoSlash(last)
    ensures var path := front + "/" + last; LastSlash(path) == |front| && path[..LastSlash(path)] == front
  {
    LastSlashBefore(front, last);
  }

  /** `decode` is the decoding of a link; an empty result counts as none. */
  function ResolveFileHref(decode: string -> Option<string>, href: string, baseDirectory: string): Option<string> {
    if baseDirectory == [] || baseDirectory[0] != '/' then None
    else if decode(href).None? || decode(href).value == [] then None
    else
      var decoded := decode(href).value;
      Some(NormalizeAbsolutePath(if decoded[0] == '/' then decoded else baseDirectory + "/" + decoded))
  }

  /** A link resolves the same from a directory and from its normal form, and always to a normal form. */
  lemma LinksIgnoreBaseSpelling(decode: string -> Option<string>, href: string, baseDirectory: string)
    requires baseDirectory != [] && baseDirectory[0] == '/'
    ensures ResolveFileHref(decode, href, NormalizeAbsolutePath(baseDirectory)) == ResolveFileHref(decode, href, baseDirectory)
    ensures ResolveFileHref(decode, href, baseDirectory).Some? ==>
              var r := ResolveFileHref(decode, href, baseDirectory).value; NormalizeAbsolutePath(r) == r
  {
    if decode(href).Some? {
      NormalizeComposes(baseDirectory, decode(href).value);
      NormalizeIsIdempotent(decode(href).value);
      NormalizeIsIdempotent(baseDirectory + "/" + decode(href).value);
    }
  }

  /** Which file a link names: an absolute one its own path, a relative one that path from the directory; or none. */
  lemma LinkNamesIff(decode: string -> Option<string>, href: string, baseDirectory: string)
    ensures var r := ResolveFileHref(decode, href, baseDirectory);
            && (r.Some? <==> baseDirectory != "" && baseDirectory[0] == '/' && decode(href).Some? && decode(href).value != "")
            && (r.Some? ==>
                  var link := decode(href).value;
                  && |r.value| > 0 && r.value[0] == '/'
                  && Segments(r.value) == if link[0] == '/' then Segments(link) else PushAll(Segments(baseDirectory), Split(link)))
  {
    if baseDirectory != "" && baseDirectory[0] == '/' && decode(href).Some? && decode(href).value != "" {
      var link := decode(href).value;
      if link[0] == '/' {
        NormalFormHasSegments(link);
      } else {
        NormalFormHasSegments(baseDirectory + "/" + link);
        SplitAtSlash(baseDirectory, link);
        PushAllAdds([], Split(baseDirectory), Split(link));
      }
    }
  }
}
