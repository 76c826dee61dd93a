/** Accept-or-reject canonicalization of drive-rooted Windows paths, and the validator on top of it. */
module WindowsPaths {
  import opened Common

  predicate IsSeparator(c: char) {
    c == '\\' || c == '/'
  }

  predicate IsUncOrDeviceLiteral(path: string) {
    |path| >= 2 && IsSeparator(path[0]) && IsSeparator(path[1])
  }

  predicate IsAsciiLetter(c: char) {
    'A' <= c <= 'Z' || 'a' <= c <= 'z'
  }

  predicate IsDriveRooted(path: string) {
    |path| >= 3 && IsAsciiLetter(path[0]) && path[1] == ':' && IsSeparator(path[2])
  }

  /** The capital of a letter of either case. */
  predicate IsCapitalOf(u: char, c: char) {
    'A' <= u <= 'Z' && (u == c || u as int + 32 == c as int)
  }

  function UpperLetter(c: char): (u: char)
    requires IsAsciiLetter(c)
    ensures IsCapitalOf(u, c)
  {
    if 'a' <= c <= 'z' then (c as int - 32) as char else c
  }

  predicate IsInvalidSegmentChar(c: char) {
    c in {'<', '>', '"', '|', '?', '*', ':', '\0'}
  }

  /** Blank input is never drive-rooted, so which characters count as blank changes no verdict. */
  predicate IsBlank(s: string) {
    forall c :: c in s ==> c in {' ', '\t', '\n', '\r'}
  }

  // ---------- split and join ----------

  /** Number of leading characters that are not separators. */
  function RunLength(s: string): (n: nat)
    ensures n <= |s|
    ensures forall i :: 0 <= i < n ==> !IsSeparator(s[i])
    ensures n < |s| ==> IsSeparator(s[n])
  {
    if s == "" || IsSeparator(s[0]) then 0 else 1 + RunLength(s[1..])
  }

  predicate IsSegment(s: string) {
    s != "" && forall i :: 0 <= i < |s| ==> !IsSeparator(s[i])
  }

  /** `Split(Separators, RemoveEmptyEntries)`. */
  function Segments(s: string): (segs: seq<string>)
    ensures forall i :: 0 <= i < |segs| ==> IsSegment(segs[i])
    decreases |s|
  {
    if s == "" then []
    else if IsSeparator(s[0]) then Segments(s[1..])
    else [s[..RunLength(s)]] + Segments(s[RunLength(s)..])
  }

  /** `string.Join('\\', segments)`. */
  function Join(segs: seq<string>): string {
    if segs == [] then "" else if |segs| == 1 then segs[0] else segs[0] + "\\" + Join(segs[1..])
  }

  lemma {:induction false} RunLengthOfSegment(seg: string, rest: string)
    requires forall i :: 0 <= i < |seg| ==> !IsSeparator(seg[i])
    requires rest == "" || IsSeparator(rest[0])
    ensures RunLength(seg + rest) == |seg|
  {
    if seg == "" {
      assert seg + rest == rest;
    } else {
      assert (seg + rest)[1..] == seg[1..] + rest;
      RunLengthOfSegment(seg[1..], rest);
    }
  }

  lemma FirstSegment(seg: string, rest: string)
    requires IsSegment(seg)
    requires rest == "" || IsSeparator(rest[0])
    ensures Segments(seg + rest) == [seg] + Segments(rest)
  {
    RunLengthOfSegment(seg, rest);
    assert (seg + rest)[..|seg|] == seg && (seg + rest)[|seg|..] == rest;
  }

  lemma {:induction false} SegmentsUndoesJoin(segs: seq<string>)
    requires forall i :: 0 <= i < |segs| ==> IsSegment(segs[i])
    ensures Segments(Join(segs)) == segs
  {
    if segs == [] {
    } else if |segs| == 1 {
      FirstSegment(segs[0], "");
      assert segs[0] + "" == segs[0];
      assert segs == [segs[0]];
    } else {
      var rest := Join(segs[1..]);
      SegmentsUndoesJoin(segs[1..]);
      FirstSegment(segs[0], "\\" + rest);
      assert ("\\" + rest)[1..] == rest;
      assert segs[0] + ("\\" + rest) == segs[0] + "\\" + rest;
      assert segs == [segs[0]] + segs[1..];
    }
  }

  lemma {:induction false} RunLengthIsAll(w: string)
    requires forall i :: 0 <= i < |w| ==> w[i] != '\\' && w[i] != '/'
    ensures RunLength(w) == |w|
  {
    if w != "" {
      RunLengthIsAll(w[1..]);
    }
  }

  lemma {:induction false} RunLengthStops(w: string, sep: char, rest: string)
    requires sep == '\\' || sep == '/'
    requires forall i :: 0 <= i < |w| ==> w[i] != '\\' && w[i] != '/'
    ensures RunLength(w + [sep] + rest) == |w|
  {
    if w == "" {
      assert (w + [sep] + rest)[0] == sep;
    } else {
      assert (w + [sep] + rest)[1..] == w[1..] + [sep] + rest;
      RunLengthStops(w[1..], sep, rest);
    }
  }

  /**
   * What splitting does, by its own rule: a text without a backslash or slash is one segment unless it
   * is empty, and each backslash or slash divides.
   */
  lemma SegmentsByRule(w: string, sep: char, rest: string)
    requires forall i :: 0 <= i < |w| ==> w[i] != '\\' && w[i] != '/'
    requires sep == '\\' || sep == '/'
    ensures Segments(w) == if w == "" then [] else [w]
    ensures Segments(w + [sep] + rest) == Segments(w) + Segments(rest)
  {
    RunLengthIsAll(w);
    RunLengthStops(w, sep, rest);
    var t := w + [sep] + rest;
    assert t[|w|..] == [sep] + rest && t[..|w|] == w;
    assert ([sep] + rest)[1..] == rest;
    assert Segments([sep] + rest) == Segments(rest);
    assert w[|w|..] == "" && w[..|w|] == w;
    if w == "" {
      assert t == [sep] + rest;
    } else {
      assert t[0] == w[0];
    }
  }

  // ---------- canonicalization ----------

  predicate HasInvalidChar(seg: string) {
    exists i :: 0 <= i < |seg| && IsInvalidSegmentChar(seg[i])
  }

  /** A segment that may stand in a canonical path. */
  predicate IsClean(seg: string) {
    && seg != ""
    && !HasInvalidChar(seg)
    && seg[|seg| - 1] != '.' && seg[|seg| - 1] != ' '
  }

  /** The segments a path denotes: all but the "." ones. */
  function Kept(segs: seq<string>): (r: seq<string>)
    ensures forall i :: 0 <= i < |r| ==> r[i] in segs && r[i] != "."
    ensures forall x :: x in segs && x != "." ==> x in r
  {
    if segs == [] then []
    else if segs[0] == "." then Kept(segs[1..])
    else [segs[0]] + Kept(segs[1..])
  }

  predicate ContainsTraversal(path: string) {
    ".." in Segments(path)
  }

  predicate Acceptable(segs: seq<string>) {
    forall seg :: seg in segs ==> seg == "." || IsClean(seg)
  }

  function Render(drive: char, segs: seq<string>): string {
    [drive] + ":\\" + Join(segs)
  }

  function Canonicalize(raw: string): (r: Option<string>)
    ensures r.Some? ==> |r.value| >= 3
  {
    if IsBlank(raw) || !IsDriveRooted(raw) || ContainsTraversal(raw) || !Acceptable(Segments(raw[3..])) then None
    else Some(Render(UpperLetter(raw[0]), Kept(Segments(raw[3..]))))
  }

  lemma SegmentsAfterDrive(path: string)
    requires IsDriveRooted(path)
    ensures Segments(path) == [path[..2]] + Segments(path[3..])
  {
    FirstSegment(path[..2], path[2..]);
    assert path[..2] + path[2..] == path;
    assert path[2..][1..] == path[3..];
  }

  /** The traversal and blank tests reject nothing that the other two would accept. */
  lemma AcceptedIff(raw: string)
    ensures Canonicalize(raw).Some? <==> IsDriveRooted(raw) && Acceptable(Segments(raw[3..]))
  {
    if IsDriveRooted(raw) {
      assert raw[0] in raw;
      SegmentsAfterDrive(raw);
      assert raw[..2] != "..";
      assert !IsClean("..");
    }
  }

  /**
   * What is accepted, character by character: a drive letter, a colon and a separator, and segments each
   * a single dot or free of the reserved characters and of a dot or space at its end.
   */
  lemma AcceptedCharacters(raw: string)
    ensures Canonicalize(raw).Some?
       <==> && |raw| >= 3 && ('A' <= raw[0] <= 'Z' || 'a' <= raw[0] <= 'z') && raw[1] == ':'
            && (raw[2] == '\\' || raw[2] == '/')
            && forall seg :: seg in Segments(raw[3..]) ==>
                 seg == "." || (HasNoReserved(seg) && seg != "" && seg[|seg| - 1] != '.' && seg[|seg| - 1] != ' ')
  {
    AcceptedIff(raw);
    forall seg: string ensures HasInvalidChar(seg) <==> !HasNoReserved(seg) {
      if !HasNoReserved(seg) {
        var i :| 0 <= i < |seg| && IsReserved(seg[i]);
        assert IsInvalidSegmentChar(seg[i]);
      }
    }
  }

  predicate IsReserved(c: char) {
    c == '<' || c == '>' || c == '"' || c == '|' || c == '?' || c == '*' || c == ':' || c == '\0'
  }

  predicate HasNoReserved(seg: string) {
    forall i :: 0 <= i < |seg| ==> !IsReserved(seg[i])
  }

  lemma {:induction false} KeptOfConcat(segs: seq<string>, more: seq<string>)
    ensures Kept(segs + more) == Kept(segs) + Kept(more)
  {
    if segs == [] {
      assert segs + more == more;
    } else {
      assert (segs + more)[1..] == segs[1..] + more && (segs + more)[0] == segs[0];
      KeptOfConcat(segs[1..], more);
    }
  }

  /** Every segment but the single dots is kept, in its place. */
  lemma KeptByRule(segs: seq<string>, seg: string)
    ensures Kept([]) == []
    ensures Kept(segs + [seg]) == Kept(segs) + if seg == "." then [] else [seg]
  {
    KeptOfConcat(segs, [seg]);
    assert [seg][1..] == [];
  }

  /** The result denotes the drive (its letter upper-cased) and the segments of the input. */
  lemma MeaningPreserved(raw: string)
    requires Canonicalize(raw).Some?
    ensures var c := Canonicalize(raw).value;
            && |c| >= 3 && IsCapitalOf(c[0], raw[0]) && c[1..3] == ":\\"
            && IsDriveRooted(c) && c[..3] == [UpperLetter(raw[0])] + ":\\"
            && Segments(c[3..]) == Kept(Segments(raw[3..]))
            && (forall seg :: seg in Segments(c[3..]) ==> IsClean(seg))
  {
    var kept := Kept(Segments(raw[3..]));
    var c := Canonicalize(raw).value;
    assert c[3..] == Join(kept);
    SegmentsUndoesJoin(kept);
  }

  /** Two accepted paths get one result exactly when their drives, up to case, and segment lists agree. */
  lemma SameResultIff(a: string, b: string)
    requires Canonicalize(a).Some? && Canonicalize(b).Some?
    ensures Canonicalize(a) == Canonicalize(b)
       <==> SameUpToCase(a[0], b[0]) && Kept(Segments(a[3..])) == Kept(Segments(b[3..]))
  {
    MeaningPreserved(a);
    MeaningPreserved(b);
  }

  lemma {:induction false} KeptOfKept(segs: seq<string>)
    requires "." !in segs
    ensures Kept(segs) == segs
  {
    if segs != [] {
      KeptOfKept(segs[1..]);
      assert segs == [segs[0]] + segs[1..];
    }
  }

  predicate IsCanonical(path: string) {
    Canonicalize(path) == Some(path)
  }

  /** An accepted result is accepted again, unchanged. */
  lemma CanonicalizeIdempotent(raw: string)
    requires Canonicalize(raw).Some?
    ensures IsCanonical(Canonicalize(raw).value)
  {
    var c := Canonicalize(raw).value;
    var kept := Kept(Segments(raw[3..]));
    MeaningPreserved(raw);
    assert c[0] == UpperLetter(raw[0]);
    AcceptedIff(c);
    KeptOfKept(kept);
    assert UpperLetter(c[0]) == c[0];
  }

  /** The canonical paths: an upper-case drive, a colon, and clean segments joined by backslashes. */
  lemma CanonicalIff(path: string)
    ensures IsCanonical(path)
       <==> && IsDriveRooted(path) && 'A' <= path[0] <= 'Z'
            && (forall seg :: seg in Segments(path[3..]) ==> IsClean(seg))
            && path == Render(path[0], Segments(path[3..]))
  {
    AcceptedIff(path);
    if IsCanonical(path) {
      MeaningPreserved(path);
      assert path[0] == Render(UpperLetter(path[0]), Kept(Segments(path[3..])))[0];
    } else if IsDriveRooted(path) && 'A' <= path[0] <= 'Z'
              && (forall seg :: seg in Segments(path[3..]) ==> IsClean(seg)) {
      assert !IsClean(".");
      KeptOfKept(Segments(path[3..]));
    }
  }

  // ---------- the methods of WindowsPathRules ----------

  method ContainsTraversalSegment(path: string) returns (found: bool)
    ensures found <==> ContainsTraversal(path)
  {
    var segments := Segments(path);
    for i := 0 to |segments|
      invariant ".." !in segments[..i]
    {
      if segments[i] == ".." {
        return true;
      }
    }
    assert segments[..|segments|] == segments;
    return false;
  }

  lemma KeptStep(segs: seq<string>, i: nat)
    requires i < |segs|
    ensures Kept(segs[..i + 1]) == Kept(segs[..i]) + if segs[i] == "." then [] else [segs[i]]
  {
    if i > 0 {
      KeptStep(segs[1..], i - 1);
      assert segs[..i + 1][1..] == segs[1..][..i] && segs[..i][1..] == segs[1..][..i - 1];
    }
  }

  method TryCanonicalize(raw: string) returns (ok: bool, canonicalPath: string)
    ensures ok <==> Canonicalize(raw).Some?
    ensures canonicalPath == if ok then Canonicalize(raw).value else ""
  {
    canonicalPath := "";
    if IsBlank(raw) || !IsDriveRooted(raw) {
      return false, "";
    }
    var traversal := ContainsTraversalSegment(raw);
    if traversal {
      return false, "";
    }
    var segments := Segments(raw[3..]);
    var cleanSegments: seq<string> := [];
    for i := 0 to |segments|
      invariant Acceptable(segments[..i])
      invariant cleanSegments == Kept(segments[..i])
    {
      var segment := segments[i];
      KeptStep(segments, i);
      if segment == "." {
        continue;
      }
      if HasInvalidChar(segment) || segment[|segment| - 1] == '.' || segment[|segment| - 1] == ' ' {
        assert segment in segments && !IsClean(segment);
        return false, "";
      }
      cleanSegments := cleanSegments + [segment];
    }
    assert segments[..|segments|] == segments;
    var root := [UpperLetter(raw[0])] + ":\\";
    canonicalPath := if |cleanSegments| == 0 then root else root + Join(cleanSegments);
    assert root + "" == root;
    return true, canonicalPath;
  }

  // ---------- PathValidator ----------

  datatype DriveClass = Fixed | Removable | Network | UnknownDrive

  datatype PathRejection = Malformed | Traversal | UncOrNetworkPath | RemovableDrive | UnsupportedDrive

  function Validate(raw: string, classify: string -> DriveClass): Result<string, PathRejection> {
    if IsBlank(raw) then Err(Malformed)
    else if IsUncOrDeviceLiteral(raw) then Err(UncOrNetworkPath)
    else if ContainsTraversal(raw) then Err(Traversal)
    else
      match Canonicalize(raw)
      case None => Err(Malformed)
      case Some(path) =>
        match classify(path[..3])
        case Fixed => Ok(path)
        case Network => Err(UncOrNetworkPath)
        case Removable => Err(RemovableDrive)
        case UnknownDrive => Err(UnsupportedDrive)
  }

  /** A path is accepted exactly when it canonicalizes and its drive is positively a fixed one. */
  lemma ValidateIff(raw: string, classify: string -> DriveClass)
    ensures Validate(raw, classify).Ok? <==> Canonicalize(raw).Some? && classify([UpperLetter(raw[0])] + ":\\").Fixed?
    ensures Validate(raw, classify).Ok? ==> Validate(raw, classify).value == Canonicalize(raw).value
  {
    if Canonicalize(raw).Some? {
      MeaningPreserved(raw);
    }
  }

  /** The root of a drive, for a letter of either case. */
  predicate IsRootOf(root: string, letter: char) {
    |root| == 3 && IsCapitalOf(root[0], letter) && root[1] == ':' && root[2] == '\\'
  }

  /**
   * Why a path is rejected, reason by reason: the root of a path that canonicalizes is that of its drive,
   * and each class of drive but the fixed ones has its own reason; before that, two separators at the
   * start, then a segment of two dots, then anything else that does not canonicalize.
   */
  lemma RejectedIff(raw: string, root: string, classify: string -> DriveClass)
    requires Canonicalize(raw).Some? ==> IsRootOf(root, raw[0])
    ensures var twoSeparators := |raw| >= 2 && raw[0] in {'\\', '/'} && raw[1] in {'\\', '/'};
            var accepted := Canonicalize(raw).Some?;
            && (Validate(raw, classify) == Err(UncOrNetworkPath)
                <==> (twoSeparators || (accepted && classify(root).Network?)))
            && (Validate(raw, classify) == Err(Traversal)
                <==> (!twoSeparators && ".." in Segments(raw)))
            && (Validate(raw, classify) == Err(RemovableDrive) <==> (accepted && classify(root).Removable?))
            && (Validate(raw, classify) == Err(UnsupportedDrive) <==> (accepted && classify(root).UnknownDrive?))
            && (Validate(raw, classify) == Err(Malformed)
                <==> (!accepted && !twoSeparators && ".." !in Segments(raw)))
  {
    TestsInOrder(raw);
    if Canonicalize(raw).Some? {
      RootOfCanonical(raw, root);
    }
    hide Canonicalize;
    hide IsBlank;
    hide Segments;
    hide IsRootOf;
    assert ContainsTraversal(raw) <==> ".." in Segments(raw);
  }

  lemma RootOfCanonical(raw: string, root: string)
    requires Canonicalize(raw).Some? && IsRootOf(root, raw[0])
    ensures root == Canonicalize(raw).value[..3]
  {
    MeaningPreserved(raw);
  }

  lemma {:induction false} SegmentCharacters(s: string, seg: string)
    requires seg in Segments(s)
    ensures forall c :: c in seg ==> c in s
    decreases |s|
  {
    if IsSeparator(s[0]) {
      SegmentCharacters(s[1..], seg);
    } else if seg in Segments(s[RunLength(s)..]) {
      SegmentCharacters(s[RunLength(s)..], seg);
    }
  }

  /** What canonicalizes passes the tests before, and two separators are not blank. */
  lemma TestsInOrder(raw: string)
    ensures Canonicalize(raw).Some? ==>
              |raw| >= 3 && !IsBlank(raw) && !IsUncOrDeviceLiteral(raw) && !ContainsTraversal(raw)
    ensures IsUncOrDeviceLiteral(raw) || ContainsTraversal(raw) ==> !IsBlank(raw)
  {
    if ContainsTraversal(raw) {
      SegmentCharacters(raw, "..");
      assert '.' in "..";
    }
    hide Segments;
    if IsUncOrDeviceLiteral(raw) {
      assert raw[0] in raw;
    }
  }

  /**
   * A path accepted at submission re-validates later to itself or is rejected for its drive, and
   * re-validates to itself while its drive is still classified as fixed.
   */
  lemma RevalidationKeepsThePath(raw: string, before: string -> DriveClass, later: string -> DriveClass)
    requires Validate(raw, before).Ok?
    ensures var path := Validate(raw, before).value;
            && |path| >= 3
            && (Validate(path, later) == Ok(path) <==> later(path[..3]).Fixed?)
            && (Validate(path, later).Ok? ==> Validate(path, later).value == path)
  {
    var path := Validate(raw, before).value;
    ValidateIff(raw, before);
    MeaningPreserved(raw);
    CanonicalizeIdempotent(raw);
    ValidateIff(path, later);
    assert UpperLetter(path[0]) == path[0];
    assert path[..3] == [path[0]] + ":\\";
  }
}
