/** Where recordings may be written and how they are named to clients (src/media-session-service.ts). A
    normalized absolute path is the sequence of its segments. */
module RecordingPaths {
  import opened Prelude
  import opened PercentEncoding

  datatype PathError = OutsideRoot | InvalidPath | NotOwned

  // ----- strings and segments

  predicate Contains(s: string, c: char) {
    exists i :: 0 <= i < |s| && s[i] == c
  }

  function ToSlashes(s: string): (r: string)
    ensures |r| == |s| && forall i :: 0 <= i < |s| ==> r[i] == if s[i] == '\\' then '/' else s[i]
  {
    seq(|s|, i requires 0 <= i < |s| => if s[i] == '\\' then '/' else s[i])
  }

  function Split(s: string): (r: seq<string>)
    ensures r != []
  {
    if s == "" then [""]
    else
      var rest := Split(s[1..]);
      if s[0] == '/' then [""] + rest else [[s[0]] + rest[0]] + rest[1..]
  }

  function Join(segments: seq<string>): string {
    if segments == [] then "" else if |segments| == 1 then segments[0] else segments[0] + "/" + Join(segments[1..])
  }

  predicate IsAbsolute(s: string) {
    s != "" && s[0] == '/'
  }

  function StripSlashes(s: string): string {
    if IsAbsolute(s) then StripSlashes(s[1..]) else s
  }

  /** A name that can stand in a normalized path. */
  predicate Clean(segment: string) {
    segment != "" && segment != "." && segment != ".." && !Contains(segment, '/')
  }

  predicate AllClean(segments: seq<string>) {
    forall i :: 0 <= i < |segments| ==> Clean(segments[i])
  }

  predicate NoneContains(segments: seq<string>, c: char) {
    forall i :: 0 <= i < |segments| ==> !Contains(segments[i], c)
  }

  lemma {:induction false} SplitPiece(segment: string, rest: string)
    requires !Contains(segment, '/')
    ensures Split(segment + "/" + rest) == [segment] + Split(rest)
    decreases |segment|
  {
    var s := segment + "/" + rest;
    if segment == "" {
      assert s[1..] == rest;
      return;
    }
    assert segment[0] != '/';
    assert forall i :: 0 <= i < |segment| - 1 ==> segment[1..][i] == segment[i + 1];
    SplitPiece(segment[1..], rest);
    assert s[1..] == segment[1..] + "/" + rest;
    assert segment == [segment[0]] + segment[1..];
  }

  lemma {:induction false} SplitLast(segment: string)
    requires !Contains(segment, '/')
    ensures Split(segment) == [segment]
    decreases |segment|
  {
    if segment == "" { return; }
    assert segment[0] != '/';
    assert forall i :: 0 <= i < |segment| - 1 ==> segment[1..][i] == segment[i + 1];
    SplitLast(segment[1..]);
    assert segment == [segment[0]] + segment[1..];
  }

  lemma {:induction false} SplitOfJoin(segments: seq<string>)
    requires segments != [] && NoneContains(segments, '/')
    ensures Split(Join(segments)) == segments
    decreases |segments|
  {
    if |segments| == 1 {
      SplitLast(segments[0]);
      return;
    }
    SplitOfJoin(segments[1..]);
    SplitPiece(segments[0], Join(segments[1..]));
    assert segments[0] + "/" + Join(segments[1..]) == Join(segments);
  }

  lemma {:induction false} SplitHasNoSlash(s: string)
    ensures NoneContains(Split(s), '/')
    ensures forall c :: !Contains(s, c) ==> NoneContains(Split(s), c)
    decreases |s|
  {
    if s == "" { return; }
    SplitHasNoSlash(s[1..]);
    forall c | !Contains(s, c)
      ensures s[0] != c && !Contains(s[1..], c)
    {
      assert forall i :: 0 <= i < |s| ==> s[i] != c;
    }
  }

  // ----- path.resolve and path.relative

  function Apply(stack: seq<string>, part: string): seq<string> {
    if part == "" || part == "." then stack
    else if part == ".." then if stack == [] then [] else stack[..|stack| - 1]
    else stack + [part]
  }

  function Normalize(stack: seq<string>, parts: seq<string>): seq<string>
    decreases |parts|
  {
    if parts == [] then stack else Normalize(Apply(stack, parts[0]), parts[1..])
  }

  function Resolve(base: seq<string>, p: string): seq<string> {
    Normalize(if IsAbsolute(p) then [] else base, Split(p))
  }

  function Common(a: seq<string>, b: seq<string>): (k: nat)
    ensures k <= |a| && k <= |b| && a[..k] == b[..k]
    ensures k < |a| && k < |b| ==> a[k] != b[k]
  {
    if a == [] || b == [] || a[0] != b[0] then 0
    else
      var k := Common(a[1..], b[1..]);
      assert a[..k + 1] == [a[0]] + a[1..][..k] && b[..k + 1] == [b[0]] + b[1..][..k];
      k + 1
  }

  function Ups(n: nat): (r: seq<string>)
    ensures |r| == n && forall i :: 0 <= i < n ==> r[i] == ".."
  {
    seq(n, _ => "..")
  }

  function Relative(from: seq<string>, to: seq<string>): seq<string> {
    var k := Common(from, to);
    Ups(|from| - k) + to[k..]
  }

  /** The absolute path as a string. */
  function Render(segments: seq<string>): string {
    "/" + Join(segments)
  }

  lemma {:induction false} NormalizeIsClean(stack: seq<string>, parts: seq<string>)
    requires AllClean(stack) && NoneContains(parts, '/')
    ensures AllClean(Normalize(stack, parts))
    decreases |parts|
  {
    if parts == [] { return; }
    assert !Contains(parts[0], '/');
    NormalizeIsClean(Apply(stack, parts[0]), parts[1..]);
  }

  lemma {:induction false} NormalizeAvoids(stack: seq<string>, parts: seq<string>, c: char)
    requires NoneContains(stack, c) && NoneContains(parts, c)
    ensures NoneContains(Normalize(stack, parts), c)
    decreases |parts|
  {
    if parts == [] { return; }
    NormalizeAvoids(Apply(stack, parts[0]), parts[1..], c);
  }

  lemma {:induction false} NormalizeClean(stack: seq<string>, parts: seq<string>)
    requires AllClean(parts)
    ensures Normalize(stack, parts) == stack + parts
    decreases |parts|
  {
    if parts == [] {
      assert stack + parts == stack;
      return;
    }
    NormalizeClean(stack + [parts[0]], parts[1..]);
    assert stack + parts == (stack + [parts[0]]) + parts[1..];
  }

  // ----- what resolving means

  lemma {:induction false} NormalizeConcat(stack: seq<string>, a: seq<string>, b: seq<string>)
    ensures Normalize(stack, a + b) == Normalize(Normalize(stack, a), b)
    decreases |a|
  {
    if a == [] {
      assert a + b == b;
      return;
    }
    NormalizeConcat(Apply(stack, a[0]), a[1..], b);
    assert (a + b)[1..] == a[1..] + b;
  }

  lemma Behind<T>(a: seq<T>, b: seq<T>)
    requires a != []
    ensures (a + b)[0] == a[0] && (a + b)[1..] == a[1..] + b
  {
  }

  lemma {:induction false} SplitConcat(a: string, b: string)
    ensures Split(a + "/" + b) == Split(a) + Split(b)
    decreases |a|
  {
    var s := a + "/" + b;
    if a == "" {
      assert s[1..] == b;
      return;
    }
    SplitConcat(a[1..], b);
    assert s[1..] == a[1..] + "/" + b && s[0] == a[0];
    SplitsBehind(s, a, b);
  }

  lemma SplitsBehind(s: string, a: string, b: string)
    requires a != "" && s != "" && s[0] == a[0] && Split(s[1..]) == Split(a[1..]) + Split(b)
    ensures Split(s) == Split(a) + Split(b)
  {
    var x, y := Split(a[1..]), Split(b);
    Behind(x, y);
    if a[0] == '/' {
      assert [""] + (x + y) == [""] + x + y;
      return;
    }
    assert [[a[0]] + x[0]] + (x[1..] + y) == [[a[0]] + x[0]] + x[1..] + y;
  }

  /** Resolving walks the tree: a path is followed step by step; an absolute one from the top. */
  lemma ResolveWalks(base: seq<string>, a: string, b: string)
    requires !IsAbsolute(b)
    ensures a != "" ==> Resolve(base, a + "/" + b) == Resolve(Resolve(base, a), b)
    ensures Resolve(base, "/" + b) == Resolve([], b)
  {
    SplitConcat(a, b);
    if a != "" { NormalizeConcat(if IsAbsolute(a) then [] else base, Split(a), Split(b)); }
    SplitConcat("", b);
    assert "" + "/" + b == "/" + b;
    assert Split("") + Split(b) == [""] + Split(b);
    assert ([""] + Split(b))[1..] == Split(b);
  }

  /** One step: nothing and a dot stay, two dots go up, though not above the top, and a name goes down. */
  lemma ResolveOneStep(base: seq<string>, name: string)
    requires Clean(name)
    ensures Resolve(base, "") == base && Resolve(base, ".") == base
    ensures Resolve(base, "..") == if base == [] then [] else base[..|base| - 1]
    ensures Resolve(base, name) == base + [name]
  {
    SplitLast("");
    SplitLast(".");
    SplitLast("..");
    ResolveOne(base, name);
    assert [""][1..] == [] && ["."][1..] == [] && [".."][1..] == [];
  }

  // ----- the recordings root

  /** recordingsRootPath: the configured directory, resolved against the working directory. */
  function Root(workingDirectory: seq<string>, configured: string): seq<string> {
    var slashed := StripTrailing(ToSlashes(configured));
    Resolve(workingDirectory, if slashed == "" then "/" else slashed)
  }

  function StripTrailing(s: string): string {
    if s != "" && s[|s| - 1] == '/' then StripTrailing(s[..|s| - 1]) else s
  }

  // ----- which segments a client may name

  function NonEmpty(parts: seq<string>): seq<string> {
    if parts == [] then [] else (if parts[0] == "" then [] else [parts[0]]) + NonEmpty(parts[1..])
  }

  predicate SafeName(decoded: string) {
    decoded != "." && decoded != ".." && !Contains(decoded, '/') && !Contains(decoded, '\\')
  }

  function DecodeAll(parts: seq<string>): Option<seq<string>> {
    if parts == [] then Some([])
    else
      var (first, rest) := (Decode(parts[0]), DecodeAll(parts[1..]));
      if first.None? || rest.None? then None else Some([first.value] + rest.value)
  }

  function SafeSegments(p: string): Result<seq<string>, PathError> {
    var decoded := DecodeAll(NonEmpty(Split(StripSlashes(ToSlashes(p)))));
    if decoded.None? || decoded.value == [] || exists i :: 0 <= i < |decoded.value| && !SafeName(decoded.value[i])
    then Err(InvalidPath) else Ok(decoded.value)
  }

  /** The names that belong to this gateway: one segment, the prefix and something after it. */
  predicate Owns(prefix: string, segments: seq<string>) {
    |segments| == 1 && prefix <= segments[0] && |segments[0]| > |prefix|
  }

  /** An empty prefix counts as none. */
  function RequireOwned(prefix: string, p: string): Option<PathError> {
    if prefix == "" then None
    else
      match SafeSegments(p)
      case Err(e) => Some(e)
      case Ok(segments) => if Owns(prefix, segments) then None else Some(NotOwned)
  }

  predicate Inside(relative: string) {
    relative != "" && !(".." <= relative) && !IsAbsolute(relative)
  }

  /** Where a recording goes: the segments of the file, or why it is refused. */
  function RecordingFilePath(root: seq<string>, prefix: string, requested: string): Result<seq<string>, PathError> {
    var resolved := Resolve(root, ToSlashes(requested));
    var relative := Join(Relative(root, resolved));
    if !Inside(relative) then Err(OutsideRoot)
    else
      var refusal := RequireOwned(prefix, relative);
      if refusal.Some? then Err(refusal.value) else Ok(resolved)
  }

  function RelativeRecordingPath(root: seq<string>, filePath: string): string {
    var normalized := ToSlashes(filePath);
    if IsAbsolute(normalized) then
      var relative := Join(Relative(root, Resolve([], normalized)));
      if Inside(relative) then relative else StripSlashes(normalized)
    else StripSlashes(normalized)
  }

  function EncodeAll(segments: seq<string>): seq<string> {
    if segments == [] then [] else [Encode(segments[0])] + EncodeAll(segments[1..])
  }

  /** The recording's part of downloadPath. */
  function EncodeRecordingPath(p: string): Result<string, PathError> {
    match SafeSegments(p)
    case Err(e) => Err(e)
    case Ok(segments) => Ok(Join(EncodeAll(segments)))
  }

  // ----- every accepted path is inside the root

  lemma JoinStarts(segments: seq<string>)
    requires AllClean(segments)
    ensures Join(segments) == "" <==> segments == []
    ensures !IsAbsolute(Join(segments))
    ensures segments != [] ==> (".." <= Join(segments) <==> ".." <= segments[0])
  {
    if segments == [] { return; }
    var s, j := segments[0], Join(segments);
    assert Clean(s);
    assert s[0] != '/';
    assert s <= j && (|j| > |s| ==> j[|s|] == '/');
    if |s| == 1 { assert s == [s[0]] && s[0] != '.'; }
  }

  lemma JoinOfUps(n: nat, rest: seq<string>)
    requires n > 0
    ensures ".." <= Join(Ups(n) + rest)
  {
    var segments := Ups(n) + rest;
    assert segments[0] == "..";
  }

  lemma RelativeInside(root: seq<string>, path: seq<string>)
    requires AllClean(root) && AllClean(path)
    ensures Inside(Join(Relative(root, path))) <==> root < path && !(".." <= path[|root|])
    ensures root <= path ==> Relative(root, path) == path[|root|..]
  {
    var k := Common(root, path);
    if k < |root| {
      JoinOfUps(|root| - k, path[k..]);
      return;
    }
    assert Relative(root, path) == path[k..];
    assert AllClean(path[k..]);
    JoinStarts(path[k..]);
  }

  lemma ResolvedIsClean(root: seq<string>, requested: string)
    requires AllClean(root)
    ensures AllClean(Resolve(root, requested))
  {
    SplitHasNoSlash(requested);
    NormalizeIsClean(if IsAbsolute(requested) then [] else root, Split(requested));
  }

  /** Without a prefix a path is accepted exactly when it resolves strictly below the root and its first name
      there does not begin with two dots; whatever mix of dots, slashes and backslashes was asked for. */
  lemma AcceptedIffUnderRoot(root: seq<string>, requested: string)
    requires AllClean(root)
    ensures var resolved := Resolve(root, ToSlashes(requested));
            && AllClean(resolved)
            && RecordingFilePath(root, "", requested)
               == if root < resolved && !(".." <= resolved[|root|]) then Ok(resolved) else Err(OutsideRoot)
  {
    ResolvedIsClean(root, ToSlashes(requested));
    RelativeInside(root, Resolve(root, ToSlashes(requested)));
  }

  /** The file is directly below the root under a name that does not begin with two dots and whose decoded form
      is a plain name that carries the prefix and something after it. */
  ghost predicate OwnedFile(root: seq<string>, prefix: string, file: seq<string>) {
    && root < file && |file| == |root| + 1 && !(".." <= file[|root|])
    && var name := Decode(file[|root|]);
    name.Some? && PlainName(name.value) && prefix < name.value
  }

  /** A name that stays where it is put. */
  predicate PlainName(name: string) {
    name != "." && name != ".." && '/' !in name && '\\' !in name
  }

  /** With a prefix a path is accepted exactly when it resolves to such a file. */
  lemma AcceptedIffOwned(root: seq<string>, prefix: string, requested: string)
    requires AllClean(root) && prefix != ""
    ensures var resolved := Resolve(root, ToSlashes(requested));
            && (RecordingFilePath(root, prefix, requested).Ok? <==> OwnedFile(root, prefix, resolved))
            && (RecordingFilePath(root, prefix, requested).Ok? ==> RecordingFilePath(root, prefix, requested).value == resolved)
  {
    var resolved := Resolve(root, ToSlashes(requested));
    ResolvedIsClean(root, ToSlashes(requested));
    RelativeInside(root, resolved);
    if !(root < resolved) || ".." <= resolved[|root|] { return; }
    NoBackslashBelow(root, requested);
    OwnedBelow(prefix, resolved[|root|..]);
    if |resolved| == |root| + 1 {
      assert resolved[|root|..] == [resolved[|root|]];
      if Decode(resolved[|root|]).Some? { SafeIsPlain(Decode(resolved[|root|]).value); }
    }
  }

  /** A request that climbs out of the root, by slashes of either kind, is refused unless it comes back in. */
  lemma ClimbingOutIsRefused(root: seq<string>, name: string)
    requires AllClean(root) && root != [] && Clean(name) && !Contains(name, '\\') && name != root[|root| - 1]
    ensures RecordingFilePath(root, "", "../" + name) == Err(OutsideRoot) && RecordingFilePath(root, "", "..\\" + name) == Err(OutsideRoot)
    ensures RecordingFilePath(root, "", "..") == Err(OutsideRoot) && RecordingFilePath(root, "", "") == Err(OutsideRoot)
  {
    ClimbSlashes(name);
    ClimbLeads(root, name);
    ResolveOneStep(root, name);
    AcceptedIffUnderRoot(root, "../" + name);
    AcceptedIffUnderRoot(root, "..\\" + name);
    AcceptedIffUnderRoot(root, "..");
    AcceptedIffUnderRoot(root, "");
  }

  lemma ClimbSlashes(name: string)
    requires !Contains(name, '\\')
    ensures ToSlashes("../" + name) == "../" + name && ToSlashes("..\\" + name) == "../" + name
    ensures ToSlashes("..") == ".." && ToSlashes("") == ""
  {
  }

  lemma ClimbLeads(root: seq<string>, name: string)
    requires root != [] && Clean(name) && name != root[|root| - 1]
    ensures !(root <= Resolve(root, "../" + name))
  {
    var parent := root[..|root| - 1];
    assert name[0] != '/' && ".." + "/" + name == "../" + name;
    ResolveWalks(root, "..", name);
    ResolveOneStep(root, name);
    ResolveOneStep(parent, name);
    assert (parent + [name])[|root| - 1] == name;
  }

  /** The names in a path as a client gives it are accepted exactly when there are some, all of them decode, and each of
      them decodes to a plain name; these are what the caller gets. */
  lemma SafeSegmentsArePlain(p: string)
    ensures var parts := NonEmpty(Split(StripSlashes(ToSlashes(p))));
            && (SafeSegments(p).Ok? <==> parts != [] && forall i :: 0 <= i < |parts| ==> Decode(parts[i]).Some? && PlainName(Decode(parts[i]).value))
            && (SafeSegments(p).Ok? ==> SafeSegments(p).value != [] && forall i :: 0 <= i < |SafeSegments(p).value| ==> PlainName(SafeSegments(p).value[i]))
  {
    var parts := NonEmpty(Split(StripSlashes(ToSlashes(p))));
    DecodeAllIff(parts);
    if DecodeAll(parts).None? { return; }
    DecodeAllLength(parts);
    var names := DecodeAll(parts).value;
    forall i | 0 <= i < |names|
      ensures Decode(parts[i]) == Some(names[i]) && (SafeName(names[i]) <==> PlainName(names[i]))
    {
      SafeIsPlain(names[i]);
    }
  }

  lemma SafeIsPlain(name: string)
    ensures SafeName(name) <==> PlainName(name)
  {
    assert '/' in name <==> Contains(name, '/');
    assert '\\' in name <==> Contains(name, '\\');
  }

  lemma {:induction false} DecodeAllIff(parts: seq<string>)
    ensures DecodeAll(parts).Some? <==> forall i :: 0 <= i < |parts| ==> Decode(parts[i]).Some?
    decreases |parts|
  {
    if parts == [] { return; }
    DecodeAllIff(parts[1..]);
    assert parts == [parts[0]] + parts[1..];
  }

  lemma OneSegment(name: string)
    requires Clean(name) && !Contains(name, '\\')
    ensures Join([name]) == name
    ensures SafeSegments(name) == if Decode(name).Some? && SafeName(Decode(name).value) then Ok([Decode(name).value]) else Err(InvalidPath)
  {
    SegmentsOfJoin([name]);
    assert [name][1..] == [] && DecodeAll([]) == Some([]);
    if Decode(name).None? { return; }
    var decoded := Decode(name).value;
    assert DecodeAll([name]) == Some([decoded] + []);
    assert [decoded] + [] == [decoded] && [decoded][0] == decoded;
  }

  lemma ManySegments(prefix: string, below: seq<string>)
    requires |below| > 1 && AllClean(below) && NoneContains(below, '\\') && SafeSegments(Join(below)).Ok?
    ensures !Owns(prefix, SafeSegments(Join(below)).value)
  {
    SegmentsOfJoin(below);
    DecodeAllLength(below);
  }

  lemma OwnedBelow(prefix: string, below: seq<string>)
    requires prefix != "" && below != [] && AllClean(below) && NoneContains(below, '\\')
    ensures RequireOwned(prefix, Join(below)).None?
       <==> |below| == 1 && Decode(below[0]).Some? && SafeName(Decode(below[0]).value) && Owns(prefix, [Decode(below[0]).value])
  {
    if |below| > 1 {
      if SafeSegments(Join(below)).Ok? { ManySegments(prefix, below); }
      return;
    }
    assert below == [below[0]];
    OneSegment(below[0]);
  }

  /** A name below the root that is refused for its two dots. */
  lemma DottedNameRefused()
    ensures var root, file := ["rec"], ["rec", "..foo"];
            Resolve(root, ToSlashes("..foo")) == file && root < file && RecordingFilePath(root, "", "..foo") == Err(OutsideRoot)
  {
    var root, file := ["rec"], ["rec", "..foo"];
    assert ToSlashes("..foo") == "..foo";
    SplitLast("..foo");
    ResolveOne(root, "..foo");
    assert file == root + ["..foo"] && root < file && file[|root|] == "..foo";
    assert AllClean(root);
    AcceptedIffUnderRoot(root, "..foo");
    assert ".." <= "..foo";
  }

  lemma ResolveOne(root: seq<string>, name: string)
    requires Clean(name)
    ensures Resolve(root, name) == root + [name]
  {
    SplitLast(name);
    NormalizeClean(root, [name]);
  }

  /** What lies below the root comes from the request, which has no backslash left. */
  lemma NoBackslashBelow(root: seq<string>, requested: string)
    requires root < Resolve(root, ToSlashes(requested))
    ensures NoneContains(Resolve(root, ToSlashes(requested))[|root|..], '\\')
  {
    var p := ToSlashes(requested);
    assert !Contains(p, '\\');
    SplitHasNoSlash(p);
    if IsAbsolute(p) {
      NormalizeAvoids([], Split(p), '\\');
    } else {
      NormalizeAppends(root, Split(p), |root|);
    }
  }

  /** Everything that normalizing puts above position n is one of the parts. */
  lemma {:induction false} NormalizeAppends(stack: seq<string>, parts: seq<string>, n: nat)
    requires n <= |stack| ==> NoneContains(stack[n..], '\\')
    requires NoneContains(parts, '\\')
    ensures var r := Normalize(stack, parts); n <= |r| ==> NoneContains(r[n..], '\\')
    decreases |parts|
  {
    if parts == [] { return; }
    NormalizeAppends(Apply(stack, parts[0]), parts[1..], n);
  }

  lemma NonEmptyClean(parts: seq<string>)
    requires AllClean(parts)
    ensures NonEmpty(parts) == parts
  {
  }

  /** Splitting a clean relative path gives its segments back. */
  lemma SegmentsOfJoin(segments: seq<string>)
    requires segments != [] && AllClean(segments) && NoneContains(segments, '\\')
    ensures NonEmpty(Split(StripSlashes(ToSlashes(Join(segments))))) == segments
  {
    var j := Join(segments);
    JoinAvoids(segments, '\\');
    assert ToSlashes(j) == j;
    JoinStarts(segments);
    SplitOfJoin(segments);
    NonEmptyClean(segments);
  }

  lemma {:induction false} JoinAvoids(segments: seq<string>, c: char)
    requires NoneContains(segments, c) && c != '/'
    ensures !Contains(Join(segments), c)
    decreases |segments|
  {
    if |segments| <= 1 { return; }
    JoinAvoids(segments[1..], c);
    var a, b, j := segments[0], Join(segments[1..]), Join(segments);
    assert j == a + "/" + b;
    assert !Contains(a, c);
    assert forall i :: 0 <= i < |j| ==> j[i] == if i < |a| then a[i] else if i == |a| then '/' else b[i - |a| - 1];
  }

  lemma {:induction false} DecodeAllLength(parts: seq<string>)
    requires DecodeAll(parts).Some?
    ensures |DecodeAll(parts).value| == |parts|
    ensures forall i :: 0 <= i < |parts| ==> Decode(parts[i]) == Some(DecodeAll(parts).value[i])
    decreases |parts|
  {
    if parts == [] { return; }
    DecodeAllLength(parts[1..]);
  }

  // ----- the relative path

  lemma RelativeOfFile(root: seq<string>, file: seq<string>)
    requires AllClean(file) && AllClean(root) && root < file && !(".." <= file[|root|]) && NoneContains(file, '\\')
    ensures RelativeRecordingPath(root, Render(file)) == Join(file[|root|..])
  {
    JoinAvoids(file, '\\');
    assert ToSlashes(Render(file)) == Render(file);
    RenderResolves(file);
    RelativeInside(root, file);
  }

  lemma ResolveBelow(root: seq<string>, below: seq<string>)
    requires AllClean(below) && below != []
    ensures Resolve(root, Join(below)) == root + below
  {
    JoinStarts(below);
    SplitOfJoin(below);
    NormalizeClean(root, below);
  }

  /** The relative path of an accepted recording, resolved against the root again, is the recording's file. */
  lemma RelativePathRejoins(root: seq<string>, prefix: string, requested: string)
    requires AllClean(root) && NoneContains(root, '\\') && RecordingFilePath(root, prefix, requested).Ok?
    ensures var file := RecordingFilePath(root, prefix, requested).value;
            var relative := RelativeRecordingPath(root, Render(file));
            && relative == Join(file[|root|..]) && Resolve(root, relative) == file
  {
    var file := Resolve(root, ToSlashes(requested));
    AcceptedIsPlain(root, prefix, requested);
    RelativeOfFile(root, file);
    ResolveBelow(root, file[|root|..]);
    assert file == root + file[|root|..];
  }

  lemma AcceptedIsPlain(root: seq<string>, prefix: string, requested: string)
    requires AllClean(root) && NoneContains(root, '\\') && RecordingFilePath(root, prefix, requested).Ok?
    ensures var file := RecordingFilePath(root, prefix, requested).value;
            && file == Resolve(root, ToSlashes(requested)) && AllClean(file) && root < file && !(".." <= file[|root|])
            && NoneContains(file, '\\')
  {
    var file := Resolve(root, ToSlashes(requested));
    ResolvedIsClean(root, ToSlashes(requested));
    RelativeInside(root, file);
    NoBackslashBelow(root, requested);
    PrefixAvoids(root, file, '\\');
  }

  lemma PrefixAvoids(root: seq<string>, file: seq<string>, c: char)
    requires root <= file && NoneContains(root, c) && NoneContains(file[|root|..], c)
    ensures NoneContains(file, c)
  {
    forall i | 0 <= i < |file|
      ensures !Contains(file[i], c)
    {
      if i < |root| {
        assert file[i] == root[i];
      } else {
        assert file[i] == file[|root|..][i - |root|];
      }
    }
  }

  /** A path elsewhere is passed on as it is, without its leading slash. */
  lemma ForeignPathIsKept(root: seq<string>, file: seq<string>)
    requires AllClean(file) && AllClean(root) && file != [] && NoneContains(file, '\\') && !(root < file && !(".." <= file[|root|]))
    ensures RelativeRecordingPath(root, Render(file)) == Join(file)
  {
    JoinAvoids(file, '\\');
    assert ToSlashes(Render(file)) == Render(file);
    RenderResolves(file);
    RelativeInside(root, file);
    JoinStarts(file);
    assert Render(file)[1..] == Join(file);
    assert StripSlashes(Join(file)) == Join(file);
  }

  lemma RenderResolves(file: seq<string>)
    requires file != [] && AllClean(file)
    ensures IsAbsolute(Render(file)) && Resolve([], Render(file)) == file
  {
    var s := Render(file);
    assert s[1..] == Join(file);
    SplitOfJoin(file);
    assert Split(s) == [""] + file;
    assert Split(s)[1..] == file;
    NormalizeClean([], file);
    assert [] + file == file;
  }

  /** The root never contains a backslash, because the configured path has none left. */
  lemma RootIsClean(workingDirectory: seq<string>, configured: string)
    requires AllClean(workingDirectory) && NoneContains(workingDirectory, '\\')
    ensures AllClean(Root(workingDirectory, configured)) && NoneContains(Root(workingDirectory, configured), '\\')
  {
    var slashed := StripTrailing(ToSlashes(configured));
    StripTrailingPrefix(ToSlashes(configured));
    var p := if slashed == "" then "/" else slashed;
    assert !Contains(p, '\\');
    SplitHasNoSlash(p);
    NormalizeIsClean(if IsAbsolute(p) then [] else workingDirectory, Split(p));
    NormalizeAvoids(if IsAbsolute(p) then [] else workingDirectory, Split(p), '\\');
  }

  /** The configured directory is taken as it is named: an absolute one from the top, another from the working directory,
      and slashes behind it do not matter. */
  lemma RootIsAsConfigured(workingDirectory: seq<string>, segments: seq<string>)
    requires segments != [] && AllClean(segments) && NoneContains(segments, '\\')
    ensures Root(workingDirectory, Render(segments)) == segments && Root(workingDirectory, Render(segments) + "/") == segments
    ensures Root(workingDirectory, Join(segments)) == workingDirectory + segments
  {
    JoinAvoids(segments, '\\');
    JoinEnds(segments);
    JoinStarts(segments);
    var joined := Join(segments);
    assert ToSlashes(joined) == joined && ToSlashes(Render(segments)) == Render(segments);
    assert ToSlashes(Render(segments) + "/") == Render(segments) + "/";
    assert (Render(segments) + "/")[..|Render(segments)|] == Render(segments);
    assert StripTrailing(Render(segments)) == Render(segments) && StripTrailing(joined) == joined;
    RenderResolves(segments);
    ResolveBelow(workingDirectory, segments);
  }

  lemma {:induction false} JoinEnds(segments: seq<string>)
    requires segments != [] && AllClean(segments)
    ensures Join(segments) != "" && Join(segments)[|Join(segments)| - 1] != '/'
    decreases |segments|
  {
    var last := segments[|segments| - 1];
    assert Clean(last) && !Contains(last, '/');
    if |segments| == 1 { return; }
    JoinEnds(segments[1..]);
  }

  lemma {:induction false} StripTrailingPrefix(s: string)
    ensures StripTrailing(s) <= s
    decreases |s|
  {
    if s != "" && s[|s| - 1] == '/' { StripTrailingPrefix(s[..|s| - 1]); }
  }

  // ----- the download path

  lemma {:induction false} DecodeOfEncodeAll(segments: seq<string>)
    ensures DecodeAll(EncodeAll(segments)) == Some(segments)
    ensures |EncodeAll(segments)| == |segments| && NoneContains(EncodeAll(segments), '/')
    decreases |segments|
  {
    hide Decode, Encode;
    if segments == [] { return; }
    DecodeOfEncodeAll(segments[1..]);
    DecodeOfEncode(segments[0]);
    EncodedIsSafe(segments[0]);
    assert segments == [segments[0]] + segments[1..];
  }

  /** What a client gets that splits the download path and decodes its segments. */
  function ReadDownloadPath(p: string): Option<seq<string>> {
    var encoded := EncodeRecordingPath(p);
    if encoded.Err? then None else DecodeAll(Split(encoded.value))
  }

  lemma ReadsSafeSegments(p: string)
    ensures ReadDownloadPath(p) == if SafeSegments(p).Ok? then Some(SafeSegments(p).value) else None
  {
    if SafeSegments(p).Err? { return; }
    var segments := SafeSegments(p).value;
    DecodeOfEncodeAll(segments);
    SplitOfJoin(EncodeAll(segments));
  }

  lemma {:induction false} DecodeAllPlain(segments: seq<string>)
    ensures DecodeAll(segments) == Some(segments) <==> NoneContains(segments, '%')
    decreases |segments|
  {
    if segments == [] { return; }
    DecodesToItself(segments[0]);
    assert '%' in segments[0] <==> Contains(segments[0], '%');
    DecodeAllPlain(segments[1..]);
    assert segments == [segments[0]] + segments[1..];
    assert NoneContains(segments, '%') <==> !Contains(segments[0], '%') && NoneContains(segments[1..], '%') by {
      assert forall i :: 0 < i < |segments| ==> segments[i] == segments[1..][i - 1];
    }
  }

  /** The download path of an accepted recording names the recording exactly when no name in it contains a
      percent sign; such a name is decoded first, so it is refused or names something else. */
  lemma DownloadPathNamesRecording(root: seq<string>, prefix: string, requested: string)
    requires AllClean(root) && RecordingFilePath(root, prefix, requested).Ok?
    ensures var below := RecordingFilePath(root, prefix, requested).value[|root|..];
            ReadDownloadPath(Join(below)) == Some(below) <==> NoneContains(below, '%')
  {
    var file := RecordingFilePath(root, prefix, requested).value;
    ResolvedIsClean(root, ToSlashes(requested));
    RelativeInside(root, file);
    NoBackslashBelow(root, requested);
    var below := file[|root|..];
    SegmentsOfJoin(below);
    ReadsSafeSegments(Join(below));
    DecodeAllPlain(below);
    assert forall i :: 0 <= i < |below| ==> Clean(below[i]) && !Contains(below[i], '\\');
  }

  /** An accepted name whose download path is that of another file. */
  lemma PercentNameIsMisread()
    ensures RecordingFilePath(["rec"], "", "a%41") == Ok(["rec", "a%41"]) && ReadDownloadPath("a%41") == Some(["aA"])
  {
    assert "a%41"[0] != '.';
    OneNameAccepted("a%41");
    PercentNamesDecode();
    assert SafeName("aA");
    OneNameReads("a%41");
  }

  /** An accepted name that has no download path. */
  lemma PercentNameIsRefused()
    ensures RecordingFilePath(["rec"], "", "100%") == Ok(["rec", "100%"]) && ReadDownloadPath("100%") == None
  {
    assert "100%"[0] != '.';
    OneNameAccepted("100%");
    PercentNamesDecode();
    OneNameReads("100%");
  }

  lemma OneNameReads(name: string)
    requires Clean(name) && !Contains(name, '\\')
    ensures var decoded := Decode(name);
            ReadDownloadPath(name) == if decoded.Some? && SafeName(decoded.value) then Some([decoded.value]) else None
  {
    OneSegment(name);
    ReadsSafeSegments(name);
  }

  lemma PercentNamesDecode()
    ensures Decode("a%41") == Some("aA") && Decode("100%") == None
  {
    assert "%41"[3..] == "" && DecodeHead("%41") == Some(('A', 3));
    assert Decode("%41") == Some(['A'] + "");
    assert "a%41"[1..] == "%41" && ['a'] + (['A'] + "") == "aA";
    assert DecodeHead("%") == None && Decode("%") == None;
    assert "100%"[1..] == "00%" && "00%"[1..] == "0%" && "0%"[1..] == "%";
    assert Decode("0%") == None;
    assert Decode("00%") == None;
  }

  lemma OneNameAccepted(name: string)
    requires Clean(name) && !Contains(name, '\\') && !(".." <= name)
    ensures RecordingFilePath(["rec"], "", name) == Ok(["rec", name])
  {
    var root := ["rec"];
    assert ToSlashes(name) == name && AllClean(root);
    ResolveOne(root, name);
    AcceptedIffUnderRoot(root, name);
    var file := root + [name];
    assert file == ["rec", name] && root < file && file[|root|] == name;
  }
}
