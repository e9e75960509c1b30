/** Skill authority: which paths an envelope covers, and what a chain of verified stages may change. */
module Skills {
  import opened Prelude
  import Identity

  datatype Operation = Read | Write | Execute | Network

  datatype Mode = ReadOnly | MutatingWithAuthority | ReadOnlyWithDisposableData

  datatype Authority = Authority(mode: Mode, allowedPaths: seq<string>, allowedOperations: set<Operation>)

  /** The parts between slashes; a text without slashes is one part. */
  function Segments(s: string): (parts: seq<string>)
    ensures |parts| >= 1
  {
    if '/' !in s then [s]
    else
      var k := IndexOf(s, '/');
      [s[..k]] + Segments(s[k + 1..])
  }

  /** A workspace-relative POSIX path without trailing slashes; none where the source raises. */
  function ScopePath(value: string): (path: Option<string>)
    ensures path.Some? ==> path.value != "" && path.value[0] != '/' && path.value <= value
  {
    if IsBlank(value) || '\\' in value || '\0' in value then None
    else if value[0] == '/' || ".." in Segments(value) then None
    else
      var stripped := StripSlashes(value);
      if stripped == "" then assert false; None else Some(stripped)
  }

  /** Exactly these paths are refused; the others only lose their trailing slashes. */
  lemma ScopePathIsExact(value: string)
    ensures ScopePath(value).None? <==>
      IsBlank(value) || '\\' in value || '\0' in value || value[0] == '/' || ".." in Segments(value)
    ensures ScopePath(value).Some? ==> ScopePath(value).value == StripSlashes(value)
  {
    if !IsBlank(value) && value[0] != '/' {
      StrippedKeepsFirst(value);
    }
  }

  lemma StrippedKeepsFirst(value: string)
    requires value != "" && value[0] != '/'
    ensures StripSlashes(value) != ""
  {
  }

  function Join(parts: seq<string>): string
    requires parts != []
  {
    if |parts| == 1 then parts[0] else parts[0] + "/" + Join(parts[1..])
  }

  /** The segments are the text taken apart at its slashes. */
  lemma {:induction false} SegmentsJoin(s: string)
    ensures Join(Segments(s)) == s
    ensures forall i :: 0 <= i < |Segments(s)| ==> '/' !in Segments(s)[i]
    decreases |s|
  {
    if '/' in s {
      var first, rest := SplitFirst(s);
      SegmentsJoin(rest);
      assert ([first] + Segments(rest))[1..] == Segments(rest);
    }
  }

  predicate StartsWith(s: string, prefix: string) {
    |prefix| <= |s| && s[..|prefix|] == prefix
  }

  predicate Covers(allowed: string, path: string) {
    allowed == "." || path == allowed || StartsWith(path, allowed + "/")
  }

  predicate CoveredBy(a: Authority, path: string) {
    exists i :: 0 <= i < |a.allowedPaths| && Covers(a.allowedPaths[i], path)
  }

  /** Whether an operation on a path is allowed; none where the path itself is refused. */
  function Allows(a: Authority, path: string, operation: Operation): Option<bool> {
    if operation !in a.allowedOperations then Some(false)
    else
      match ScopePath(path)
      case None => None
      case Some(normalized) => Some(CoveredBy(a, normalized))
  }

  predicate MayWrite(a: Authority, path: string) {
    Allows(a, path, Write) == Some(true)
  }

  lemma SplitFirst(s: string) returns (first: string, rest: string)
    requires '/' in s
    ensures '/' !in first && s == first + "/" + rest && Segments(s) == [first] + Segments(rest)
  {
    var k := IndexOf(s, '/');
    first, rest := s[..k], s[k + 1..];
  }

  lemma StartsAfterFirst(first: string, rest: string, other: string, tail: string)
    requires '/' !in first && '/' !in other
    ensures StartsWith(other + "/" + tail, first + "/" + rest) <==> first == other && StartsWith(tail, rest)
  {
    var prefix, path := first + "/" + rest, other + "/" + tail;
    if StartsWith(path, prefix) {
      var more := path[|prefix|..];
      assert path == prefix + more;
      assert prefix + more == first + ("/" + (rest + more)) && path == other + ("/" + tail);
      Identity.SplitAtMark(first, "/" + (rest + more), other, "/" + tail, '/');
      assert tail == ("/" + tail)[1..] == rest + more;
    }
    if first == other && StartsWith(tail, rest) {
      assert path[..|prefix|] == first + "/" + tail[..|rest|];
    }
  }

  /** For an allowed path the string test is a prefix test on whole path segments. */
  lemma {:induction false} CoverageIsBySegments(allowed: string, path: string)
    ensures path == allowed || StartsWith(path, allowed + "/") <==> Segments(allowed) <= Segments(path)
    decreases |allowed|
  {
    if '/' !in allowed {
      OneSegmentCovers(allowed, path);
    } else {
      var first, rest := SplitFirst(allowed);
      assert allowed + "/" == first + "/" + (rest + "/");
      if '/' in path {
        var other, tail := SplitFirst(path);
        CoverageIsBySegments(rest, tail);
        StartsAfterFirst(first, rest + "/", other, tail);
        SamePath(first, rest, other, tail);
        PrefixOfJoin(first, Segments(rest), other, Segments(tail));
      } else {
        if StartsWith(path, allowed + "/") {
          PrefixHasSlash(allowed, path);
        }
      }
    }
  }

  lemma SamePath(first: string, rest: string, other: string, tail: string)
    requires '/' !in first && '/' !in other
    ensures other + "/" + tail == first + "/" + rest <==> first == other && tail == rest
  {
    if other + "/" + tail == first + "/" + rest {
      assert other + "/" + tail == other + ("/" + tail);
      assert first + "/" + rest == first + ("/" + rest);
      Identity.SplitAtMark(first, "/" + rest, other, "/" + tail, '/');
      assert tail == ("/" + tail)[1..] && rest == ("/" + rest)[1..];
    }
  }

  lemma PrefixOfJoin(first: string, rest: seq<string>, other: string, tail: seq<string>)
    ensures [first] + rest <= [other] + tail <==> first == other && rest <= tail
  {
    if [first] + rest <= [other] + tail {
      assert ([first] + rest)[1..] == rest && ([other] + tail)[1..] == tail;
      assert ([other] + tail)[0] == other;
    }
  }

  lemma OneSegmentCovers(allowed: string, path: string)
    requires '/' !in allowed
    ensures path == allowed || StartsWith(path, allowed + "/") <==> [allowed] <= Segments(path)
  {
    if '/' in path {
      var other, tail := SplitFirst(path);
      StartsAfterFirst(allowed, "", other, tail);
      assert allowed + "/" == allowed + "/" + "";
      PrefixOfJoin(allowed, [], other, Segments(tail));
      assert [allowed] == [allowed] + [];
    } else {
      if StartsWith(path, allowed + "/") {
        PrefixHasSlash(allowed, path);
      }
      assert [allowed] <= [path] <==> [allowed][0] == [path][0];
    }
  }

  lemma PrefixHasSlash(allowed: string, path: string)
    requires StartsWith(path, allowed + "/")
    ensures '/' in path
  {
    assert path[|allowed|] == path[..|allowed + "/"|][|allowed|] == '/';
  }

  /** An envelope allows writing exactly what its allowed paths cover, segment by segment. */
  lemma MayWriteIsExact(a: Authority, path: string)
    ensures MayWrite(a, path) <==>
      && Write in a.allowedOperations && ScopePath(path).Some?
      && exists i :: 0 <= i < |a.allowedPaths| &&
           (a.allowedPaths[i] == "." || Segments(a.allowedPaths[i]) <= Segments(StripSlashes(path)))
  {
    hide Segments, ScopePath;
    ScopePathIsExact(path);
    forall i | 0 <= i < |a.allowedPaths|
      ensures Covers(a.allowedPaths[i], StripSlashes(path)) <==>
        a.allowedPaths[i] == "." || Segments(a.allowedPaths[i]) <= Segments(StripSlashes(path))
    {
      CoverageIsBySegments(a.allowedPaths[i], StripSlashes(path));
    }
  }

  // Workspace baselines.

  datatype FileState = FileState(kind: int, executable: bool, content: string)

  /** What is recorded of a path: its index entries and its working file. */
  datatype PathState = PathState(index: seq<string>, working: Option<FileState>)

  /** A captured workspace: where it is, its HEAD, and the state of every listed path. */
  datatype Baseline = Baseline(root: string, head: Revision, states: map<string, PathState>)

  datatype AuthorityFault = Expired | OtherWorkspace | WritesForbidden | PathRefused | PathsExceeded

  function StateOf(b: Baseline, path: string): Option<PathState> {
    if path in b.states then Some(b.states[path]) else None
  }

  /** The paths that differ from the baseline, in commits or in the working tree. */
  function ChangedPaths(before: Baseline, now: Baseline, committed: set<string>): set<string> {
    (committed + (set path | path in before.states.Keys + now.states.Keys && StateOf(before, path) != StateOf(now, path)))
    - {""}
  }

  function Verify(a: Authority, expired: bool, before: Baseline, now: Baseline, committed: set<string>)
    : Result<set<string>, AuthorityFault>
  {
    if expired then Err(Expired)
    else if now.root != before.root then Err(OtherWorkspace)
    else
      var changed := ChangedPaths(before, now, committed);
      if changed == {} then Ok(changed)
      else if Write !in a.allowedOperations then Err(WritesForbidden)
      else if exists path :: path in changed && Allows(a, path, Write).None? then Err(PathRefused)
      else if exists path :: path in changed && Allows(a, path, Write) == Some(false) then Err(PathsExceeded)
      else Ok(changed)
  }

  /** Collects the changed paths as the source does, one listed path at a time. */
  method CollectChanges(before: Baseline, now: Baseline, committed: set<string>) returns (changed: set<string>)
    ensures changed == ChangedPaths(before, now, committed)
  {
    changed := committed;
    var todo := before.states.Keys + now.states.Keys;
    while todo != {}
      invariant todo <= before.states.Keys + now.states.Keys
      invariant changed == committed + set path |
        path in before.states.Keys + now.states.Keys - todo && StateOf(before, path) != StateOf(now, path)
    {
      var path :| path in todo;
      if StateOf(before, path) != StateOf(now, path) {
        changed := changed + {path};
      }
      todo := todo - {path};
    }
    changed := changed - {""};
  }

  /** A path was committed, or its index entries or working file are not what they were. */
  predicate WasTouched(before: Baseline, now: Baseline, committed: set<string>, path: string) {
    path != "" && (path in committed || StateOf(before, path) != StateOf(now, path))
  }

  lemma TouchedIsChanged(before: Baseline, now: Baseline, committed: set<string>, path: string)
    ensures path in ChangedPaths(before, now, committed) <==> WasTouched(before, now, committed, path)
  {
    if StateOf(before, path) != StateOf(now, path) {
      assert path in before.states.Keys + now.states.Keys;
    }
  }

  /** Verification accepts exactly unexpired envelopes, in the same workspace, that cover every commit and every change. */
  lemma VerifyIsExact(a: Authority, expired: bool, before: Baseline, now: Baseline, committed: set<string>)
    ensures Verify(a, expired, before, now, committed).Ok? <==>
      && !expired && now.root == before.root
      && forall path :: WasTouched(before, now, committed, path) ==> MayWrite(a, path)
    ensures Verify(a, expired, before, now, committed).Ok? ==>
      forall path :: path in Verify(a, expired, before, now, committed).value <==> WasTouched(before, now, committed, path)
  {
    hide ChangedPaths, WasTouched;
    forall path ensures path in ChangedPaths(before, now, committed) <==> WasTouched(before, now, committed, path) {
      TouchedIsChanged(before, now, committed, path);
    }
    if exists path :: path in ChangedPaths(before, now, committed) && !MayWrite(a, path) {
      assert ChangedPaths(before, now, committed) != {};
    }
  }

  /** What verification says of a stage it does not accept. */
  lemma RefusalsAreExact(a: Authority, expired: bool, before: Baseline, now: Baseline, committed: set<string>)
    ensures var v := Verify(a, expired, before, now, committed);
      var inPlace := !expired && now.root == before.root;
      var touched := exists path :: WasTouched(before, now, committed, path);
      var refused := exists path :: WasTouched(before, now, committed, path) && ScopePath(path).None?;
      && (v == Err(Expired) <==> expired)
      && (v == Err(OtherWorkspace) <==> !expired && now.root != before.root)
      && (v == Err(WritesForbidden) <==> inPlace && touched && Write !in a.allowedOperations)
      && (v == Err(PathRefused) <==> inPlace && refused && Write in a.allowedOperations)
      && (v == Err(PathsExceeded) <==>
            && inPlace && Write in a.allowedOperations && !refused
            && exists path :: WasTouched(before, now, committed, path) && !CoveredBy(a, StripSlashes(path)))
  {
    hide ChangedPaths, WasTouched, CoveredBy, StripSlashes;
    forall path ensures path in ChangedPaths(before, now, committed) <==> WasTouched(before, now, committed, path) {
      TouchedIsChanged(before, now, committed, path);
    }
    forall path ensures ScopePath(path).Some? ==> ScopePath(path).value == StripSlashes(path) {
      ScopePathIsExact(path);
    }
  }

  /** One verified stage: the envelope, what was found, and what `git diff` listed. */
  datatype Stage = Stage(authority: Authority, expired: bool, now: Baseline, committed: set<string>)

  /** Verify-then-recapture, stage after stage: each starts from what the one before was found to leave. */
  predicate Accepted(start: Baseline, stages: seq<Stage>)
    decreases stages
  {
    stages == [] ||
    (&& Verify(stages[0].authority, stages[0].expired, start, stages[0].now, stages[0].committed).Ok?
     && Accepted(stages[0].now, stages[1..]))
  }

  function Final(start: Baseline, stages: seq<Stage>): Baseline {
    if stages == [] then start else stages[|stages| - 1].now
  }

  /** A path no stage may write is, in index and working tree, as it was at the first baseline. */
  lemma {:induction false} ProtectedPathsSurvive(start: Baseline, stages: seq<Stage>, path: string)
    requires Accepted(start, stages) && path != ""
    requires forall i :: 0 <= i < |stages| ==> !MayWrite(stages[i].authority, path)
    ensures StateOf(Final(start, stages), path) == StateOf(start, path)
    ensures Final(start, stages).root == start.root
    decreases stages
  {
    if stages != [] {
      var s := stages[0];
      VerifyIsExact(s.authority, s.expired, start, s.now, s.committed);
      assert !WasTouched(start, s.now, s.committed, path);
      assert forall i :: 0 <= i < |stages[1..]| ==> stages[1..][i] == stages[i + 1];
      ProtectedPathsSurvive(s.now, stages[1..], path);
    }
  }

  /** In terms of paths: what lies under no allowed path of any stage is protected. */
  lemma OutsidePathsSurvive(start: Baseline, stages: seq<Stage>, path: string)
    requires Accepted(start, stages) && path != ""
    requires forall i, j :: 0 <= i < |stages| && 0 <= j < |stages[i].authority.allowedPaths| ==>
      stages[i].authority.allowedPaths[j] != "."
    requires forall i, j :: 0 <= i < |stages| && 0 <= j < |stages[i].authority.allowedPaths| ==>
      !(Segments(stages[i].authority.allowedPaths[j]) <= Segments(StripSlashes(path)))
    ensures StateOf(Final(start, stages), path) == StateOf(start, path)
  {
    forall i | 0 <= i < |stages| ensures !MayWrite(stages[i].authority, path) {
      forall j | 0 <= j < |stages[i].authority.allowedPaths|
        ensures !Covers(stages[i].authority.allowedPaths[j], StripSlashes(path))
      {
        CoverageIsBySegments(stages[i].authority.allowedPaths[j], StripSlashes(path));
      }
    }
    ProtectedPathsSurvive(start, stages, path);
  }
}
