/** Joining, splitting and relativising the paths of generated files, for the build machine. */
module BuildPaths {
  // ---------------------------------------------------------------------------------------
  // Components
  // ---------------------------------------------------------------------------------------

  predicate IsSep(c: char) {
    c == '/' || c == '\\'
  }

  function BuildDirSep(windows: bool): char {
    if windows then '\\' else '/'
  }

  // What has been read since the last separator, and the components before it.
  function Open(path: string): string {
    if path == "" || IsSep(path[|path| - 1]) then "" else Open(path[..|path| - 1]) + [path[|path| - 1]]
  }

  function Done(path: string): seq<string>
    decreases |path|, 0
  {
    if path == "" then []
    else
      var before := path[..|path| - 1];
      if IsSep(path[|path| - 1]) then Split(before) else Done(before)
  }

  // The components of a path: its runs of characters between separators.
  function Split(path: string): seq<string>
    decreases |path|, 1
  {
    if Open(path) == "" then Done(path) else Done(path) + [Open(path)]
  }

  predicate IsComponent(part: string) {
    part != "" && forall i :: 0 <= i < |part| ==> !IsSep(part[i])
  }

  lemma {:induction false} OpenHasNoSep(path: string)
    ensures forall i :: 0 <= i < |Open(path)| ==> !IsSep(Open(path)[i])
  {
    if path != "" { OpenHasNoSep(path[..|path| - 1]); }
  }

  lemma {:induction false} DoneAreComponents(path: string)
    ensures forall i :: 0 <= i < |Done(path)| ==> IsComponent(Done(path)[i])
  {
    if path != "" {
      DoneAreComponents(path[..|path| - 1]);
      OpenHasNoSep(path[..|path| - 1]);
    }
  }

  lemma SplitAreComponents(path: string)
    ensures forall i :: 0 <= i < |Split(path)| ==> IsComponent(Split(path)[i])
  {
    DoneAreComponents(path);
    OpenHasNoSep(path);
  }

  // A separator ends a component, whatever follows.
  lemma {:induction false} SplitAcross(a: string, sep: char, b: string)
    requires IsSep(sep)
    ensures Open(a + [sep] + b) == Open(b)
    ensures Done(a + [sep] + b) == Split(a) + Done(b)
    ensures Split(a + [sep] + b) == Split(a) + Split(b)
  {
    var p := a + [sep] + b;
    if b == "" {
      assert p[..|p| - 1] == a && p == a + [sep];
    } else {
      var n := |b| - 1;
      SplitAcross(a, sep, b[..n]);
      assert p[..|p| - 1] == a + [sep] + b[..n];
    }
  }

  lemma {:induction false} OneComponent(part: string)
    requires IsComponent(part)
    ensures Open(part) == part && Done(part) == [] && Split(part) == [part]
  {
    var n := |part| - 1;
    if n > 0 {
      OneComponent(part[..n]);
      assert part == part[..n] + [part[n]];
    } else {
      assert part[..n] == "";
    }
  }

  lemma SplitEdges(a: string, sep: char)
    requires IsSep(sep)
    ensures Split(a + [sep]) == Split(a) && Split([sep] + a) == Split(a)
  {
    SplitAcross(a, sep, "");
    SplitAcross("", sep, a);
    assert a + [sep] + "" == a + [sep] && "" + [sep] + a == [sep] + a;
  }

  // ---------------------------------------------------------------------------------------
  // Joining
  // ---------------------------------------------------------------------------------------

  function StripLeading(path: string): string {
    if path != "" && IsSep(path[0]) then StripLeading(path[1..]) else path
  }

  lemma {:induction false} StrippedSplits(path: string)
    ensures Split(StripLeading(path)) == Split(path)
  {
    if path != "" && IsSep(path[0]) {
      StrippedSplits(path[1..]);
      SplitEdges(path[1..], path[0]);
      assert [path[0]] + path[1..] == path;
    }
  }

  // What is stripped is all separators, and all of those in front.
  lemma {:induction false} StripsSeparators(path: string) returns (k: nat)
    ensures k <= |path| && StripLeading(path) == path[k..]
    ensures (forall i :: 0 <= i < k ==> IsSep(path[i])) && (k < |path| ==> !IsSep(path[k]))
  {
    if path != "" && IsSep(path[0]) {
      k := StripsSeparators(path[1..]);
      assert path[1..][k..] == path[k + 1..];
      k := k + 1;
    } else {
      k := 0;
    }
  }

  // What a join puts in between: the separator of the build machine, unless there is one.
  function Seam(head: string, windows: bool): string {
    if head != "" && IsSep(head[|head| - 1]) then "" else if windows then "\\" else "/"
  }

  // Exactly one boundary between the two paths.
  lemma JoinSplits(head: string, tail: string, windows: bool)
    requires head != ""
    ensures var h := if IsSep(head[|head| - 1]) then head else head + [BuildDirSep(windows)];
            Split(h + StripLeading(tail)) == Split(head) + Split(tail)
  {
    StrippedSplits(tail);
    var n := |head| - 1;
    if IsSep(head[n]) {
      SplitAcross(head[..n], head[n], StripLeading(tail));
      SplitEdges(head[..n], head[n]);
      assert head[..n] + [head[n]] == head;
    } else {
      SplitAcross(head, BuildDirSep(windows), StripLeading(tail));
    }
  }

  /** Whatever separators the two paths carry at the seam, the components of the join are those
      of the one followed by those of the other. */
  method BuildPath(head: string, tail: string, windows: bool) returns (joined: string)
    ensures Split(joined) == Split(head) + Split(tail)
    ensures head == "" ==> joined == tail
    ensures head != "" && tail == "" ==> joined == head
    ensures head != "" && tail != "" ==> joined == head + Seam(head, windows) + StripLeading(tail)
  {
    if head == "" { return tail; }
    if tail == "" {
      assert Split(tail) == [];
      return head;
    }
    joined := head;
    if !IsSep(joined[|joined| - 1]) {
      joined := joined + [BuildDirSep(windows)];
    }
    var tailStart := 0;
    while tailStart < |tail| && IsSep(tail[tailStart])
      invariant 0 <= tailStart <= |tail|
      invariant StripLeading(tail) == StripLeading(tail[tailStart..])
    {
      tailStart := tailStart + 1;
    }
    JoinSplits(head, tail, windows);
    assert StripLeading(tail) == tail[tailStart..];
    if tailStart < |tail| {
      joined := joined + tail[tailStart..];
      assert joined == head + Seam(head, windows) + StripLeading(tail);
    } else {
      assert joined + tail[tailStart..] == joined;
    }
  }

  method BuildSplitPath(path: string) returns (components: seq<string>)
    ensures components == Split(path)
  {
    components := [];
    var part := "";
    for i := 0 to |path|
      invariant components == Done(path[..i]) && part == Open(path[..i])
    {
      assert path[..i + 1][..i] == path[..i];
      if IsSep(path[i]) {
        if |part| > 0 {
          components := components + [part];
          part := "";
        }
      } else {
        part := part + [path[i]];
      }
    }
    assert path[..|path|] == path;
    if |part| > 0 {
      components := components + [part];
    }
  }

  // ---------------------------------------------------------------------------------------
  // Relative paths
  // ---------------------------------------------------------------------------------------

  predicate BuildIsAbsolute(path: string, windows: bool) {
    path != "" &&
    if windows then IsSep(path[0]) || (|path| >= 3 && path[1] == ':' && IsSep(path[2])) else path[0] == '/'
  }

  // One step from the directory `at`; the root is its own parent.
  function Step(at: seq<string>, part: string): seq<string> {
    if part == "." then at
    else if part == ".." then (if at == [] then [] else at[..|at| - 1])
    else at + [part]
  }

  // Walking `parts` from the directory `at`.
  function Resolve(at: seq<string>, parts: seq<string>): seq<string>
    decreases parts
  {
    if parts == [] then at else Resolve(Step(at, parts[0]), parts[1..])
  }

  // Where an absolute path leads, dot components walked.
  function Place(parts: seq<string>): seq<string> {
    Resolve([], parts)
  }

  // The first separator of a path, or its length.
  predicate FirstSep(path: string, k: nat) {
    && k <= |path| && (k < |path| ==> IsSep(path[k]))
    && forall i :: 0 <= i < k ==> !IsSep(path[i])
  }

  /** A path is absolute exactly if nothing, or on Windows a drive, stands before its first separator;
      on other machines that separator is a slash. */
  lemma AbsoluteIff(path: string, windows: bool, k: nat)
    requires FirstSep(path, k)
    ensures BuildIsAbsolute(path, windows) <==>
              k < |path| && if windows then k == 0 || (k == 2 && path[1] == ':') else k == 0 && path[k] == '/'
  {
    if windows && BuildIsAbsolute(path, windows) && k > 0 {
      assert IsSep(path[2]);
    }
  }

  predicate NoDots(parts: seq<string>) {
    forall i :: 0 <= i < |parts| ==> parts[i] != "." && parts[i] != ".."
  }

  // Length of the longest common prefix.
  function Shared(a: seq<string>, b: seq<string>): (n: nat)
    ensures n <= |a| && n <= |b| && a[..n] == b[..n]
    ensures n < |a| && n < |b| ==> a[n] != b[n]
  {
    if a != [] && b != [] && a[0] == b[0] then 1 + Shared(a[1..], b[1..]) else 0
  }

  function Ups(n: nat): seq<string> {
    if n == 0 then [] else [".."] + Ups(n - 1)
  }

  lemma {:induction false} UpsPush(n: nat)
    ensures Ups(n + 1) == Ups(n) + [".."] && |Ups(n)| == n
  {
    if n > 0 { UpsPush(n - 1); }
  }

  lemma {:induction false} ResolveAcross(at: seq<string>, a: seq<string>, b: seq<string>)
    ensures Resolve(at, a + b) == Resolve(Resolve(at, a), b)
    decreases a
  {
    if a == [] {
      assert a + b == b;
    } else {
      assert (a + b)[1..] == a[1..] + b;
      ResolveAcross(Step(at, a[0]), a[1..], b);
    }
  }

  // The first `|at| - n` components, or none.
  function Chop(at: seq<string>, n: nat): seq<string> {
    if n < |at| then at[..|at| - n] else []
  }

  /** What a walk comes to, wherever it starts: how many levels it climbs above its start, and the
      components it is then below. */
  function Net(parts: seq<string>): (nat, seq<string>) {
    if parts == [] then (0, [])
    else
      var (up, down) := Net(parts[..|parts| - 1]);
      var last := parts[|parts| - 1];
      if last == ".." && down == [] then (up + 1, []) else (up, Step(down, last))
  }

  function Climb(parts: seq<string>): nat {
    Net(parts).0
  }

  // One more step of a walk that stands `down` below where it climbed to.
  lemma NetStep(at: seq<string>, up: nat, down: seq<string>, last: string)
    ensures Step(Chop(at, up) + down, last) ==
              if last == ".." && down == [] then Chop(at, up + 1) else Chop(at, up) + Step(down, last)
  {
    if last == ".." && down != [] {
      assert (Chop(at, up) + down)[..|Chop(at, up)| + |down| - 1] == Chop(at, up) + down[..|down| - 1];
    }
    if down == [] { assert Chop(at, up) + down == Chop(at, up); }
  }

  lemma {:induction false} ResolveNet(at: seq<string>, parts: seq<string>)
    ensures Resolve(at, parts) == Chop(at, Net(parts).0) + Net(parts).1
  {
    if parts == [] {
      assert Chop(at, 0) == at;
    } else {
      var before, last := parts[..|parts| - 1], parts[|parts| - 1];
      ResolveNet(at, before);
      ResolveAcross(at, before, [last]);
      assert before + [last] == parts;
      assert Resolve(Resolve(at, before), [last]) == Step(Resolve(at, before), last);
      var (up, down) := Net(before);
      NetStep(at, up, down, last);
      hide Resolve, Step, Chop;
      assert Chop(at, up + 1) + [] == Chop(at, up + 1);
    }
  }

  // Each component goes up or down one level at most; with no dot component each goes down.
  lemma {:induction false} NetSize(parts: seq<string>)
    ensures |Net(parts).1| <= |parts|
    ensures NoDots(parts) <==> Net(parts).0 + |parts| == |Net(parts).1|
    ensures NoDots(parts) ==> Net(parts) == (0, parts)
  {
    if parts != [] {
      var before, last := parts[..|parts| - 1], parts[|parts| - 1];
      NetSize(before);
      assert before + [last] == parts;
      assert NoDots(parts) <==> NoDots(before) && last != "." && last != ".." by {
        assert forall i :: 0 <= i < |before| ==> parts[i] == before[i];
      }
    }
  }

  lemma {:induction false} NetOfUps(n: nat)
    ensures Net(Ups(n)) == (n, [])
  {
    if n > 0 {
      NetOfUps(n - 1);
      UpsPush(n - 1);
      assert Ups(n)[..n - 1] == Ups(n - 1) && |Ups(n)| == n;
    }
  }

  lemma ChopTwice(at: seq<string>, down: seq<string>, n: nat, m: nat)
    requires |down| <= m
    ensures Chop(Chop(at, n) + down, m) == Chop(at, n + m - |down|)
  {
  }

  // What the relative path says: up out of what is not shared, then down.
  function RelativeParts(path: seq<string>, base: seq<string>): seq<string> {
    Ups(|base| - Shared(path, base)) + path[Shared(path, base)..]
  }

  // The walk from `base` and the path itself meet in the same place.
  predicate LeadsTo(path: seq<string>, base: seq<string>) {
    Resolve(Place(base), RelativeParts(path, base)) == Place(path)
  }

  /** The answer, walked from where `base` leads, leads where `path` leads, if and only if `base` has
      no dot component below the shared directory, or the rest of `path` climbs from there to the
      root anyway. Dot components of the path itself do no harm. */
  lemma RelativeResolves(path: seq<string>, base: seq<string>)
    ensures var n := Shared(path, base);
            LeadsTo(path, base) <==> NoDots(base[n..]) || |Place(base[..n])| <= Climb(path[n..])
  {
    var n := Shared(path, base);
    var shared, b, p := Place(base[..n]), base[n..], path[n..];
    assert path[..n] == base[..n];
    hide Resolve, Ups, NoDots, Shared, Net, Lost, Climb, Chop;
    PlaceFrom(path, n);
    PlaceFrom(base, n);
    ResolveAcross(Place(base), Ups(|b|), p);
    UpsFall(shared, b);
    FallenWalk(shared, Lost(b), p);
  }

  // A path leads where its rest leads from the place of its first components.
  lemma PlaceFrom(path: seq<string>, n: nat)
    requires n <= |path|
    ensures Place(path) == Resolve(Place(path[..n]), path[n..])
  {
    assert path[..n] + path[n..] == path;
    ResolveAcross([], path[..n], path[n..]);
  }

  // How many levels short of its start a walk ends after as many steps up as it has components.
  function Lost(parts: seq<string>): nat {
    NetSize(parts);
    Net(parts).0 + |parts| - |Net(parts).1|
  }

  lemma UpsFall(at: seq<string>, parts: seq<string>)
    ensures Resolve(Resolve(at, parts), Ups(|parts|)) == Chop(at, Lost(parts))
    ensures Lost(parts) == 0 <==> NoDots(parts)
  {
    NetSize(parts);
    hide Resolve, Ups, NoDots, Net;
    NetOfUps(|parts|);
    ResolveNet(at, parts);
    ResolveNet(Resolve(at, parts), Ups(|parts|));
    ChopTwice(at, Net(parts).1, Net(parts).0, |parts|);
  }

  lemma FallenWalk(at: seq<string>, lost: nat, parts: seq<string>)
    ensures Resolve(Chop(at, lost), parts) == Resolve(at, parts) <==> lost == 0 || |at| <= Climb(parts)
  {
    hide Resolve, Net;
    ResolveNet(Chop(at, lost), parts);
    ResolveNet(at, parts);
    ChopTwice(at, [], lost, Climb(parts));
    assert Chop(at, lost) + [] == Chop(at, lost);
    SamePlace(at, Net(parts).1, lost + Climb(parts), Climb(parts));
  }

  lemma SamePlace(at: seq<string>, down: seq<string>, n: nat, m: nat)
    requires m <= n
    ensures Chop(at, n) + down == Chop(at, m) + down <==> n == m || |at| <= m
  {
    assert |Chop(at, n) + down| == |Chop(at, n)| + |down| && |Chop(at, m) + down| == |Chop(at, m)| + |down|;
  }

  /** What a caller gets without looking at the path: a base without dot components below the
      shared directory is enough, and for a path without any it is needed, unless the shared
      directory is the root. */
  lemma PlainBaseSuffices(path: seq<string>, base: seq<string>)
    ensures var n := Shared(path, base);
            && (NoDots(base[n..]) ==> LeadsTo(path, base))
            && (NoDots(path[n..]) ==> (LeadsTo(path, base) <==> NoDots(base[n..]) || Place(base[..n]) == []))
  {
    RelativeResolves(path, base);
    NetSize(path[Shared(path, base)..]);
  }

  /** An output directory given as `../out` beside the source: the answer for `/proj/src/lib.nim` is
      two steps up and the file, which from `/proj/out` is not that file but `/lib.nim`. */
  lemma ClimbingBaseMisleads()
    ensures var path, base := Split("/proj/src/lib.nim"), Split("/proj/src/../out");
            && RelativeParts(path, base) == Split("../../lib.nim")
            && Place(base) == ["proj", "out"] && Place(path) == ["proj", "src", "lib.nim"]
            && Resolve(Place(base), RelativeParts(path, base)) == ["lib.nim"]
  {
    SplitsOfExample();
    hide Split;
    var path, base := ["proj", "src", "lib.nim"], ["proj", "src", "..", "out"];
    assert Shared(path[2..], base[2..]) == 0 && Shared(path[1..], base[1..]) == 1 && Shared(path, base) == 2;
    assert Ups(2) == ["..", ".."] && path[2..] == ["lib.nim"];
    Walks3("proj", "src", "lib.nim");
    assert base == ["proj", "src"] + ["..", "out"];
    ResolveAcross([], ["proj", "src"], ["..", "out"]);
    ResolveAcross(["proj", "out"], ["..", ".."], ["lib.nim"]);
  }

  /** The other way round: dot components of the path alone are walked like any others. */
  lemma ClimbingPathIsFine()
    ensures var path, base := ["x", "..", "y"], ["x"];
            RelativeParts(path, base) == ["..", "y"] && Place(path) == ["y"] && LeadsTo(path, base)
  {
    var path, base := ["x", "..", "y"], ["x"];
    assert Shared(path[1..], base[1..]) == 0 && Shared(path, base) == 1;
    assert Ups(0) == [] && path[1..] == ["..", "y"];
    Walks3("x", "..", "y");
    PlainBaseSuffices(path, base);
  }

  lemma Walks(at: seq<string>, a: string, rest: seq<string>)
    ensures Resolve(at, [a] + rest) == Resolve(Step(at, a), rest) && Resolve(at, []) == at
  {
    assert ([a] + rest)[1..] == rest;
  }

  lemma Walks3(a: string, b: string, c: string)
    ensures Place([a, b, c]) == Step(Step(Step([], a), b), c)
  {
    hide Step;
    Walks([], a, [b, c]);
    Walks(Step([], a), b, [c]);
    Walks(Step(Step([], a), b), c, []);
    Walks(Step(Step(Step([], a), b), c), c, []);
    assert [a] + [b, c] == [a, b, c] && [b] + [c] == [b, c] && [c] + [] == [c];
  }

  lemma SlashSplits(head: string, part: string)
    requires IsComponent(part)
    ensures Split(head + "/" + part) == Split(head) + [part]
  {
    SplitAcross(head, '/', part);
    OneComponent(part);
  }

  lemma SplitsOfExample()
    ensures Split("/proj/src/../out") == ["proj", "src", "..", "out"]
    ensures Split("/proj/src/lib.nim") == ["proj", "src", "lib.nim"]
    ensures Split("../../lib.nim") == ["..", "..", "lib.nim"]
  {
    hide Split;
    assert Split("") == [] by { SplitEmpty(); }
    SlashSplits("", "proj");
    SlashSplits("/proj", "src");
    SlashSplits("/proj/src", "..");
    SlashSplits("/proj/src/..", "out");
    SlashSplits("/proj/src", "lib.nim");
    OneComponent("..");
    SlashSplits("..", "..");
    SlashSplits("../..", "lib.nim");
    assert "" + "/" + "proj" == "/proj" && "/proj" + "/" + "src" == "/proj/src";
    assert "/proj/src" + "/" + ".." == "/proj/src/.." && "/proj/src/.." + "/" + "out" == "/proj/src/../out";
    assert "/proj/src" + "/" + "lib.nim" == "/proj/src/lib.nim";
    assert ".." + "/" + ".." == "../.." && "../.." + "/" + "lib.nim" == "../../lib.nim";
  }

  lemma SplitEmpty()
    ensures Split("") == []
  {
  }

  // The loop that counts the shared components.
  method CountShared(pathParts: seq<string>, baseParts: seq<string>) returns (shared: nat)
    ensures shared == Shared(pathParts, baseParts)
  {
    shared := 0;
    assert pathParts[0..] == pathParts && baseParts[0..] == baseParts;
    while shared < |pathParts| && shared < |baseParts| && pathParts[shared] == baseParts[shared]
      invariant 0 <= shared <= |pathParts| && shared <= |baseParts|
      invariant Shared(pathParts, baseParts) == shared + Shared(pathParts[shared..], baseParts[shared..])
    {
      assert pathParts[shared..][1..] == pathParts[shared + 1..] && baseParts[shared..][1..] == baseParts[shared + 1..];
      shared := shared + 1;
    }
  }

  // The loops that write the steps up and the steps down.
  method StepsFrom(pathParts: seq<string>, baseParts: seq<string>, shared: nat) returns (parts: seq<string>)
    requires shared <= |pathParts| && shared <= |baseParts|
    ensures parts == Ups(|baseParts| - shared) + pathParts[shared..]
  {
    parts := [];
    for i := shared to |baseParts|
      invariant parts == Ups(i - shared)
    {
      UpsPush(i - shared);
      parts := parts + [".."];
    }
    ghost var ups := parts;
    for i := shared to |pathParts|
      invariant parts == ups + pathParts[shared..i]
    {
      parts := parts + [pathParts[i]];
    }
    assert pathParts[shared..|pathParts|] == pathParts[shared..];
  }

  lemma NotEmpty(part: string)
    requires IsComponent(part)
    ensures part != ""
  {
  }

  // One separator between any two parts, and none elsewhere.
  function Joined(parts: seq<string>, sep: string): string
    requires parts != []
  {
    var n := |parts| - 1;
    if n == 0 then parts[0] else Joined(parts[..n], sep) + sep + parts[n]
  }

  lemma NothingToStrip(part: string)
    requires IsComponent(part)
    ensures StripLeading(part) == part && !IsSep(part[|part| - 1])
  {
  }

  method JoinParts(parts: seq<string>, windows: bool) returns (relative: string)
    requires parts != [] && forall i :: 0 <= i < |parts| ==> IsComponent(parts[i])
    ensures Split(relative) == parts && relative == Joined(parts, if windows then "\\" else "/")
  {
    hide IsComponent, Split;
    OneComponent(parts[0]);
    NothingToStrip(parts[0]);
    assert parts[0] != "" by { NotEmpty(parts[0]); }
    relative := parts[0];
    for i := 1 to |parts|
      invariant Split(relative) == parts[..i]
      invariant relative == Joined(parts[..i], if windows then "\\" else "/")
      invariant relative != "" && !IsSep(relative[|relative| - 1])
    {
      OneComponent(parts[i]);
      NothingToStrip(parts[i]);
      assert parts[i] != "" by { NotEmpty(parts[i]); }
      assert parts[..i + 1][..i] == parts[..i];
      relative := BuildPath(relative, parts[i], windows);
    }
    assert parts[..|parts|] == parts;
  }

  /** Relative to `base` with exactly as many steps up as `base` has components beyond the
      shared ones; a path that is not absolute is returned unchanged. */
  method BuildRelativePath(path: string, base: string, windows: bool) returns (relative: string)
    ensures !BuildIsAbsolute(path, windows) || !BuildIsAbsolute(base, windows) ==> relative == path
    ensures BuildIsAbsolute(path, windows) && BuildIsAbsolute(base, windows) ==>
              var parts := RelativeParts(Split(path), Split(base));
              && Split(relative) == (if parts == [] then ["."] else parts)
              && relative == if parts == [] then "." else Joined(parts, if windows then "\\" else "/")
  {
    hide Split, IsComponent, Shared;
    if !BuildIsAbsolute(path, windows) || !BuildIsAbsolute(base, windows) { return path; }
    var pathParts := BuildSplitPath(path);
    var baseParts := BuildSplitPath(base);
    var shared := CountShared(pathParts, baseParts);
    var parts := StepsFrom(pathParts, baseParts, shared);
    assert parts == RelativeParts(pathParts, baseParts);
    if parts == [] {
      Dot();
      return ".";
    }
    PartsAreComponents(pathParts, baseParts, path);
    relative := JoinParts(parts, windows);
  }

  lemma Dot()
    ensures Split(".") == ["."]
  {
    OneComponent(".");
  }

  lemma PartsAreComponents(pathParts: seq<string>, baseParts: seq<string>, path: string)
    requires pathParts == Split(path)
    ensures forall i :: 0 <= i < |RelativeParts(pathParts, baseParts)| ==>
          IsComponent(RelativeParts(pathParts, baseParts)[i])
  {
    SplitAreComponents(path);
    UpsAreUps(|baseParts| - Shared(pathParts, baseParts));
  }

  lemma {:induction false} UpsAreUps(n: nat)
    ensures |Ups(n)| == n && forall i :: 0 <= i < n ==> Ups(n)[i] == ".."
  {
    if n > 0 { UpsAreUps(n - 1); }
  }

  /** End to end, on the strings: split the answer and walk it from where `base` leads. */
  lemma RelativePathInverts(path: string, base: string, relative: string)
    requires var parts := RelativeParts(Split(path), Split(base)); Split(relative) == if parts == [] then ["."] else parts
    ensures var p, b := Split(path), Split(base);
            var n := Shared(p, b);
            Resolve(Place(b), Split(relative)) == Place(p) <==>
              NoDots(b[n..]) || |Place(b[..n])| <= Climb(p[n..])
  {
    var p, b := Split(path), Split(base);
    RelativeResolves(p, b);
    hide Split, Shared;
    assert Resolve(Place(b), ["."]) == Resolve(Place(b), []);
  }
}
