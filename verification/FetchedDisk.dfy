/** The destination directory as the fetcher changes it, and what a later offline run finds there. */
module FetchedDisk {
  import opened Options
  import opened Download
  import opened SumsFile
  import opened FetchPipeline

  // ---- what verify and already_here say of a disk --------------------------------------------------

  function SumsOf(disk: Disk, model: string): (sums: map<string, string>)
    requires model in disk.sums
  {
    ReadLines(SplitLines(disk.sums[model]))
  }

  predicate InModel(p: Problem) { p.Missing? || p.Mismatch? }

  /** A listed file is not there, or does not hash to the digest listed for it. */
  predicate Wrong(lib: Library, disk: Disk, p: Problem)
    requires InModel(p)
  {
    && p.model in disk.sums && p.name in SumsOf(disk, p.model)
    && if p.Missing? then p.name !in DirOf(disk, p.model)
       else p.name in DirOf(disk, p.model) && lib.sha(DirOf(disk, p.model)[p.name]) != SumsOf(disk, p.model)[p.name]
  }

  /** What `verify` reports of a disk; an empty `only` means every model with a checksum file. */
  predicate Reported(lib: Library, disk: Disk, only: set<string>, p: Problem) {
    if p.NoSums? then p.model in only && p.model !in disk.sums
    else if p.NothingFound? then only == {} && disk.sums == map[]
    else (only == {} || p.model in only) && Wrong(lib, disk, p)
  }

  predicate IsHex(c: char) { '0' <= c <= '9' || 'a' <= c <= 'f' }

  /** The revision is a commit: 7 to 64 lower-case hex digits, one line break behind them let through. */
  predicate Pinned(lib: Library, revision: string) {
    var r := lib.lower(revision);
    var n := if |r| > 0 && r[|r| - 1] == '\n' then |r| - 1 else |r|;
    7 <= n <= 64 && forall i :: 0 <= i < n ==> IsHex(r[i])
  }

  predicate StartsWith(s: string, p: string) { |p| <= |s| && s[..|p|] == p }

  lemma {:induction false} StartsWithIff(s: string, p: string)
    ensures StartsWith(s, p) <==> exists rest: string :: s == p + rest
  {
    if StartsWith(s, p) { assert s == p + s[|p|..]; }
  }

  /** A listed file is on disk, not empty, with the size the manifest recorded if it recorded one. */
  predicate SizeFits(dir: Dir, entry: Entry, n: string) {
    n in dir && |dir[n]| > 0 && (n in entry.sizes ==> |dir[n]| == entry.sizes[n])
  }

  predicate Here(lib: Library, disk: Disk, source: Source) {
    && Pinned(lib, source.revision) && source.path in disk.manifest
    && StartsWith(lib.lower(disk.manifest[source.path].commit), lib.lower(source.revision))
    && source.path in disk.sums && SumsOf(disk, source.path) != map[]
    && forall n :: n in SumsOf(disk, source.path) ==> SizeFits(DirOf(disk, source.path), disk.manifest[source.path], n)
  }

  // ---- the object ------------------------------------------------------------------------------------

  method ListNames(keys: set<string>) returns (names: seq<string>)
    ensures forall n :: n in names <==> n in keys
    ensures forall i, j :: 0 <= i < j < |names| ==> names[i] != names[j]
  {
    names := [];
    var rest := keys;
    while rest != {}
      invariant rest <= keys && forall n :: n in names <==> n in keys && n !in rest
      invariant forall i, j :: 0 <= i < j < |names| ==> names[i] != names[j]
    {
      var n :| n in rest;
      names := names + [n];
      rest := rest - {n};
    }
  }

  /** The checksum file lists the fetched files, each once. */
  ghost predicate Written(text: string, files: map<string, string>) {
    exists names :: Lists(names, files) && text == SumsText(names, files)
  }

  /** Nobody cancels, and the plan found every file present. */
  ghost predicate AllKept(dir: Dir, plan: ModelPlan, cancel: seq<bool>)
    requires |cancel| == |plan.files|
  {
    forall j :: 0 <= j < |plan.files| ==> !cancel[j] && plan.files[j].path in plan.present && plan.files[j].path in dir
  }

  /** The manifest entry of a fetched model: where it came from, and its files, sizes and bytes. */
  predicate Tells(e: Entry, m: FetchedModel) {
    e.repo == m.repo && e.revision == m.revision && e.commit == m.commit && e.files == |m.files| && e.bytes == m.bytes && e.sizes == m.sizes
  }

  /** The entries of one model after the other over those that were there. */
  function Entered(manifest: map<string, Entry>, models: seq<FetchedModel>): (r: map<string, Entry>)
  {
    if models == [] then manifest
    else
      var m := models[|models| - 1];
      Entered(manifest, models[..|models| - 1])[m.path := Entry(m.repo, m.revision, m.commit, |m.files|, m.bytes, m.sizes)]
  }

  /** Where the last model of a path stands in the list, if there is one. */
  function LastOf(models: seq<FetchedModel>, p: string): (i: Option<nat>)
    ensures i.None? ==> forall k :: 0 <= k < |models| ==> models[k].path != p
    ensures i.Some? ==> i.value < |models| && models[i.value].path == p && forall k :: i.value < k < |models| ==> models[k].path != p
  {
    if models == [] then None
    else if models[|models| - 1].path == p then Some(|models| - 1)
    else LastOf(models[..|models| - 1], p)
  }

  /** At one path the manifest tells of its last model; without one the old entry, or none, stays. */
  predicate Updated(before: map<string, Entry>, after: map<string, Entry>, models: seq<FetchedModel>, p: string) {
    match LastOf(models, p)
    case Some(i) => p in after && Tells(after[p], models[i])
    case None => (p in after <==> p in before) && (p in after ==> after[p] == before[p])
  }

  lemma {:induction false} OneUpdated(before: map<string, Entry>, after: map<string, Entry>, m: FetchedModel)
    requires forall p :: Updated(before, after, [m], p)
    ensures m.path in after && Tells(after[m.path], m)
    ensures forall p :: p != m.path ==> (p in after <==> p in before) && (p in after ==> after[p] == before[p])
  {
    assert Updated(before, after, [m], m.path);
    forall p | p != m.path ensures (p in after <==> p in before) && (p in after ==> after[p] == before[p]) {
      assert Updated(before, after, [m], p);
    }
  }

  lemma {:induction false} EnteredAt(manifest: map<string, Entry>, models: seq<FetchedModel>, p: string)
    ensures Updated(manifest, Entered(manifest, models), models, p)
  {
    if models != [] && models[|models| - 1].path != p { EnteredAt(manifest, models[..|models| - 1], p); }
  }

  /** The loop of `fetch_planned`: finished files stay, the first failure or a cancel ends it. */
  method FetchFiles(lib: Library, start: Dir, plan: ModelPlan, retries: nat, answers: seq<seq<Answer>>, cancel: seq<bool>)
    returns (failure: Option<FetchResult>, dir: Dir, fetched: FetchedModel)
    requires |answers| == |plan.files| && |cancel| == |plan.files|
    ensures failure.Some? ==> !failure.value.Complete?
    ensures var s := plan.source;
      fetched.path == s.path && fetched.repo == s.repo && fetched.revision == s.revision && fetched.commit == plan.commit
    ensures failure.None? && Separate(plan.files) && Fits(lib, start, plan) ==>
      AllRecorded(lib, dir, plan.files, fetched) && fetched.bytes == Total(fetched.sizes)
    ensures AllKept(start, plan, cancel) ==> failure.None? && dir == start
    ensures Separate(plan.files) ==> EndsRight(lib, start, dir, plan, retries, answers, cancel, failure)
  {
    hide AllRecorded, Fits, Separate, Fetching, Total, IsComplete, Touches, EndsRight, Halfway, EndsAt, Fetches, LoopFrom;
    ghost var sound := Separate(plan.files) && Fits(lib, start, plan);
    dir, fetched := start, FetchedModel(plan.source.path, plan.source.repo, plan.source.revision, plan.commit, map[], map[], 0);
    if sound { FetchingBegins(lib, dir, plan, fetched); }
    assert Halfway(lib, start, dir, plan, retries, answers, cancel, 0) by { NothingYet(lib, start, plan, retries, answers, cancel); }
    for i := 0 to |plan.files|
      invariant var s := plan.source;
        fetched.path == s.path && fetched.repo == s.repo && fetched.revision == s.revision && fetched.commit == plan.commit
      invariant sound ==> Fetching(lib, dir, plan, i, fetched) && fetched.bytes == Total(fetched.sizes)
      invariant AllKept(start, plan, cancel) ==> dir == start
      invariant Separate(plan.files) ==> Halfway(lib, start, dir, plan, retries, answers, cancel, i)
    {
      if cancel[i] {
        if Separate(plan.files) { CancelledAt(lib, start, dir, plan, retries, answers, cancel, i); }
        return Some(Cancelled), dir, fetched;
      }
      var remote := plan.files[i];
      if sound { FetchingNext(lib, dir, plan, i, fetched); }
      var digest, now;
      failure, digest, now := FetchOne(lib, dir, remote, remote.path in plan.present, retries, answers[i]);
      if Separate(plan.files) {
        TurnFromStart(lib, start, dir, now, plan, retries, answers, cancel, i, failure);
        if failure.Some? { EndedRight(lib, start, now, plan, retries, answers, cancel, failure, i); }
      }
      if failure.Some? {
        return failure, now, fetched;
      }
      if sound {
        FetchingMore(lib, dir, now, plan, i, fetched, digest);
        TotalWith(fetched.sizes, remote.path, |now[remote.path]|);
      }
      dir, fetched := now, Noted(fetched, remote.path, digest, |now[remote.path]|);
    }
    if sound { FetchingEnds(lib, dir, plan, fetched); }
    failure := None;
    if Separate(plan.files) { EndedRight(lib, start, dir, plan, retries, answers, cancel, failure, |plan.files|); }
  }

  lemma {:induction false} NothingYet(lib: Library, start: Dir, plan: ModelPlan, retries: nat, answers: seq<seq<Answer>>, cancel: seq<bool>)
    requires |plan.files| == |answers| == |cancel|
    ensures Halfway(lib, start, start, plan, retries, answers, cancel, 0)
  {
  }

  lemma {:induction false} CancelledAt(lib: Library, start: Dir, dir: Dir, plan: ModelPlan, retries: nat, answers: seq<seq<Answer>>, cancel: seq<bool>, i: nat)
    requires i < |plan.files| == |answers| == |cancel| && cancel[i] && Halfway(lib, start, dir, plan, retries, answers, cancel, i)
    ensures EndsRight(lib, start, dir, plan, retries, answers, cancel, Some(Cancelled))
  {
    hide Arrives, Arrived, EndsRight;
    EndedRight(lib, start, dir, plan, retries, answers, cancel, Some(Cancelled), i);
  }

  ghost predicate OnlyDiffers(a: Disk, b: Disk, path: string) {
    && b.manifest == a.manifest
    && forall m :: m != path ==>
      && DirOf(b, m) == DirOf(a, m)
      && (m in b.sums <==> m in a.sums)
      && (m in b.sums ==> b.sums[m] == a.sums[m])
  }

  lemma {:induction false} Stores(a: Disk, path: string, dir: Dir, text: string)
    ensures var b := a.(dirs := a.dirs[path := dir]);
      OnlyDiffers(a, b, path) && OnlyDiffers(a, b.(sums := a.sums[path := text]), path)
      && DirOf(b, path) == dir && DirOf(b.(sums := a.sums[path := text]), path) == dir
  {
  }

  class Destination {
    const lib: Library
    var dirs: map<string, Dir>
    var sums: map<string, string>
    var manifest: map<string, Entry>

    constructor (lib: Library, disk: Disk)
      ensures this.lib == lib && Contents() == disk
    {
      this.lib := lib;
      dirs, sums, manifest := disk.dirs, disk.sums, disk.manifest;
    }

    function Contents(): (disk: Disk)
      reads this
    {
      Disk(dirs, sums, manifest)
    }

    /** Nothing of another model changes, nor does the manifest. */
    twostate predicate OnlyModel(path: string)
      reads this
    {
      OnlyDiffers(old(Contents()), Contents(), path)
    }

    method FetchPlanned(plan: ModelPlan, retries: nat, answers: seq<seq<Answer>>, cancel: seq<bool>) returns (r: FetchResult)
      requires |answers| == |plan.files| && |cancel| == |plan.files|
      modifies this
      ensures OnlyModel(plan.source.path)
      ensures r.Complete? ==>
        && r.model.path == plan.source.path && r.model.repo == plan.source.repo
        && r.model.revision == plan.source.revision && r.model.commit == plan.commit
        && plan.source.path in sums && Written(sums[plan.source.path], r.model.files)
      ensures r.Complete? && Separate(plan.files) && Fits(lib, DirOf(old(Contents()), plan.source.path), plan) ==>
        AllRecorded(lib, DirOf(Contents(), plan.source.path), plan.files, r.model) && r.model.bytes == Total(r.model.sizes)
      ensures !r.Complete? ==> sums == old(sums)
      ensures AllKept(DirOf(old(Contents()), plan.source.path), plan, cancel) ==>
        r.Complete? && DirOf(Contents(), plan.source.path) == DirOf(old(Contents()), plan.source.path)
      ensures Separate(plan.files) ==>
        EndsRight(lib, DirOf(old(Contents()), plan.source.path), DirOf(Contents(), plan.source.path), plan, retries, answers, cancel,
                  if r.Complete? then None else Some(r))
    {
      hide EndsRight, AllRecorded, Fits, Separate, Total, AllKept, Written, Lists, SumsText, OnlyDiffers, DirOf;
      var path := plan.source.path;
      var failure, dir, fetched := FetchFiles(lib, DirOf(Contents(), path), plan, retries, answers, cancel);
      ghost var before := Contents();
      Stores(before, path, dir, "");
      dirs := dirs[path := dir];
      if failure.Some? {
        return failure.value;
      }
      var names := ListNames(fetched.files.Keys);
      ListedOnce(names, fetched.files);
      Stores(before, path, dir, SumsText(names, fetched.files));
      sums := sums[path := SumsText(names, fetched.files)];
      r := Complete(fetched);
    }

    /** `write_manifest`: the last model of each path has its entry, and no other entry is lost or changed. */
    method WriteManifest(models: seq<FetchedModel>)
      modifies this`manifest
      ensures forall p :: Updated(old(manifest), manifest, models, p)
    {
      for n := 0 to |models|
        invariant manifest == Entered(old(manifest), models[..n])
      {
        var m := models[n];
        assert models[..n + 1][..n] == models[..n];
        manifest := manifest[m.path := Entry(m.repo, m.revision, m.commit, |m.files|, m.bytes, m.sizes)];
      }
      assert models[..|models|] == models;
      hide Entered;
      forall p ensures Updated(old(manifest), manifest, models, p) {
        EnteredAt(old(manifest), models, p);
      }
    }

    method Verify(only: set<string>) returns (problems: seq<Problem>)
      ensures forall p :: p in problems <==> Reported(lib, Contents(), only, p)
    {
      hide ReadLines, SplitLines;
      problems := [];
      var absent := ListNames(only - sums.Keys);
      for i := 0 to |absent|
        invariant forall p :: p in problems <==> p.NoSums? && p.model in absent[..i]
      {
        problems := problems + [NoSums(absent[i])];
      }
      assert absent[..|absent|] == absent;
      var found := 0;
      var wanted := set m | m in sums && (only == {} || m in only);
      var models := ListNames(wanted);
      ghost var before := problems;
      for i := 0 to |models|
        invariant found == i
        invariant forall p :: p in problems <==> p in before || (InModel(p) && p.model in models[..i] && Wrong(lib, Contents(), p))
      {
        assert models[i] in models;
        found := found + 1;
        var bad := VerifyModel(models[i]);
        problems := problems + bad;
      }
      assert models[..|models|] == models;
      if only == {} {
        if found > 0 { assert models[0] in models; }
        if sums != map[] { var m :| m in sums; assert m in models; }
      }
      if found == 0 && only == {} {
        problems := problems + [NothingFound];
      }
    }

    method VerifyModel(model: string) returns (bad: seq<Problem>)
      requires model in sums
      ensures forall p :: p in bad <==> InModel(p) && p.model == model && Wrong(lib, Contents(), p)
    {
      hide ReadLines, SplitLines;
      bad := [];
      var listed := ReadSums(sums[model]);
      var dir := DirOf(Contents(), model);
      var names := ListNames(listed.Keys);
      for i := 0 to |names|
        invariant forall p :: p in bad <==> InModel(p) && p.model == model && p.name in names[..i] && Wrong(lib, Contents(), p)
      {
        var n := names[i];
        if n !in dir {
          bad := bad + [Missing(model, n)];
        } else if lib.sha(dir[n]) != listed[n] {
          bad := bad + [Mismatch(model, n)];
        }
      }
      assert names[..|names|] == names;
    }

    /** `already_here`: the model as an earlier run left it, or None when the full check is due. */
    method AlreadyHere(source: Source) returns (r: Option<FetchedModel>)
      ensures r.Some? <==> Here(lib, Contents(), source)
      ensures r.Some? ==>
        && r.value.path == source.path && r.value.files == SumsOf(Contents(), source.path)
        && r.value.sizes.Keys == r.value.files.Keys && r.value.bytes == Total(r.value.sizes)
        && r.value.repo == manifest[source.path].repo && r.value.commit == lib.lower(manifest[source.path].commit)
        && forall n :: n in r.value.sizes ==> n in DirOf(Contents(), source.path) && r.value.sizes[n] == |DirOf(Contents(), source.path)[n]|
    {
      hide ReadLines, SplitLines, Pinned, StartsWith, IsHex, Total;
      if !Pinned(lib, source.revision) || source.path !in manifest {
        return None;
      }
      var entry := manifest[source.path];
      var commit := lib.lower(entry.commit);
      if !StartsWith(commit, lib.lower(source.revision)) || source.path !in sums {
        return None;
      }
      var listed := ReadSums(sums[source.path]);
      if listed == map[] {
        return None;
      }
      var dir := DirOf(Contents(), source.path);
      var names := ListNames(listed.Keys);
      TotalOfNone();
      var sizes: map<string, nat>, bytes := map[], 0;
      for i := 0 to |names|
        invariant (forall n :: n in sizes <==> n in names[..i]) && bytes == Total(sizes)
        invariant forall n :: n in sizes ==> SizeFits(dir, entry, n) && sizes[n] == |dir[n]|
      {
        var n := names[i];
        assert n in names && n in SumsOf(Contents(), source.path);
        if n !in dir {
          assert !SizeFits(dir, entry, n);
          return None;
        }
        var size := |dir[n]|;
        if (n in entry.sizes && size != entry.sizes[n]) || size == 0 {
          assert !SizeFits(dir, entry, n);
          return None;
        }
        TotalWith(sizes, n, size);
        sizes := sizes[n := size];
        bytes := bytes + size;
      }
      assert names[..|names|] == names;
      r := Some(FetchedModel(source.path, entry.repo, source.revision, commit, listed, sizes, bytes));
    }
  }

  lemma {:induction false} TotalOfNone()
    ensures Total(map[]) == 0
  {
  }

  lemma {:induction false} FetchingBegins(lib: Library, dir: Dir, plan: ModelPlan, m: FetchedModel)
    requires Fits(lib, dir, plan) && m.files == map[] && m.sizes == map[] && m.bytes == 0
    ensures Fetching(lib, dir, plan, 0, m) && m.bytes == Total(m.sizes)
  {
  }

  lemma {:induction false} FetchingEnds(lib: Library, dir: Dir, plan: ModelPlan, m: FetchedModel)
    requires Fetching(lib, dir, plan, |plan.files|, m)
    ensures AllRecorded(lib, dir, plan.files, m)
  {
    assert plan.files[..|plan.files|] == plan.files;
  }

  lemma {:induction false} ListedOnce(names: seq<string>, files: map<string, string>)
    requires forall n :: n in names <==> n in files.Keys
    requires forall i, j :: 0 <= i < j < |names| ==> names[i] != names[j]
    ensures Lists(names, files) && Written(SumsText(names, files), files)
  {
    assert Lists(names, files);
  }

  lemma {:induction false} FetchingNext(lib: Library, dir: Dir, plan: ModelPlan, i: nat, m: FetchedModel)
    requires Separate(plan.files) && i < |plan.files| && Fetching(lib, dir, plan, i, m)
    ensures plan.files[i].path !in m.sizes
    ensures plan.files[i].path in plan.present ==> IsComplete(lib, dir, plan.files[i])
  {
    forall n | n in m.files ensures n != plan.files[i].path {
      var j :| 0 <= j < |plan.files[..i]| && plan.files[..i][j].path == n;
      assert plan.files[j].path != plan.files[i].path;
    }
  }

  // ---- the fetch agrees with the offline check and with the skip path --------------------------------

  /** The disk as plan, fetch and manifest leave it for one model. */
  ghost predicate Installed(lib: Library, disk: Disk, plan: ModelPlan, m: FetchedModel) {
    && m.path == plan.source.path && m.commit == plan.commit
    && AllRecorded(lib, DirOf(disk, m.path), plan.files, m) && m.bytes == Total(m.sizes)
    && m.path in disk.sums && Written(disk.sums[m.path], m.files)
    && m.path in disk.manifest && Tells(disk.manifest[m.path], m)
  }

  /** Names without line breaks, and digests as SHA-256 prints them. */
  ghost predicate Plain(lib: Library, plan: ModelPlan) {
    && (forall j :: 0 <= j < |plan.files| ==> OneLine(plan.files[j].path))
    && forall b :: IsDigest(lib.sha(b))
  }

  lemma {:induction false} SumsAreFiles(lib: Library, disk: Disk, plan: ModelPlan, m: FetchedModel)
    requires Installed(lib, disk, plan, m) && Plain(lib, plan)
    ensures SumsOf(disk, m.path) == m.files
  {
    hide IsDigest, OneLine, IsComplete, ReadLines, SplitLines;
    forall n | n in m.files ensures OneLine(n) && IsDigest(m.files[n]) {
      var j :| 0 <= j < |plan.files| && plan.files[j].path == n;
      assert Recorded(lib, DirOf(disk, m.path), plan.files[j], m);
    }
    var names :| Lists(names, m.files) && disk.sums[m.path] == SumsText(names, m.files);
    SumsRoundTrip(names, m.files);
  }

  lemma {:induction false} RecordedFile(lib: Library, disk: Disk, plan: ModelPlan, m: FetchedModel, n: string)
    requires Installed(lib, disk, plan, m) && n in m.files
    ensures n in m.sizes && n in DirOf(disk, m.path)
    ensures m.files[n] == lib.sha(DirOf(disk, m.path)[n]) && m.sizes[n] == |DirOf(disk, m.path)[n]|
  {
    var j :| 0 <= j < |plan.files| && plan.files[j].path == n;
    assert Recorded(lib, DirOf(disk, m.path), plan.files[j], m);
  }

  /** The offline check finds nothing to report of a model just fetched. */
  lemma {:induction false} VerifyReportsNothing(lib: Library, disk: Disk, plan: ModelPlan, m: FetchedModel, p: Problem)
    requires Installed(lib, disk, plan, m) && Plain(lib, plan)
    ensures !Reported(lib, disk, {m.path}, p)
  {
    SumsAreFiles(lib, disk, plan, m);
    hide Installed, Plain, SumsOf;
    assert m.path in disk.sums by { InstalledSums(lib, disk, plan, m); }
    if InModel(p) && p.model == m.path && p.name in m.files {
      RecordedFile(lib, disk, plan, m, p.name);
    }
  }

  lemma {:induction false} InstalledSums(lib: Library, disk: Disk, plan: ModelPlan, m: FetchedModel)
    requires Installed(lib, disk, plan, m)
    ensures m.path in disk.sums
  {
  }

  /** The files of one model replaced by any others; checksum file and manifest stay. */
  function Altered(disk: Disk, model: string, dir: Dir): (r: Disk) { disk.(dirs := disk.dirs[model := dir]) }

  /**
   Whatever happened to the files since, the offline check reports of the model exactly the fetched
   files that are gone and those whose digest is no longer the one they were fetched with.
   */
  lemma {:induction false} VerifySeesDamage(lib: Library, disk: Disk, plan: ModelPlan, m: FetchedModel, dir: Dir, p: Problem)
    requires Installed(lib, disk, plan, m) && Plain(lib, plan)
    ensures Reported(lib, Altered(disk, m.path, dir), {m.path}, p) <==>
      && (p.Missing? || p.Mismatch?) && p.model == m.path && p.name in m.files
      && if p.Missing? then p.name !in dir else p.name in dir && lib.sha(dir[p.name]) != m.files[p.name]
  {
    SumsAreFiles(lib, disk, plan, m);
    InstalledSums(lib, disk, plan, m);
    var now := Altered(disk, m.path, dir);
    hide Installed, Plain, ReadLines, SplitLines, Reported;
    assert SumsOf(now, m.path) == m.files && m.path in now.sums && DirOf(now, m.path) == dir;
    hide SumsOf, DirOf, Altered;
    ReportedOf(lib, now, m.path, p);
  }

  lemma {:induction false} ReportedOf(lib: Library, disk: Disk, model: string, p: Problem)
    requires model in disk.sums
    ensures Reported(lib, disk, {model}, p) <==> InModel(p) && p.model == model && Wrong(lib, disk, p)
  {
    hide SumsOf, DirOf;
  }

  /** A model asked for that has no checksum file is named, and a destination without any is reported as empty. */
  lemma {:induction false} VerifyNamesTheAbsent(lib: Library, disk: Disk, only: set<string>, model: string)
    ensures Reported(lib, disk, only, NoSums(model)) <==> model in only && model !in disk.sums
    ensures Reported(lib, disk, only, NothingFound) <==> |only| == 0 && |disk.sums| == 0
  {
    hide SumsOf;
  }

  /** The skip path looks at sizes alone: it sees a file that is gone, emptied or of another size, and no other damage. */
  lemma {:induction false} SkipSeesSizes(lib: Library, disk: Disk, plan: ModelPlan, m: FetchedModel, dir: Dir)
    requires Installed(lib, disk, plan, m) && Plain(lib, plan) && plan.files != []
    ensures Here(lib, Altered(disk, m.path, dir), plan.source) <==>
      && Pinned(lib, plan.source.revision)
      && StartsWith(lib.lower(m.commit), lib.lower(plan.source.revision))
      && forall n :: n in m.files ==> n in dir && n in m.sizes && |dir[n]| == m.sizes[n] && m.sizes[n] > 0
  {
    hide Pinned, StartsWith, IsComplete, ReadLines, SplitLines, Total;
    SumsAreFiles(lib, disk, plan, m);
    assert Recorded(lib, DirOf(disk, m.path), plan.files[0], m);
    assert plan.files[0].path in m.files;
    forall n | n in m.files
      ensures n in m.sizes && (SizeFits(dir, disk.manifest[m.path], n) <==> n in dir && |dir[n]| == m.sizes[n] && m.sizes[n] > 0)
    {
      RecordedFile(lib, disk, plan, m, n);
    }
  }

  /** A pinned revision is 7 to 64 hex digits: no branch name is one. */
  lemma {:induction false} PinnedIff(lib: Library, revision: string)
    requires lib.lower(revision) == revision && '\n' !in revision
    ensures Pinned(lib, revision) <==> 7 <= |revision| <= 64 && forall c :: c in revision ==> c in "0123456789abcdef"
  {
    forall c ensures IsHex(c) <==> c in "0123456789abcdef" { HexDigit(c); }
    assert forall i :: 0 <= i < |revision| ==> revision[i] in revision;
  }

  lemma {:induction false} HexDigit(c: char)
    ensures IsHex(c) <==> c in "0123456789abcdef"
  {
    var digits := "0123456789abcdef";
    if '0' <= c <= '9' { assert digits[c as int - '0' as int] == c; }
    if 'a' <= c <= 'f' { assert digits[10 + c as int - 'a' as int] == c; }
  }

  /**
   A later run skips the model exactly when the revision is a pinned commit the manifest's
   commit begins with and no file is empty.
   */
  lemma {:induction false} SkippedIff(lib: Library, disk: Disk, plan: ModelPlan, m: FetchedModel)
    requires Installed(lib, disk, plan, m) && Plain(lib, plan) && plan.files != []
    ensures Here(lib, disk, plan.source) <==>
      && Pinned(lib, plan.source.revision)
      && StartsWith(lib.lower(m.commit), lib.lower(plan.source.revision))
      && forall n :: n in m.sizes ==> m.sizes[n] > 0
  {
    hide Pinned, StartsWith, IsComplete, SumsOf, Total;
    SumsAreFiles(lib, disk, plan, m);
    assert Recorded(lib, DirOf(disk, m.path), plan.files[0], m);
    assert plan.files[0].path in m.files;
    forall n | n in m.files
      ensures n in m.sizes && (SizeFits(DirOf(disk, m.path), disk.manifest[m.path], n) <==> m.sizes[n] > 0)
    {
      RecordedFile(lib, disk, plan, m, n);
    }
  }

  /** What the skip path returns is what was fetched: the same files, sizes and byte count. */
  lemma {:induction false} SkipReturnsTheSame(lib: Library, disk: Disk, plan: ModelPlan, m: FetchedModel, again: FetchedModel)
    requires Installed(lib, disk, plan, m) && Plain(lib, plan)
    requires again.files == SumsOf(disk, m.path) && again.sizes.Keys == again.files.Keys && again.bytes == Total(again.sizes)
    requires forall n :: n in again.sizes ==> n in DirOf(disk, m.path) && again.sizes[n] == |DirOf(disk, m.path)[n]|
    ensures again.files == m.files && again.sizes == m.sizes && again.bytes == m.bytes
  {
    hide Total, IsComplete, SumsOf;
    SumsAreFiles(lib, disk, plan, m);
    forall n | n in m.files ensures n in m.sizes && again.sizes[n] == m.sizes[n] {
      RecordedFile(lib, disk, plan, m, n);
    }
    assert m.files.Keys == m.sizes.Keys;
    assert again.sizes == m.sizes;
  }

  /** An installed model is complete file by file. */
  lemma {:induction false} InstalledIsComplete(lib: Library, disk: Disk, plan: ModelPlan, m: FetchedModel, j: nat)
    requires Installed(lib, disk, plan, m) && j < |plan.files|
    ensures IsComplete(lib, DirOf(disk, m.path), plan.files[j])
  {
    assert Recorded(lib, DirOf(disk, m.path), plan.files[j], m);
  }

  /** The file needs nothing, or its answers bring it. */
  predicate Settles(lib: Library, dir: Dir, f: RemoteFile, retries: nat, answers: seq<Answer>) {
    IsComplete(lib, dir, f) || Fetches(lib, dir, f, retries, answers)
  }

  /** A complete file is as it was; any other holds exactly what was received, and its `.part` is gone. */
  predicate Settled(lib: Library, before: Dir, after: Dir, f: RemoteFile, retries: nat, answers: seq<Answer>) {
    && f.path in after
    && if IsComplete(lib, before, f) then f.path in before && after[f.path] == before[f.path]
       else Some(after[f.path]) == LoopFrom(before, f, retries, answers).1 && PartOfName(f.path) !in after
  }

  /** Nobody cancels, and every file settles. */
  predicate Completes(lib: Library, dir: Dir, files: seq<RemoteFile>, retries: nat, answers: seq<seq<Answer>>, cancel: seq<bool>)
    requires |answers| == |files| == |cancel|
  {
    forall j :: 0 <= j < |files| ==> !cancel[j] && Settles(lib, dir, files[j], retries, answers[j])
  }

  predicate Leaves(lib: Library, before: Dir, after: Dir, files: seq<RemoteFile>, retries: nat, answers: seq<seq<Answer>>)
    requires |answers| == |files|
  {
    forall j :: 0 <= j < |files| ==> Settled(lib, before, after, files[j], retries, answers[j])
  }

  lemma {:induction false} PresentIffComplete(lib: Library, dir: Dir, plan: ModelPlan, j: nat)
    requires Separate(plan.files) && j < |plan.files|
    requires forall n :: n in plan.present <==> exists k :: 0 <= k < |plan.files| && plan.files[k].path == n && IsComplete(lib, dir, plan.files[k])
    ensures plan.files[j].path in plan.present <==> IsComplete(lib, dir, plan.files[j])
  {
    hide IsComplete;
    if plan.files[j].path in plan.present {
      var k :| 0 <= k < |plan.files| && plan.files[k].path == plan.files[j].path && IsComplete(lib, dir, plan.files[k]);
      assert k == j;
    }
  }

  /** The outcome of a fetch, told by the directory it began with instead of the plan. */
  lemma {:induction false} SettlesAll(lib: Library, start: Dir, dir: Dir, plan: ModelPlan, retries: nat, answers: seq<seq<Answer>>, cancel: seq<bool>, failure: Option<FetchResult>)
    requires Separate(plan.files) && |plan.files| == |answers| == |cancel|
    requires forall n :: n in plan.present <==> exists k :: 0 <= k < |plan.files| && plan.files[k].path == n && IsComplete(lib, start, plan.files[k])
    requires EndsRight(lib, start, dir, plan, retries, answers, cancel, failure)
    ensures failure.None? <==> Completes(lib, start, plan.files, retries, answers, cancel)
    ensures failure.None? ==> Leaves(lib, start, dir, plan.files, retries, answers)
  {
    hide Separate, EndsRight, EndsAt, Fetches, LoopFrom;
    forall j | 0 <= j < |plan.files|
      ensures plan.files[j].path in plan.present <==> IsComplete(lib, start, plan.files[j])
      ensures Arrives(lib, start, plan, retries, answers, j) <==> Settles(lib, start, plan.files[j], retries, answers[j])
      ensures Arrived(start, dir, plan, retries, answers, j) <==> Settled(lib, start, dir, plan.files[j], retries, answers[j])
    {
      PresentIffComplete(lib, start, plan, j);
    }
    hide Arrives, Arrived, Settles, Settled;
    EndsRightIff(lib, start, dir, plan, retries, answers, cancel, failure);
  }

  lemma {:induction false} EndsRightIff(lib: Library, start: Dir, dir: Dir, plan: ModelPlan, retries: nat, answers: seq<seq<Answer>>, cancel: seq<bool>, failure: Option<FetchResult>)
    requires |plan.files| == |answers| == |cancel| && EndsRight(lib, start, dir, plan, retries, answers, cancel, failure)
    ensures failure.None? <==> forall j :: 0 <= j < |plan.files| ==> !cancel[j] && Arrives(lib, start, plan, retries, answers, j)
    ensures failure.None? ==> forall j :: 0 <= j < |plan.files| ==> Arrived(start, dir, plan, retries, answers, j)
  {
    hide Arrives, Arrived, EndsAt;
  }

  /** Plan, fetch and manifest in the order the fetcher runs them, on an otherwise unchanged disk. */
  method FetchModel(d: Destination, source: Source, commit: string, chosen: seq<RemoteFile>, retries: nat, answers: seq<seq<Answer>>, cancel: seq<bool>)
    returns (r: Option<FetchResult>, ghost plan: Option<ModelPlan>)
    requires |answers| == |chosen| && |cancel| == |chosen|
    modifies d
    ensures r.None? <==> chosen == []
    ensures r.Some? && r.value.Complete? && Separate(chosen) ==>
      && plan.Some? && plan.value.source == source && plan.value.files == chosen && plan.value.commit == commit
      && Installed(d.lib, d.Contents(), plan.value, r.value.model)
    ensures forall p :: p != source.path ==>
      && DirOf(d.Contents(), p) == DirOf(old(d.Contents()), p)
      && (p in d.sums <==> p in old(d.sums)) && (p in d.sums ==> d.sums[p] == old(d.sums)[p])
      && (p in d.manifest <==> p in old(d.manifest)) && (p in d.manifest ==> d.manifest[p] == old(d.manifest)[p])
    ensures chosen != [] && (forall j :: 0 <= j < |chosen| ==> !cancel[j] && IsComplete(d.lib, DirOf(old(d.Contents()), source.path), chosen[j])) ==>
      r.Some? && r.value.Complete? && DirOf(d.Contents(), source.path) == DirOf(old(d.Contents()), source.path)
    ensures r.Some? && Separate(chosen) ==>
      (r.value.Complete? <==> Completes(d.lib, DirOf(old(d.Contents()), source.path), chosen, retries, answers, cancel))
    ensures r.Some? && r.value.Complete? && Separate(chosen) ==>
      Leaves(d.lib, DirOf(old(d.Contents()), source.path), DirOf(d.Contents(), source.path), chosen, retries, answers)
  {
    hide IsComplete, HasPartial, Total, AllRecorded, Separate, Written, Completes, Leaves, EndsRight, PartOfName;
    var p := PlanModel(d.lib, d.Contents(), source, commit, chosen);
    plan := p;
    if p.None? {
      return None, plan;
    }
    ghost var start := DirOf(d.Contents(), source.path);
    if Separate(chosen) { PlanFits(d.lib, start, p.value); }
    if forall j :: 0 <= j < |chosen| ==> !cancel[j] && IsComplete(d.lib, start, chosen[j]) {
      CompleteIsKept(d.lib, start, p.value, cancel);
    }
    hide Fits, AllKept, Installed;
    var result := Install(d, p.value, retries, answers, cancel);
    if Separate(chosen) {
      SettlesAll(d.lib, start, DirOf(d.Contents(), source.path), p.value, retries, answers, cancel, if result.Complete? then None else Some(result));
    }
    r := Some(result);
  }

  /** The files of a plan, then the manifest if they all arrived. */
  method Install(d: Destination, plan: ModelPlan, retries: nat, answers: seq<seq<Answer>>, cancel: seq<bool>) returns (r: FetchResult)
    requires |answers| == |plan.files| && |cancel| == |plan.files|
    modifies d
    ensures r.Complete? && Separate(plan.files) && Fits(d.lib, DirOf(old(d.Contents()), plan.source.path), plan) ==>
      Installed(d.lib, d.Contents(), plan, r.model)
    ensures forall p :: p != plan.source.path ==>
      && DirOf(d.Contents(), p) == DirOf(old(d.Contents()), p)
      && (p in d.sums <==> p in old(d.sums)) && (p in d.sums ==> d.sums[p] == old(d.sums)[p])
      && (p in d.manifest <==> p in old(d.manifest)) && (p in d.manifest ==> d.manifest[p] == old(d.manifest)[p])
    ensures AllKept(DirOf(old(d.Contents()), plan.source.path), plan, cancel) ==>
      r.Complete? && DirOf(d.Contents(), plan.source.path) == DirOf(old(d.Contents()), plan.source.path)
    ensures Separate(plan.files) ==>
      EndsRight(d.lib, DirOf(old(d.Contents()), plan.source.path), DirOf(d.Contents(), plan.source.path), plan, retries, answers, cancel,
                if r.Complete? then None else Some(r))
  {
    hide Total, AllRecorded, Separate, Written, EndsRight, Fits, AllKept;
    r := d.FetchPlanned(plan, retries, answers, cancel);
    ghost var fetched := d.Contents();
    if r.Complete? {
      d.WriteManifest([r.model]);
      OneUpdated(fetched.manifest, d.manifest, r.model);
    }
    assert forall path :: DirOf(d.Contents(), path) == DirOf(fetched, path);
  }

  lemma {:induction false} CompleteIsKept(lib: Library, dir: Dir, plan: ModelPlan, cancel: seq<bool>)
    requires |cancel| == |plan.files|
    requires forall n :: n in plan.present <==> exists j :: 0 <= j < |plan.files| && plan.files[j].path == n && IsComplete(lib, dir, plan.files[j])
    requires forall j :: 0 <= j < |plan.files| ==> !cancel[j] && IsComplete(lib, dir, plan.files[j])
    ensures AllKept(dir, plan, cancel)
  {
  }

  /** Two records of the same files on the same disk are one record. */
  lemma {:induction false} OneRecord(lib: Library, dir: Dir, files: seq<RemoteFile>, m: FetchedModel, m': FetchedModel)
    requires AllRecorded(lib, dir, files, m) && AllRecorded(lib, dir, files, m')
    ensures m.files == m'.files && m.sizes == m'.sizes
  {
    hide IsComplete;
    assert forall j :: 0 <= j < |files| ==> Recorded(lib, dir, files[j], m) && Recorded(lib, dir, files[j], m');
    assert m.files.Keys == m'.files.Keys;
  }

  /**
   Fetching an installed model again asks the server for nothing: whatever it would answer, the
   fetch completes with the same files, sizes and bytes and leaves the files on disk as they are.
   */
  method FetchAgain(d: Destination, commit: string, retries: nat, answers: seq<seq<Answer>>, cancel: seq<bool>, plan: ModelPlan, m: FetchedModel) returns (again: FetchedModel)
    requires Installed(d.lib, d.Contents(), plan, m) && Separate(plan.files) && plan.files != []
    requires |answers| == |plan.files| == |cancel| && forall j :: 0 <= j < |cancel| ==> !cancel[j]
    modifies d
    ensures again.files == m.files && again.sizes == m.sizes && again.bytes == m.bytes
    ensures DirOf(d.Contents(), m.path) == DirOf(old(d.Contents()), m.path)
  {
    forall j | 0 <= j < |plan.files| ensures IsComplete(d.lib, DirOf(d.Contents(), m.path), plan.files[j]) {
      InstalledIsComplete(d.lib, d.Contents(), plan, m, j);
    }
    hide IsComplete, Separate, Total, AllRecorded, Written;
    ghost var dir := DirOf(d.Contents(), m.path);
    var r;
    ghost var second;
    r, second := FetchModel(d, plan.source, commit, plan.files, retries, answers, cancel);
    again := r.value.model;
    OneRecord(d.lib, dir, plan.files, m, again);
  }

  /** The one answer each file needs from an undisturbed server, given what its `.part` holds. */
  function UndisturbedAnswers(dir: Dir, chosen: seq<RemoteFile>, contents: seq<Bytes>): (answers: seq<seq<Answer>>)
    requires |contents| == |chosen|
    ensures |answers| == |chosen|
  {
    seq(|chosen|, j requires 0 <= j < |chosen| =>
      [Undisturbed(contents[j], Have(Kept(PartIn(dir, chosen[j].path), chosen[j].size)))])
  }

  /** The hub publishes size and checksums of this content, and a `.part` left behind is a beginning of it or too long. */
  ghost predicate Published(lib: Library, dir: Dir, f: RemoteFile, c: Bytes) {
    && c != [] && f.size == |c| && Agrees(lib, f, c)
    && var part := PartIn(dir, f.path);
       Have(part) != |c| && (Have(part) < |c| ==> PartOf(part, c))
  }

  /** One undisturbed answer for each file that is not complete fetches the model, with exactly the published contents. */
  method FetchUndisturbed(d: Destination, source: Source, commit: string, chosen: seq<RemoteFile>, contents: seq<Bytes>, retries: nat)
    returns (r: FetchResult)
    requires chosen != [] && |contents| == |chosen| && Separate(chosen)
    requires forall j :: 0 <= j < |chosen| ==>
      var dir := DirOf(d.Contents(), source.path);
      IsComplete(d.lib, dir, chosen[j]) || Published(d.lib, dir, chosen[j], contents[j])
    modifies d
    ensures r.Complete?
    ensures forall j :: 0 <= j < |chosen| ==>
      var f, was, dir := chosen[j], DirOf(old(d.Contents()), source.path), DirOf(d.Contents(), source.path);
      && f.path in dir && f.path in r.model.files && r.model.files[f.path] == d.lib.sha(dir[f.path])
      && if IsComplete(d.lib, was, f) then f.path in was && dir[f.path] == was[f.path]
         else dir[f.path] == contents[j] && PartOfName(f.path) !in dir
  {
    hide Separate, Installed, Published, Total, IsComplete;
    var start := DirOf(d.Contents(), source.path);
    var answers := UndisturbedAnswers(start, chosen, contents);
    var cancel := seq(|chosen|, _ => false);
    forall j | 0 <= j < |chosen|
      ensures Settles(d.lib, start, chosen[j], retries, answers[j])
      ensures !IsComplete(d.lib, start, chosen[j]) ==> LoopFrom(start, chosen[j], retries, answers[j]).1 == Some(contents[j])
    {
      if !IsComplete(d.lib, start, chosen[j]) { PublishedFetches(d.lib, start, chosen[j], contents[j], retries); }
    }
    hide Settles, LoopFrom;
    var done;
    ghost var plan;
    done, plan := FetchModel(d, source, commit, chosen, retries, answers, cancel);
    r := done.value;
    forall j | 0 <= j < |chosen|
      ensures chosen[j].path in r.model.files && r.model.files[chosen[j].path] == d.lib.sha(DirOf(d.Contents(), source.path)[chosen[j].path])
    {
      InstalledFile(d.lib, d.Contents(), plan.value, r.model, j);
    }
    assert forall j :: 0 <= j < |chosen| ==> Settled(d.lib, start, DirOf(d.Contents(), source.path), chosen[j], retries, answers[j]);
  }

  lemma {:induction false} PublishedFetches(lib: Library, dir: Dir, f: RemoteFile, c: Bytes, retries: nat)
    requires Published(lib, dir, f, c)
    ensures var answers := [Undisturbed(c, Have(Kept(PartIn(dir, f.path), f.size)))];
      Fetches(lib, dir, f, retries, answers) && LoopFrom(dir, f, retries, answers).1 == Some(c)
  {
    hide Fetches, LoopFrom, Agrees, Prefix;
    UndisturbedFetches(lib, dir, f, c, retries);
  }

  lemma {:induction false} InstalledFile(lib: Library, disk: Disk, plan: ModelPlan, m: FetchedModel, j: nat)
    requires Installed(lib, disk, plan, m) && j < |plan.files|
    ensures var n := plan.files[j].path;
      m.path == plan.source.path && n in DirOf(disk, m.path) && n in m.files && m.files[n] == lib.sha(DirOf(disk, m.path)[n])
  {
    assert Recorded(lib, DirOf(disk, m.path), plan.files[j], m);
  }

  lemma {:induction false} PlanFits(lib: Library, dir: Dir, plan: ModelPlan)
    requires Separate(plan.files)
    requires forall n :: n in plan.present <==> exists j :: 0 <= j < |plan.files| && plan.files[j].path == n && IsComplete(lib, dir, plan.files[j])
    ensures Fits(lib, dir, plan)
  {
    hide IsComplete;
    forall i | 0 <= i < |plan.files| && plan.files[i].path in plan.present ensures IsComplete(lib, dir, plan.files[i]) {
      var j :| 0 <= j < |plan.files| && plan.files[j].path == plan.files[i].path && IsComplete(lib, dir, plan.files[j]);
      assert i == j;
    }
  }
}
