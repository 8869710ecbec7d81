/**
 Fetching a model (packages/slas-fetch/slas_fetch/fetch.py): plan, download what is missing,
 write SHA256SUMS and the manifest, verify offline, and skip a model that is already here.
 */
module FetchPipeline {
  import opened Options
  import opened Download

  type Dir = map<string, Bytes>

  /** SHA-256, the git blob id and lower-casing, as the library computes them. */
  datatype Library = Library(sha: Bytes -> string, blob: Bytes -> string, lower: string -> string)

  datatype Source = Source(path: string, repo: string, revision: string)

  datatype RemoteFile = RemoteFile(path: string, size: nat, sha256: Option<string>, blobId: Option<string>)

  datatype ModelPlan = ModelPlan(source: Source, commit: string, files: seq<RemoteFile>, present: seq<string>, partial: map<string, nat>)

  datatype FetchedModel = FetchedModel(
    path: string, repo: string, revision: string, commit: string,
    files: map<string, string>, sizes: map<string, nat>, bytes: nat)

  datatype Entry = Entry(repo: string, revision: string, commit: string, files: nat, bytes: nat, sizes: map<string, nat>)

  /** The destination: the files of each model, the text of its SHA256SUMS, and the manifest. */
  datatype Disk = Disk(dirs: map<string, Dir>, sums: map<string, string>, manifest: map<string, Entry>)

  datatype FetchResult = Complete(model: FetchedModel) | Cancelled | DownloadFailed(outcome: Outcome) | BadChecksum | FileGone

  datatype Problem = NoSums(model: string) | Missing(model: string, name: string) | Mismatch(model: string, name: string) | NothingFound

  function PartOfName(name: string): (p: string) { name + ".part" }

  function DirOf(disk: Disk, model: string): (d: Dir) { if model in disk.dirs then disk.dirs[model] else map[] }

  /** `is_complete`: the published checksum decides, then the blob id, then the size. */
  predicate IsComplete(lib: Library, dir: Dir, f: RemoteFile) {
    && f.path in dir
    && if f.sha256.Some? then lib.sha(dir[f.path]) == f.sha256.value
       else if f.blobId.Some? then lib.blob(dir[f.path]) == f.blobId.value
       else f.size == 0 || |dir[f.path]| == f.size
  }

  /** What is published decides, in this order: the checksum alone, else the blob id alone, else the size if one is known. */
  lemma {:induction false} CompleteIff(lib: Library, dir: Dir, f: RemoteFile)
    ensures f.sha256.Some? ==> (IsComplete(lib, dir, f) <==> f.path in dir && lib.sha(dir[f.path]) == f.sha256.value)
    ensures f.sha256.None? && f.blobId.Some? ==> (IsComplete(lib, dir, f) <==> f.path in dir && lib.blob(dir[f.path]) == f.blobId.value)
    ensures f.sha256.None? && f.blobId.None? ==> (IsComplete(lib, dir, f) <==> f.path in dir && f.size in {0, |dir[f.path]|})
  {
  }

  // ---- planning -----------------------------------------------------------------------------------

  predicate HasPartial(lib: Library, dir: Dir, f: RemoteFile) {
    && !IsComplete(lib, dir, f) && PartOfName(f.path) in dir
    && (f.size == 0 || |dir[PartOfName(f.path)]| <= f.size)
  }

  method PlanModel(lib: Library, disk: Disk, source: Source, commit: string, chosen: seq<RemoteFile>) returns (plan: Option<ModelPlan>)
    ensures plan.None? <==> chosen == []
    ensures plan.Some? ==>
      && plan.value.source == source && plan.value.commit == commit && plan.value.files == chosen
      && (forall n :: n in plan.value.present <==> exists j :: 0 <= j < |chosen| && chosen[j].path == n && IsComplete(lib, DirOf(disk, source.path), chosen[j]))
      && (forall n :: n in plan.value.partial <==> exists j :: 0 <= j < |chosen| && chosen[j].path == n && HasPartial(lib, DirOf(disk, source.path), chosen[j]))
      && (forall n :: n in plan.value.partial ==>
            && PartOfName(n) in DirOf(disk, source.path)
            && plan.value.partial[n] == |DirOf(disk, source.path)[PartOfName(n)]|)
  {
    if chosen == [] {
      return None;
    }
    var dir := DirOf(disk, source.path);
    var present: seq<string>, partial: map<string, nat> := [], map[];
    for i := 0 to |chosen|
      invariant forall n :: n in present <==> exists j :: 0 <= j < i && chosen[j].path == n && IsComplete(lib, dir, chosen[j])
      invariant forall n :: n in partial <==> exists j :: 0 <= j < i && chosen[j].path == n && HasPartial(lib, dir, chosen[j])
      invariant forall n :: n in partial ==> PartOfName(n) in dir && partial[n] == |dir[PartOfName(n)]|
    {
      var remote := chosen[i];
      if IsComplete(lib, dir, remote) {
        present := present + [remote.path];
      } else {
        var part := PartOfName(remote.path);
        if part in dir && (remote.size == 0 || |dir[part]| <= remote.size) {
          partial := partial[remote.path := |dir[part]|];
        }
      }
    }
    plan := Some(ModelPlan(source, commit, chosen, present, partial));
  }

  // ---- fetching -----------------------------------------------------------------------------------

  /** No path twice, and no file whose name is the `.part` of another. */
  ghost predicate Separate(files: seq<RemoteFile>) {
    && (forall i, j :: 0 <= i < j < |files| ==> files[i].path != files[j].path)
    && forall i, j :: 0 <= i < |files| && 0 <= j < |files| ==> files[i].path != PartOfName(files[j].path)
  }

  /** The plan is of this directory: what it calls present is complete. */
  ghost predicate Fits(lib: Library, dir: Dir, plan: ModelPlan) {
    forall i :: 0 <= i < |plan.files| && plan.files[i].path in plan.present ==> IsComplete(lib, dir, plan.files[i])
  }

  /** A fetched file: its checksum and size are recorded, and it is what the hub describes. */
  ghost predicate Recorded(lib: Library, dir: Dir, f: RemoteFile, m: FetchedModel) {
    && f.path in dir && f.path in m.files && f.path in m.sizes
    && m.files[f.path] == lib.sha(dir[f.path]) && m.sizes[f.path] == |dir[f.path]|
    && IsComplete(lib, dir, f)
  }

  ghost predicate AllRecorded(lib: Library, dir: Dir, files: seq<RemoteFile>, m: FetchedModel) {
    && m.files.Keys == m.sizes.Keys
    && (forall n :: n in m.files ==> exists j :: 0 <= j < |files| && files[j].path == n)
    && forall j :: 0 <= j < |files| ==> Recorded(lib, dir, files[j], m)
  }

  /** Only this file and its `.part` may differ. */
  ghost predicate Touches(before: Dir, after: Dir, name: string) {
    forall n :: n != name && n != PartOfName(name) ==> (n in before <==> n in after) && (n in before ==> before[n] == after[n])
  }

  function PartIn(dir: Dir, name: string): (part: Option<Bytes>)
  {
    if PartOfName(name) in dir then Some(dir[PartOfName(name)]) else None
  }

  /** A plan calls a file partial exactly if it is not complete and its download would resume from the `.part` there. */
  lemma {:induction false} PartialIff(lib: Library, dir: Dir, f: RemoteFile)
    ensures HasPartial(lib, dir, f) <==> !IsComplete(lib, dir, f) && Kept(PartIn(dir, f.path), f.size).Some?
    ensures HasPartial(lib, dir, f) ==> Kept(PartIn(dir, f.path), f.size) == Some(dir[PartOfName(f.path)])
  {
    if PartIn(dir, f.path).Some? { DiscardedIff(dir[PartOfName(f.path)], f.size); }
  }

  /** How the download of a file ends from this directory, and what was received by then. */
  function LoopFrom(dir: Dir, f: RemoteFile, retries: nat, answers: seq<Answer>): (r: (Outcome, Option<Bytes>))
  {
    Loop(Kept(PartIn(dir, f.path), f.size), 0, answers, f.size, retries)
  }

  /** The content agrees with whatever checksums the hub publishes. */
  predicate Agrees(lib: Library, f: RemoteFile, b: Bytes) {
    (f.sha256.Some? ==> lib.sha(b) == f.sha256.value) && (f.blobId.Some? ==> lib.blob(b) == f.blobId.value)
  }

  /** The answers finish the file, with content that agrees with what is published. */
  predicate Fetches(lib: Library, dir: Dir, f: RemoteFile, retries: nat, answers: seq<Answer>) {
    var (outcome, b) := LoopFrom(dir, f, retries, answers);
    outcome == Finished && b.Some? && Agrees(lib, f, b.value)
  }

  /** `hub.download` within the directory. */
  method DownloadInto(dir: Dir, name: string, size: nat, retries: nat, answers: seq<Answer>) returns (outcome: Outcome, now: Dir)
    ensures Touches(dir, now, name)
    ensures outcome == Finished ==> name in now && PartOfName(name) !in now && (size == 0 || |now[name]| == size)
    ensures outcome != Finished ==> (name in now <==> name in dir) && (name in dir ==> now[name] == dir[name])
    ensures outcome == Loop(Kept(PartIn(dir, name), size), 0, answers, size, retries).0
    ensures outcome == Finished ==> Some(now[name]) == Loop(Kept(PartIn(dir, name), size), 0, answers, size, retries).1
  {
    var part := PartOfName(name);
    assert part[|name|] == '.' && |part| != |name|;
    var files := new Files(if part in dir then Some(dir[part]) else None, if name in dir then Some(dir[name]) else None);
    ghost var start := Kept(files.part, size);
    outcome := files.Fetch(size, retries, answers);
    FinishedHasSize(start, 0, answers, size, retries);
    now := dir - {part};
    if files.part.Some? {
      now := now[part := files.part.value];
    }
    if files.target.Some? {
      now := now[name := files.target.value];
    }
  }

  lemma {:induction false} FinishedHasSize(part: Option<Bytes>, stalls: nat, answers: seq<Answer>, expected: nat, retries: nat)
    ensures var (o, now) := Loop(part, stalls, answers, expected, retries);
      o == Finished ==> now.Some? && (expected == 0 || |now.value| == expected)
    decreases |answers|
  {
    if answers != [] {
      var (now, next) := Round(part, stalls, answers[0], expected, retries);
      if next.Again? { FinishedHasSize(now, next.stalls, answers[1..], expected, retries); }
    }
  }

  /**
   One turn of the loop in `fetch_planned`: a present file fails exactly when it is gone, any other
   exactly when its answers do not finish or do not bring what is published.
   */
  method FetchOne(lib: Library, dir: Dir, f: RemoteFile, isPresent: bool, retries: nat, answers: seq<Answer>)
    returns (failure: Option<FetchResult>, digest: string, now: Dir)
    ensures Touches(dir, now, f.path)
    ensures isPresent ==> now == dir && failure == if f.path in dir then None else Some(FileGone)
    ensures !isPresent ==> (failure.None? <==> Fetches(lib, dir, f, retries, answers))
    ensures !isPresent && failure.None? ==> PartOfName(f.path) !in now
    ensures !isPresent && failure.None? ==> f.path in now && Some(now[f.path]) == LoopFrom(dir, f, retries, answers).1
    ensures !isPresent && failure.Some? ==>
      var outcome := LoopFrom(dir, f, retries, answers).0;
      failure.value == if outcome == Finished then BadChecksum else DownloadFailed(outcome)
    ensures failure.None? ==> f.path in now
    ensures failure.None? && (isPresent ==> IsComplete(lib, dir, f)) ==> digest == lib.sha(now[f.path]) && IsComplete(lib, now, f)
    ensures failure == Some(BadChecksum) ==> f.path !in now && PartOfName(f.path) !in now
    ensures failure.Some? && failure.value.DownloadFailed? ==> (f.path in now <==> f.path in dir) && (f.path in now ==> now[f.path] == dir[f.path])
  {
    hide Loop, Kept;
    digest, now := "", dir;
    if isPresent {
      if f.path !in dir {
        return Some(FileGone), digest, now;
      }
      digest := if f.sha256.Some? then f.sha256.value else lib.sha(dir[f.path]);
      return None, digest, now;
    }
    var outcome;
    outcome, now := DownloadInto(dir, f.path, f.size, retries, answers);
    if outcome != Finished {
      return Some(DownloadFailed(outcome)), digest, now;
    }
    digest := lib.sha(now[f.path]);
    if f.sha256.Some? && digest != f.sha256.value {
      now := now - {f.path};
      return Some(BadChecksum), digest, now;
    }
    if f.blobId.Some? && lib.blob(now[f.path]) != f.blobId.value {
      now := now - {f.path};
      return Some(BadChecksum), digest, now;
    }
    failure := None;
  }

  /** A finished file stays recorded while another one is fetched. */
  lemma {:induction false} StaysRecorded(lib: Library, before: Dir, after: Dir, f: RemoteFile, g: RemoteFile, m: FetchedModel, m': FetchedModel)
    requires Recorded(lib, before, f, m) && Touches(before, after, g.path)
    requires f.path != g.path && f.path != PartOfName(g.path)
    requires f.path in m'.files && f.path in m'.sizes && m'.files[f.path] == m.files[f.path] && m'.sizes[f.path] == m.sizes[f.path]
    ensures Recorded(lib, after, f, m')
  {
    assert f.path in before && f.path in after && before[f.path] == after[f.path];
  }

  lemma {:induction false} StaysComplete(lib: Library, before: Dir, after: Dir, f: RemoteFile, g: RemoteFile)
    requires IsComplete(lib, before, f) && Touches(before, after, g.path)
    requires f.path != g.path && f.path != PartOfName(g.path)
    ensures IsComplete(lib, after, f)
  {
    assert f.path in before && f.path in after && before[f.path] == after[f.path];
  }

  /** The state of the loop behind i files. */
  ghost predicate Fetching(lib: Library, dir: Dir, plan: ModelPlan, i: nat, m: FetchedModel) {
    && i <= |plan.files| && AllRecorded(lib, dir, plan.files[..i], m)
    && forall j :: i <= j < |plan.files| && plan.files[j].path in plan.present ==> IsComplete(lib, dir, plan.files[j])
  }

  function Noted(m: FetchedModel, name: string, digest: string, size: nat): (r: FetchedModel)
  {
    m.(files := m.files[name := digest], sizes := m.sizes[name := size], bytes := m.bytes + size)
  }

  lemma {:induction false} FetchingMore(lib: Library, before: Dir, after: Dir, plan: ModelPlan, i: nat, m: FetchedModel, digest: string)
    requires Separate(plan.files) && i < |plan.files| && Fetching(lib, before, plan, i, m)
    requires Touches(before, after, plan.files[i].path) && IsComplete(lib, after, plan.files[i])
    requires digest == lib.sha(after[plan.files[i].path])
    ensures Fetching(lib, after, plan, i + 1, Noted(m, plan.files[i].path, digest, |after[plan.files[i].path]|))
  {
    hide IsComplete, Touches;
    var f := plan.files[i];
    CompleteIsThere(lib, after, f);
    var m' := Noted(m, f.path, digest, |after[f.path]|);
    var done, now := plan.files[..i], plan.files[..i + 1];
    forall j | 0 <= j < |now| ensures Recorded(lib, after, now[j], m') {
      if j < i {
        assert now[j] == done[j] && now[j] == plan.files[j];
        StaysRecorded(lib, before, after, now[j], f, m, m');
      }
    }
    forall n | n in m'.files ensures exists j :: 0 <= j < |now| && now[j].path == n {
      if n == f.path {
        assert now[i].path == n;
      } else {
        assert n in m.files;
        var j :| 0 <= j < |done| && done[j].path == n;
        assert now[j] == done[j];
      }
    }
    forall j | i + 1 <= j < |plan.files| && plan.files[j].path in plan.present ensures IsComplete(lib, after, plan.files[j]) {
      StaysComplete(lib, before, after, plan.files[j], f);
    }
  }

  lemma {:induction false} CompleteIsThere(lib: Library, dir: Dir, f: RemoteFile)
    requires IsComplete(lib, dir, f)
    ensures f.path in dir
  {
  }

  // ---- which fetches complete ------------------------------------------------------------------------

  /** What the file needs, as the directory was at the start: to be there if planned as present, else to be fetched. */
  predicate Arrives(lib: Library, start: Dir, plan: ModelPlan, retries: nat, answers: seq<seq<Answer>>, j: nat)
    requires j < |plan.files| == |answers|
  {
    var f := plan.files[j];
    if f.path in plan.present then f.path in start else Fetches(lib, start, f, retries, answers[j])
  }

  /** A present file is as it was; any other is what was received, and its `.part` is gone. */
  predicate Arrived(start: Dir, dir: Dir, plan: ModelPlan, retries: nat, answers: seq<seq<Answer>>, j: nat)
    requires j < |plan.files| == |answers|
  {
    var f := plan.files[j];
    && f.path in dir
    && if f.path in plan.present then f.path in start && dir[f.path] == start[f.path]
       else Some(dir[f.path]) == LoopFrom(start, f, retries, answers[j]).1 && PartOfName(f.path) !in dir
  }

  /** Why the loop ends at this file. */
  function Reason(start: Dir, plan: ModelPlan, retries: nat, answers: seq<seq<Answer>>, cancel: seq<bool>, j: nat): (r: FetchResult)
    requires j < |plan.files| == |answers| == |cancel|
  {
    var f := plan.files[j];
    if cancel[j] then Cancelled
    else if f.path in plan.present then FileGone
    else if LoopFrom(start, f, retries, answers[j]).0 != Finished then DownloadFailed(LoopFrom(start, f, retries, answers[j]).0)
    else BadChecksum
  }

  /** The fetch ends at the first file that is cancelled or does not arrive. */
  ghost predicate EndsAt(lib: Library, start: Dir, plan: ModelPlan, retries: nat, answers: seq<seq<Answer>>, cancel: seq<bool>, failure: FetchResult, j: nat)
    requires |plan.files| == |answers| == |cancel|
  {
    && j < |plan.files| && failure == Reason(start, plan, retries, answers, cancel, j)
    && (cancel[j] || !Arrives(lib, start, plan, retries, answers, j))
    && forall k :: 0 <= k < j ==> !cancel[k] && Arrives(lib, start, plan, retries, answers, k)
  }

  /** The file and its `.part` are as they were. */
  predicate Pristine(start: Dir, dir: Dir, f: RemoteFile) {
    && (f.path in dir <==> f.path in start) && (f.path in dir ==> dir[f.path] == start[f.path])
    && PartIn(dir, f.path) == PartIn(start, f.path)
  }

  /** Behind i files: those arrived, the others are untouched. */
  ghost predicate Halfway(lib: Library, start: Dir, dir: Dir, plan: ModelPlan, retries: nat, answers: seq<seq<Answer>>, cancel: seq<bool>, i: nat)
    requires i <= |plan.files| == |answers| == |cancel|
  {
    && (forall k :: 0 <= k < i ==> !cancel[k] && Arrives(lib, start, plan, retries, answers, k) && Arrived(start, dir, plan, retries, answers, k))
    && forall k :: i <= k < |plan.files| ==> Pristine(start, dir, plan.files[k])
  }

  /** Nobody cancels and every file arrives. */
  ghost predicate AllArrive(lib: Library, start: Dir, plan: ModelPlan, retries: nat, answers: seq<seq<Answer>>, cancel: seq<bool>)
    requires |plan.files| == |answers| == |cancel|
  {
    forall j :: 0 <= j < |plan.files| ==> !cancel[j] && Arrives(lib, start, plan, retries, answers, j)
  }

  /** Either every file arrived and is as it should be, or the fetch ended at the first that did not. */
  ghost predicate EndsRight(lib: Library, start: Dir, dir: Dir, plan: ModelPlan, retries: nat, answers: seq<seq<Answer>>, cancel: seq<bool>, failure: Option<FetchResult>)
    requires |plan.files| == |answers| == |cancel|
  {
    match failure
    case None =>
      && AllArrive(lib, start, plan, retries, answers, cancel)
      && forall j :: 0 <= j < |plan.files| ==> Arrived(start, dir, plan, retries, answers, j)
    case Some(r) =>
      && !AllArrive(lib, start, plan, retries, answers, cancel)
      && exists j: nat :: EndsAt(lib, start, plan, retries, answers, cancel, r, j)
  }

  lemma {:induction false} EndedRight(lib: Library, start: Dir, dir: Dir, plan: ModelPlan, retries: nat, answers: seq<seq<Answer>>, cancel: seq<bool>, failure: Option<FetchResult>, i: nat)
    requires |plan.files| == |answers| == |cancel|
    requires failure.None? ==> i == |plan.files| && Halfway(lib, start, dir, plan, retries, answers, cancel, i)
    requires failure.Some? ==> EndsAt(lib, start, plan, retries, answers, cancel, failure.value, i)
    ensures EndsRight(lib, start, dir, plan, retries, answers, cancel, failure)
  {
    hide Arrives, Arrived, Reason;
  }

  lemma {:induction false} PartsDiffer(a: string, b: string)
    requires a != b
    ensures PartOfName(a) != PartOfName(b)
  {
    assert PartOfName(a)[..|PartOfName(a)| - 5] == a && PartOfName(b)[..|PartOfName(b)| - 5] == b;
  }

  /** Fetching one file leaves the others of the model alone. */
  lemma {:induction false} Apart(files: seq<RemoteFile>, before: Dir, after: Dir, i: nat, k: nat)
    requires Separate(files) && i < |files| && k < |files| && i != k && Touches(before, after, files[i].path)
    ensures (files[k].path in after <==> files[k].path in before) && (files[k].path in after ==> after[files[k].path] == before[files[k].path])
    ensures PartIn(after, files[k].path) == PartIn(before, files[k].path)
  {
    hide PartOfName;
    PartsDiffer(files[i].path, files[k].path);
    assert files[k].path != files[i].path && files[k].path != PartOfName(files[i].path) && files[i].path != PartOfName(files[k].path);
  }

  lemma {:induction false} OneMoreArrived(lib: Library, start: Dir, dir: Dir, now: Dir, plan: ModelPlan, retries: nat, answers: seq<seq<Answer>>, cancel: seq<bool>, i: nat)
    requires Separate(plan.files) && i < |plan.files| == |answers| == |cancel| && Halfway(lib, start, dir, plan, retries, answers, cancel, i)
    requires Touches(dir, now, plan.files[i].path) && !cancel[i]
    requires Arrives(lib, start, plan, retries, answers, i) && Arrived(start, now, plan, retries, answers, i)
    ensures Halfway(lib, start, now, plan, retries, answers, cancel, i + 1)
  {
    hide Separate, Touches, Arrives, LoopFrom;
    forall k | 0 <= k < |plan.files| && k != i
      ensures k < i ==> Arrived(start, now, plan, retries, answers, k)
      ensures k > i ==> Pristine(start, now, plan.files[k])
    {
      Apart(plan.files, dir, now, i, k);
      if k < i { assert Arrived(start, dir, plan, retries, answers, k); }
    }
  }

  /** From a directory in which a file is still as it was, its fetch goes as from the start. */
  lemma {:induction false} SameFetch(lib: Library, start: Dir, dir: Dir, f: RemoteFile, retries: nat, answers: seq<Answer>)
    requires Pristine(start, dir, f)
    ensures LoopFrom(dir, f, retries, answers) == LoopFrom(start, f, retries, answers)
    ensures Fetches(lib, dir, f, retries, answers) <==> Fetches(lib, start, f, retries, answers)
  {
    hide Loop, Kept;
  }

  /** One turn of the loop, told from the directory as it was at the start. */
  lemma {:induction false} TurnFromStart(lib: Library, start: Dir, dir: Dir, now: Dir, plan: ModelPlan, retries: nat, answers: seq<seq<Answer>>, cancel: seq<bool>, i: nat, failure: Option<FetchResult>)
    requires Separate(plan.files) && i < |plan.files| == |answers| == |cancel| && Halfway(lib, start, dir, plan, retries, answers, cancel, i)
    requires Touches(dir, now, plan.files[i].path) && !cancel[i]
    requires var f := plan.files[i];
      && (f.path in plan.present ==> now == dir && failure == if f.path in dir then None else Some(FileGone))
      && (f.path !in plan.present ==>
            var (outcome, b) := LoopFrom(dir, f, retries, answers[i]);
            && (failure.None? <==> Fetches(lib, dir, f, retries, answers[i]))
            && (failure.None? ==> f.path in now && Some(now[f.path]) == b && PartOfName(f.path) !in now)
            && (failure.Some? ==> failure.value == if outcome == Finished then BadChecksum else DownloadFailed(outcome)))
    ensures failure.None? ==> Halfway(lib, start, now, plan, retries, answers, cancel, i + 1)
    ensures failure.Some? ==> EndsAt(lib, start, plan, retries, answers, cancel, failure.value, i)
  {
    hide Separate, Touches, Fetches, LoopFrom, PartOfName;
    assert Pristine(start, dir, plan.files[i]);
    SameFetch(lib, start, dir, plan.files[i], retries, answers[i]);
    if failure.None? { OneMoreArrived(lib, start, dir, now, plan, retries, answers, cancel, i); }
  }

  /** One answer from an undisturbed server fetches a file, unless its `.part` already has the full size. */
  lemma {:induction false} UndisturbedFetches(lib: Library, dir: Dir, f: RemoteFile, c: Bytes, retries: nat)
    requires c != [] && f.size == |c| && Agrees(lib, f, c)
    requires var part := PartIn(dir, f.path); Have(part) <= |c| ==> PartOf(part, c)
    ensures var part := PartIn(dir, f.path);
      var answers := [Undisturbed(c, Have(Kept(part, f.size)))];
      && (Have(part) != |c| ==> Fetches(lib, dir, f, retries, answers) && LoopFrom(dir, f, retries, answers) == (Finished, Some(c)))
      && (Have(part) == |c| ==> !Fetches(lib, dir, f, retries, answers))
  {
    var part := PartIn(dir, f.path);
    FinishesIffPartNotFull(c, part, retries);
    if Have(part) == |c| {
      var answers := [Undisturbed(c, |c|)];
      assert answers[0] == HttpError(416);
      FullPartNeverFinishes(c, part, 0, answers, retries);
    }
  }

  // ---- sums of sizes -------------------------------------------------------------------------------

  ghost function Total(sizes: map<string, nat>): (n: nat)
  {
    if sizes == map[] then 0 else var k :| k in sizes; sizes[k] + Total(sizes - {k})
  }

  lemma {:induction false} TotalWithout(sizes: map<string, nat>, k: string)
    requires k in sizes
    ensures Total(sizes) == sizes[k] + Total(sizes - {k})
    decreases |sizes|
  {
    var c :| c in sizes && Total(sizes) == sizes[c] + Total(sizes - {c});
    if c != k {
      TotalWithout(sizes - {c}, k);
      TotalWithout(sizes - {k}, c);
      assert sizes - {c} - {k} == sizes - {k} - {c};
    }
  }

  lemma {:induction false} TotalWith(sizes: map<string, nat>, k: string, n: nat)
    requires k !in sizes
    ensures Total(sizes[k := n]) == Total(sizes) + n
  {
    TotalWithout(sizes[k := n], k);
    assert sizes[k := n] - {k} == sizes;
  }
}
