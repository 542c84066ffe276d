/** build_scene_generation_success_patch: a finished video job written into the scenes of a workspace payload, with the
    progress counted over all scenes. */
module SceneProjection {
  import opened Common

  /** An entry of a scene's job list; not every stored entry is a mapping. */
  datatype JobItem =
    | Junk(raw: nat)
    | Entry(jobId: string, status: string, planStep: string, variantId: string, artifact: string, videoUrl: string,
            completedAt: string, rest: nat)

  datatype Variant = Variant(
    variantId: string, artifact: string, videoUrl: string, selected: bool, approved: bool, completedAt: string, sourceJob: string)

  datatype Scene =
    | NoMapping(raw: nat)
    | Scene(id: string, jobs: Option<seq<JobItem>>, variants: seq<Variant>, editStatus: string,
            approvedVariant: Option<string>, videoUrl: Option<string>, rest: nat)

  /** The job's result: a canonical video URL if there is one, and stripped texts; completedAt "" when absent. */
  datatype Result = Result(videoUrl: Option<string>, variantId: string, artifact: string, completedAt: string)

  const DONE := "regenerated"
  const AWAITING := "awaiting variant review"

  predicate Usable(r: Result) { r.videoUrl.Some? && r.variantId != "" && "artifact:" <= r.artifact }

  predicate Is(item: JobItem, job: string) { item.Entry? && item.jobId == job }

  predicate HasJob(s: Scene, job: string) {
    s.Scene? && s.jobs.Some? && exists i :: 0 <= i < |s.jobs.value| && Is(s.jobs.value[i], job)
  }

  function FinishedAt(r: Result, now: string): string { if r.completedAt != "" then r.completedAt else now }

  function Succeed(item: JobItem, job: string, r: Result, now: string): JobItem
    requires Usable(r)
  {
    if Is(item, job) then
      item.(status := "succeeded", variantId := r.variantId, artifact := r.artifact, videoUrl := r.videoUrl.value,
            completedAt := FinishedAt(r, now))
    else item
  }

  function SucceedAll(jobs: seq<JobItem>, job: string, r: Result, now: string): (after: seq<JobItem>)
    requires Usable(r)
    ensures |after| == |jobs| && forall i :: 0 <= i < |jobs| ==> after[i] == Succeed(jobs[i], job, r, now)
  {
    seq(|jobs|, i requires 0 <= i < |jobs| => Succeed(jobs[i], job, r, now))
  }

  predicate HasVariant(variants: seq<Variant>, id: string) { exists i :: 0 <= i < |variants| && variants[i].variantId == id }

  function WithVariant(variants: seq<Variant>, jobs: seq<JobItem>, job: string, r: Result, now: string): seq<Variant>
    requires Usable(r)
  {
    if HasVariant(variants, r.variantId) then variants
    else variants + [Variant(r.variantId, r.artifact, r.videoUrl.value, |jobs| == 1, |jobs| == 1, FinishedAt(r, now), job)]
  }

  /** The plan step of the first entry of the job. */
  function StepOf(jobs: seq<JobItem>, job: string): string {
    if jobs == [] then "" else if Is(jobs[0], job) then jobs[0].planStep else StepOf(jobs[1..], job)
  }

  /** The entries that belong to the same plan step, or to the job alone when it has none. */
  predicate InCohort(item: JobItem, step: string, job: string) {
    item.Entry? && (if step != "" then item.planStep == step else item.jobId == job)
  }

  function CohortSize(jobs: seq<JobItem>, step: string, job: string): nat {
    if jobs == [] then 0 else (if InCohort(jobs[0], step, job) then 1 else 0) + CohortSize(jobs[1..], step, job)
  }

  predicate CohortSucceeded(jobs: seq<JobItem>, step: string, job: string) {
    forall i :: 0 <= i < |jobs| && InCohort(jobs[i], step, job) ==> jobs[i].status == "succeeded"
  }

  function UpdatedScene(s: Scene, job: string, r: Result, now: string): Scene
    requires Usable(r) && HasJob(s, job)
  {
    var jobs := SucceedAll(s.jobs.value, job, r, now);
    var step := StepOf(jobs, job);
    var all := CohortSize(jobs, step, job) > 0 && CohortSucceeded(jobs, step, job);
    var sole := all && CohortSize(jobs, step, job) == 1;
    s.(jobs := Some(jobs), variants := WithVariant(s.variants, jobs, job, r, now), editStatus := if all then DONE else AWAITING,
       approvedVariant := if sole then Some(r.variantId) else s.approvedVariant,
       videoUrl := if sole then r.videoUrl else s.videoUrl)
  }

  function NextScene(s: Scene, job: string, r: Result, now: string): Scene
    requires Usable(r)
  {
    if HasJob(s, job) then UpdatedScene(s, job, r, now) else s
  }

  function NextScenes(scenes: seq<Scene>, job: string, r: Result, now: string): (after: seq<Scene>)
    requires Usable(r)
    ensures |after| == |scenes| && forall i :: 0 <= i < |scenes| ==> after[i] == NextScene(scenes[i], job, r, now)
  {
    seq(|scenes|, i requires 0 <= i < |scenes| => NextScene(scenes[i], job, r, now))
  }

  // ---------------------------------------------------------------- counting

  predicate Active(item: JobItem) { item.Entry? && item.status in {"queued", "starting", "polling"} }

  function JobsOf(s: Scene): seq<JobItem> { if s.Scene? && s.jobs.Some? then s.jobs.value else [] }

  function CountActive(jobs: seq<JobItem>): nat {
    if jobs == [] then 0 else CountActive(jobs[..|jobs| - 1]) + if Active(jobs[|jobs| - 1]) then 1 else 0
  }

  function CountSettled(jobs: seq<JobItem>): nat {
    if jobs == [] then 0
    else CountSettled(jobs[..|jobs| - 1]) + if jobs[|jobs| - 1].Entry? && !Active(jobs[|jobs| - 1]) then 1 else 0
  }

  function CountJunk(jobs: seq<JobItem>): nat {
    if jobs == [] then 0 else CountJunk(jobs[..|jobs| - 1]) + if jobs[|jobs| - 1].Junk? then 1 else 0
  }

  function Total(scenes: seq<Scene>): nat {
    if scenes == [] then 0 else Total(scenes[..|scenes| - 1]) + |JobsOf(scenes[|scenes| - 1])|
  }

  function Completed(scenes: seq<Scene>): nat {
    if scenes == [] then 0 else Completed(scenes[..|scenes| - 1]) + CountSettled(JobsOf(scenes[|scenes| - 1]))
  }

  /** count_polling_scene_generation_jobs without a plan step. */
  function Polling(scenes: seq<Scene>): nat {
    if scenes == [] then 0 else Polling(scenes[..|scenes| - 1]) + CountActive(JobsOf(scenes[|scenes| - 1]))
  }

  function JunkEntries(scenes: seq<Scene>): nat {
    if scenes == [] then 0 else JunkEntries(scenes[..|scenes| - 1]) + CountJunk(JobsOf(scenes[|scenes| - 1]))
  }

  datatype Progress = Progress(completed: nat, total: nat, ok: bool)

  function ProgressOf(scenes: seq<Scene>): Progress {
    Progress(Completed(scenes), Total(scenes), Completed(scenes) >= Total(scenes) && Total(scenes) > 0)
  }

  datatype Patch = Patch(scene: Scene, dirty: seq<string>, progress: Progress)

  /** The last updated scene is the one the patch carries. */
  function Target(scenes: seq<Scene>, job: string): Option<nat> {
    if scenes == [] then None
    else if HasJob(scenes[|scenes| - 1], job) then Some(|scenes| - 1)
    else Target(scenes[..|scenes| - 1], job)
  }

  function Without(ids: seq<string>, id: string): seq<string> {
    if ids == [] then []
    else Without(ids[..|ids| - 1], id) + if ids[|ids| - 1] != id then [ids[|ids| - 1]] else []
  }

  /** The scene that a patch for the job carries, if the patch is made at all. */
  function SuccessPatch(scenes: seq<Scene>, dirty: seq<string>, job: string, r: Result, now: string): Option<Patch> {
    if !Usable(r) || Target(scenes, job).None? then None
    else
      var after := NextScenes(scenes, job, r, now);
      TargetInRange(scenes, job);
      var target := after[Target(scenes, job).value];
      Some(Patch(target, if target.editStatus == DONE then Without(dirty, target.id) else dirty, ProgressOf(after)))
  }

  lemma {:induction false} TargetInRange(scenes: seq<Scene>, job: string)
    ensures Target(scenes, job).Some? ==> Target(scenes, job).value < |scenes| && HasJob(scenes[Target(scenes, job).value], job)
  {
    if scenes != [] && !HasJob(scenes[|scenes| - 1], job) { TargetInRange(scenes[..|scenes| - 1], job); }
  }

  // ---------------------------------------------------------------- theorems

  lemma {:induction false} JobsAddUp(jobs: seq<JobItem>)
    ensures CountSettled(jobs) + CountActive(jobs) + CountJunk(jobs) == |jobs|
  {
    if jobs != [] { JobsAddUp(jobs[..|jobs| - 1]); }
  }

  lemma {:induction false} ScenesAddUp(scenes: seq<Scene>)
    ensures Completed(scenes) + Polling(scenes) + JunkEntries(scenes) == Total(scenes)
  {
    if scenes != [] {
      ScenesAddUp(scenes[..|scenes| - 1]);
      JobsAddUp(JobsOf(scenes[|scenes| - 1]));
    }
  }

  /** Completed and polling jobs make up the total exactly when every job entry is a mapping; then the projection says ok
      exactly when no job is active and there is one. */
  lemma ProgressIsExact(scenes: seq<Scene>)
    ensures Completed(scenes) + Polling(scenes) == Total(scenes) <==> JunkEntries(scenes) == 0
    ensures JunkEntries(scenes) == 0 ==> (ProgressOf(scenes).ok <==> Polling(scenes) == 0 && Total(scenes) > 0)
    ensures JunkEntries(scenes) > 0 ==> !ProgressOf(scenes).ok
  {
    ScenesAddUp(scenes);
  }

  /** Progress counts a job as polling exactly while its entry says queued, starting or polling. */
  lemma {:induction false} NoneActiveIff(scenes: seq<Scene>)
    ensures Polling(scenes) == 0 <==>
            forall i, k :: 0 <= i < |scenes| && 0 <= k < |JobsOf(scenes[i])| && JobsOf(scenes[i])[k].Entry? ==>
              var status := JobsOf(scenes[i])[k].status; status != "queued" && status != "starting" && status != "polling"
  {
    if scenes != [] {
      NoneActiveIff(scenes[..|scenes| - 1]);
      NoEntryActiveIff(JobsOf(scenes[|scenes| - 1]));
    }
  }

  lemma {:induction false} NoEntryActiveIff(jobs: seq<JobItem>)
    ensures CountActive(jobs) == 0 <==>
            forall k :: 0 <= k < |jobs| && jobs[k].Entry? ==>
              jobs[k].status != "queued" && jobs[k].status != "starting" && jobs[k].status != "polling"
  {
    if jobs != [] { NoEntryActiveIff(jobs[..|jobs| - 1]); }
  }

  lemma {:induction false} TotalKept(scenes: seq<Scene>, job: string, r: Result, now: string)
    requires Usable(r)
    ensures Total(NextScenes(scenes, job, r, now)) == Total(scenes)
    ensures JunkEntries(NextScenes(scenes, job, r, now)) == JunkEntries(scenes)
  {
    if scenes != [] {
      var front, last := scenes[..|scenes| - 1], scenes[|scenes| - 1];
      var after := NextScenes(scenes, job, r, now);
      assert after[..|scenes| - 1] == NextScenes(front, job, r, now);
      TotalKept(front, job, r, now);
      if HasJob(last, job) { JunkKept(last.jobs.value, job, r, now); }
    }
  }

  lemma {:induction false} JunkKept(jobs: seq<JobItem>, job: string, r: Result, now: string)
    requires Usable(r)
    ensures CountJunk(SucceedAll(jobs, job, r, now)) == CountJunk(jobs)
  {
    if jobs != [] {
      assert SucceedAll(jobs, job, r, now)[..|jobs| - 1] == SucceedAll(jobs[..|jobs| - 1], job, r, now);
      JunkKept(jobs[..|jobs| - 1], job, r, now);
    }
  }

  /** What a patch reports: the unchanged total, and completed jobs that with the still active ones make up the total. */
  lemma PatchReportsProgress(scenes: seq<Scene>, dirty: seq<string>, job: string, r: Result, now: string)
    requires SuccessPatch(scenes, dirty, job, r, now).Some? && JunkEntries(scenes) == 0
    ensures var p, after := SuccessPatch(scenes, dirty, job, r, now).value.progress, NextScenes(scenes, job, r, now);
            && p.total == Total(scenes) && p.completed + Polling(after) == p.total
            && (p.ok <==> Polling(after) == 0)
  {
    var after := NextScenes(scenes, job, r, now);
    TotalKept(scenes, job, r, now);
    ProgressIsExact(after);
    TargetInRange(scenes, job);
    TotalAtLeast(scenes, Target(scenes, job).value);
  }

  lemma {:induction false} TotalAtLeast(scenes: seq<Scene>, i: nat)
    requires i < |scenes|
    ensures Total(scenes) >= |JobsOf(scenes[i])|
  {
    if i < |scenes| - 1 { TotalAtLeast(scenes[..|scenes| - 1], i); }
  }

  lemma {:induction false} WithoutKeepsOthers(ids: seq<string>, id: string)
    ensures forall x :: x in Without(ids, id) <==> x in ids && x != id
  {
    if ids != [] {
      WithoutKeepsOthers(ids[..|ids| - 1], id);
      assert ids == ids[..|ids| - 1] + [ids[|ids| - 1]];
    }
  }

  /** A scene stays marked dirty, except the carried one when every job of its cohort has succeeded; the carried scene's
      status says which. */
  lemma DirtyUnlessRegenerated(scenes: seq<Scene>, dirty: seq<string>, job: string, r: Result, now: string, id: string)
    requires SuccessPatch(scenes, dirty, job, r, now).Some?
    ensures var p := SuccessPatch(scenes, dirty, job, r, now).value;
            var jobs := JobsOf(p.scene);
            && HasJob(p.scene, job)
            && (p.scene.editStatus == DONE <==> CohortSucceeded(jobs, StepOf(jobs, job), job))
            && (id in p.dirty <==> id in dirty && !(id == p.scene.id && p.scene.editStatus == DONE))
  {
    var p := SuccessPatch(scenes, dirty, job, r, now).value;
    TargetInRange(scenes, job);
    var before := scenes[Target(scenes, job).value];
    var jobs := SucceedAll(before.jobs.value, job, r, now);
    var k :| 0 <= k < |before.jobs.value| && Is(before.jobs.value[k], job);
    assert Is(jobs[k], job);
    CohortHasTheJob(jobs, job);
    WithoutKeepsOthers(dirty, p.scene.id);
  }

  lemma {:induction false} CohortHasTheJob(jobs: seq<JobItem>, job: string)
    requires exists i :: 0 <= i < |jobs| && Is(jobs[i], job)
    ensures CohortSize(jobs, StepOf(jobs, job), job) > 0
  {
    if !Is(jobs[0], job) {
      var i :| 0 <= i < |jobs| && Is(jobs[i], job);
      assert jobs[1..][i - 1] == jobs[i];
      CohortHasTheJob(jobs[1..], job);
    }
  }

  // ---------------------------------------------------------------- what one delivery writes

  /** The entry says that the job succeeded, with the result's own texts; the rest of it stays. */
  predicate Delivered(before: JobItem, after: JobItem, r: Result, now: string) {
    && after.Entry? && before.Entry? && r.videoUrl.Some?
    && after.jobId == before.jobId && after.planStep == before.planStep && after.rest == before.rest
    && after.status == "succeeded" && after.variantId == r.variantId && after.artifact == r.artifact
    && after.videoUrl == r.videoUrl.value && after.completedAt == (if r.completedAt != "" then r.completedAt else now)
  }

  /** The i-th entry is the job's first one. */
  predicate FirstOf(jobs: seq<JobItem>, job: string, i: nat) {
    i < |jobs| && Is(jobs[i], job) && forall j :: 0 <= j < i ==> !Is(jobs[j], job)
  }

  /** No entry but the i-th belongs to its plan step; without one, no other entry is of its job. */
  predicate Alone(jobs: seq<JobItem>, i: nat)
    requires i < |jobs| && jobs[i].Entry?
  {
    forall j :: 0 <= j < |jobs| && j != i && jobs[j].Entry? ==>
      if jobs[i].planStep != "" then jobs[j].planStep != jobs[i].planStep else jobs[j].jobId != jobs[i].jobId
  }

  lemma {:induction false} StepOfFirst(jobs: seq<JobItem>, job: string, i: nat)
    requires FirstOf(jobs, job, i)
    ensures StepOf(jobs, job) == jobs[i].planStep
  {
    if i > 0 { StepOfFirst(jobs[1..], job, i - 1); }
  }

  lemma {:induction false} CohortEmpty(jobs: seq<JobItem>, step: string, job: string)
    ensures CohortSize(jobs, step, job) == 0 <==> forall j :: 0 <= j < |jobs| ==> !InCohort(jobs[j], step, job)
  {
    if jobs != [] {
      CohortEmpty(jobs[1..], step, job);
      assert forall j :: 0 < j < |jobs| ==> jobs[1..][j - 1] == jobs[j];
    }
  }

  lemma {:induction false} CohortOfOne(jobs: seq<JobItem>, step: string, job: string, i: nat)
    requires i < |jobs| && InCohort(jobs[i], step, job)
    ensures CohortSize(jobs, step, job) == 1 <==> forall j :: 0 <= j < |jobs| && j != i ==> !InCohort(jobs[j], step, job)
  {
    assert forall j :: 0 < j < |jobs| ==> jobs[1..][j - 1] == jobs[j];
    if i == 0 {
      CohortEmpty(jobs[1..], step, job);
    } else {
      CohortOfOne(jobs[1..], step, job, i - 1);
      CohortEmpty(jobs[1..], step, job);
    }
  }

  /** A delivery writes into a scene with the job, whose first entry is the i-th: the job's entries say that it succeeded, with
      the result's artifact and video; the variant is added once, with the same texts, selected and approved when the scene has
      a single entry; and the scene shows variant and video itself exactly when the job's entry is alone in its plan step.
      Nothing else changes. */
  lemma DeliveryWrites(s: Scene, job: string, r: Result, now: string, i: nat)
    requires Usable(r) && s.Scene? && s.jobs.Some? && FirstOf(s.jobs.value, job, i)
    ensures var jobs, after := s.jobs.value, NextScene(s, job, r, now);
            && after.Scene? && after.jobs.Some? && |after.jobs.value| == |jobs|
            && (forall k :: 0 <= k < |jobs| ==> if Is(jobs[k], job) then Delivered(jobs[k], after.jobs.value[k], r, now)
                                                else after.jobs.value[k] == jobs[k])
            && after.variants == (if exists k :: 0 <= k < |s.variants| && s.variants[k].variantId == r.variantId then s.variants
                                  else s.variants + [Variant(r.variantId, r.artifact, r.videoUrl.value, |jobs| == 1, |jobs| == 1,
                                                             if r.completedAt != "" then r.completedAt else now, job)])
            && (after.approvedVariant, after.videoUrl) ==
                 (if Alone(jobs, i) then (Some(r.variantId), r.videoUrl) else (s.approvedVariant, s.videoUrl))
            && after.id == s.id && after.rest == s.rest
  {
    var jobs := SucceedAll(s.jobs.value, job, r, now);
    var step := StepOf(jobs, job);
    assert HasJob(s, job);
    assert FirstOf(jobs, job, i);
    StepOfFirst(jobs, job, i);
    CohortOfOne(jobs, step, job, i);
    assert forall j :: 0 <= j < |jobs| ==> InCohort(jobs[j], step, job) == InCohort(s.jobs.value[j], step, job);
    if Alone(s.jobs.value, i) {
      assert forall j :: 0 <= j < |jobs| && j != i ==> !InCohort(jobs[j], step, job);
      assert CohortSucceeded(jobs, step, job);
    }
  }

  // ---------------------------------------------------------------- delivering again, at another time

  /** The same entry, perhaps finished at another time. */
  predicate SameButTime(a: JobItem, b: JobItem) {
    a == b || (a.Entry? && b.Entry? && b == a.(completedAt := b.completedAt))
  }

  predicate SameButTimes(a: seq<JobItem>, b: seq<JobItem>) {
    |a| == |b| && forall i :: 0 <= i < |a| ==> SameButTime(a[i], b[i])
  }

  /** The same scene, variants and status included, up to the times in its job list. */
  predicate SameSceneButTimes(a: Scene, b: Scene) {
    || a == b
    || (a.Scene? && b.Scene? && a.jobs.Some? && b.jobs.Some? && b == a.(jobs := b.jobs) && SameButTimes(a.jobs.value, b.jobs.value))
  }

  lemma {:induction false} SameCohort(a: seq<JobItem>, b: seq<JobItem>, step: string, job: string)
    requires SameButTimes(a, b)
    ensures StepOf(a, job) == StepOf(b, job) && CohortSize(a, step, job) == CohortSize(b, step, job)
    ensures CohortSucceeded(a, step, job) <==> CohortSucceeded(b, step, job)
  {
    if a != [] {
      assert forall i :: 0 <= i < |a| ==> SameButTime(a[i], b[i]);
      SameCohort(a[1..], b[1..], step, job);
      assert forall i :: 0 <= i < |a| ==> InCohort(a[i], step, job) == InCohort(b[i], step, job);
    }
  }

  lemma {:induction false} SameSettled(a: seq<JobItem>, b: seq<JobItem>)
    requires SameButTimes(a, b)
    ensures CountSettled(a) == CountSettled(b)
  {
    if a != [] {
      assert SameButTime(a[|a| - 1], b[|b| - 1]);
      SameSettled(a[..|a| - 1], b[..|b| - 1]);
    }
  }

  lemma {:induction false} SameProgress(a: seq<Scene>, b: seq<Scene>)
    requires |a| == |b| && forall i :: 0 <= i < |a| ==> SameButTimes(JobsOf(a[i]), JobsOf(b[i]))
    ensures ProgressOf(a) == ProgressOf(b)
  {
    if a != [] {
      SameSettled(JobsOf(a[|a| - 1]), JobsOf(b[|b| - 1]));
      SameProgress(a[..|a| - 1], b[..|b| - 1]);
    }
  }

  lemma SceneReplay(s: Scene, job: string, r: Result, now: string, later: string)
    requires Usable(r) && HasJob(s, job)
    ensures var once := NextScene(s, job, r, now);
            var twice := NextScene(once, job, r, later);
            SameSceneButTimes(once, twice) && (twice == once <==> r.completedAt != "" || later == now)
  {
    var once := UpdatedScene(s, job, r, now);
    var jobs, again := once.jobs.value, SucceedAll(once.jobs.value, job, r, later);
    assert SameButTimes(jobs, again);
    var k :| 0 <= k < |s.jobs.value| && Is(s.jobs.value[k], job);
    assert Is(jobs[k], job) && again[k].completedAt == FinishedAt(r, later) && jobs[k].completedAt == FinishedAt(r, now);
    if r.completedAt != "" || later == now { assert again == jobs; }
    if !HasVariant(s.variants, r.variantId) {
      assert once.variants[|s.variants|].variantId == r.variantId;
    }
    assert HasVariant(once.variants, r.variantId);
    SameCohort(jobs, again, StepOf(jobs, job), job);
  }

  /** Delivering the same success again, at any time: no second variant, the same statuses and progress. Nothing at all
      changes if and only if no scene has the job, the result carries its own time, or the clock reads the same. */
  lemma ReplayChangesOnlyTimes(scenes: seq<Scene>, job: string, r: Result, now: string, later: string)
    requires Usable(r)
    ensures var once := NextScenes(scenes, job, r, now);
            var twice := NextScenes(once, job, r, later);
            && (forall i :: 0 <= i < |scenes| ==> SameSceneButTimes(once[i], twice[i]))
            && ProgressOf(twice) == ProgressOf(once)
            && (twice == once <==>
                  (forall i :: 0 <= i < |scenes| ==> !HasJob(scenes[i], job)) || r.completedAt != "" || later == now)
  {
    var once := NextScenes(scenes, job, r, now);
    var twice := NextScenes(once, job, r, later);
    forall i | 0 <= i < |scenes|
      ensures SameSceneButTimes(once[i], twice[i])
      ensures !HasJob(scenes[i], job) ==> twice[i] == once[i]
      ensures HasJob(scenes[i], job) ==> (twice[i] == once[i] <==> r.completedAt != "" || later == now)
    {
      if HasJob(scenes[i], job) { SceneReplay(scenes[i], job, r, now, later); }
    }
    SameProgress(once, twice);
  }

  // ---------------------------------------------------------------- the order of two deliveries

  function VariantIds(s: Scene): set<string> {
    if s.Scene? then set i | 0 <= i < |s.variants| :: s.variants[i].variantId else {}
  }

  /** The order in which two jobs finish, each at its own time, does not matter to job entries, variant ids and progress. */
  lemma SuccessesCommute(scenes: seq<Scene>, a: string, ra: Result, nowA: string, b: string, rb: Result, nowB: string)
    requires a != b && Usable(ra) && Usable(rb)
    ensures var ab := NextScenes(NextScenes(scenes, a, ra, nowA), b, rb, nowB);
            var ba := NextScenes(NextScenes(scenes, b, rb, nowB), a, ra, nowA);
            && (forall i :: 0 <= i < |scenes| ==> JobsOf(ab[i]) == JobsOf(ba[i]) && VariantIds(ab[i]) == VariantIds(ba[i]))
            && ProgressOf(ab) == ProgressOf(ba)
  {
    var ab := NextScenes(NextScenes(scenes, a, ra, nowA), b, rb, nowB);
    var ba := NextScenes(NextScenes(scenes, b, rb, nowB), a, ra, nowA);
    forall i | 0 <= i < |scenes| ensures JobsOf(ab[i]) == JobsOf(ba[i]) && VariantIds(ab[i]) == VariantIds(ba[i]) {
      SceneCommutes(scenes[i], a, ra, nowA, b, rb, nowB);
    }
    SameProgress(ab, ba);
  }

  lemma SceneCommutes(s: Scene, a: string, ra: Result, nowA: string, b: string, rb: Result, nowB: string)
    requires a != b && Usable(ra) && Usable(rb)
    ensures var ab, ba := NextScene(NextScene(s, a, ra, nowA), b, rb, nowB), NextScene(NextScene(s, b, rb, nowB), a, ra, nowA);
            JobsOf(ab) == JobsOf(ba) && VariantIds(ab) == VariantIds(ba)
  {
    OtherJobsStay(s, a, ra, b, nowA);
    OtherJobsStay(s, b, rb, a, nowB);
    VariantsAfter(s, a, ra, nowA);
    VariantsAfter(s, b, rb, nowB);
    VariantsAfter(NextScene(s, a, ra, nowA), b, rb, nowB);
    VariantsAfter(NextScene(s, b, rb, nowB), a, ra, nowA);
    if HasJob(s, a) && HasJob(s, b) {
      var jobs := s.jobs.value;
      assert SucceedAll(SucceedAll(jobs, a, ra, nowA), b, rb, nowB) == SucceedAll(SucceedAll(jobs, b, rb, nowB), a, ra, nowA);
    }
  }

  lemma OtherJobsStay(s: Scene, job: string, r: Result, other: string, now: string)
    requires Usable(r) && job != other
    ensures HasJob(NextScene(s, job, r, now), other) <==> HasJob(s, other)
  {
    if HasJob(s, job) {
      var jobs, after := s.jobs.value, SucceedAll(s.jobs.value, job, r, now);
      assert forall i :: 0 <= i < |jobs| ==> Is(after[i], other) == Is(jobs[i], other);
    }
  }

  lemma VariantsAfter(s: Scene, job: string, r: Result, now: string)
    requires Usable(r)
    ensures VariantIds(NextScene(s, job, r, now)) == if HasJob(s, job) then VariantIds(s) + {r.variantId} else VariantIds(s)
  {
    if HasJob(s, job) {
      var after := NextScene(s, job, r, now).variants;
      assert forall i :: 0 <= i < |s.variants| ==> after[i] == s.variants[i];
      if HasVariant(s.variants, r.variantId) {
        var i :| 0 <= i < |s.variants| && s.variants[i].variantId == r.variantId;
        assert after == s.variants;
      } else {
        assert after[|s.variants|].variantId == r.variantId && |after| == |s.variants| + 1;
      }
    }
  }

  // ---------------------------------------------------------------- the loops of the source

  /** The inner loop over one scene's job list. */
  method SucceedLoop(jobs: seq<JobItem>, job: string, r: Result, now: string) returns (next: seq<JobItem>)
    requires Usable(r)
    ensures next == SucceedAll(jobs, job, r, now)
  {
    next := [];
    for i := 0 to |jobs|
      invariant |next| == i && forall k :: 0 <= k < i ==> next[k] == Succeed(jobs[k], job, r, now)
    {
      var item := jobs[i];
      if item.Entry? && item.jobId == job {
        item := item.(status := "succeeded", variantId := r.variantId, artifact := r.artifact, videoUrl := r.videoUrl.value,
                      completedAt := FinishedAt(r, now));
      }
      next := next + [item];
    }
  }

  method UpdateScene(s: Scene, job: string, r: Result, now: string) returns (updated: Scene)
    requires Usable(r) && HasJob(s, job)
    ensures updated == UpdatedScene(s, job, r, now)
  {
    var jobs := SucceedLoop(s.jobs.value, job, r, now);
    var step := StepOf(jobs, job);
    var size := CohortSize(jobs, step, job);
    var all := size > 0 && CohortSucceeded(jobs, step, job);
    updated := s.(jobs := Some(jobs), variants := WithVariant(s.variants, jobs, job, r, now),
                  editStatus := if all then DONE else AWAITING);
    if all && size == 1 { updated := updated.(approvedVariant := Some(r.variantId), videoUrl := r.videoUrl); }
  }

  /** The outer loop: the new scenes, and which of them the patch carries. */
  method UpdateLoop(scenes: seq<Scene>, job: string, r: Result, now: string) returns (next: seq<Scene>, target: Option<nat>)
    requires Usable(r)
    ensures next == NextScenes(scenes, job, r, now) && target == Target(scenes, job)
  {
    next, target := [], None;
    for i := 0 to |scenes|
      invariant |next| == i && forall k :: 0 <= k < i ==> next[k] == NextScene(scenes[k], job, r, now)
      invariant target == Target(scenes[..i], job)
    {
      assert scenes[..i + 1][..i] == scenes[..i];
      var scene := scenes[i];
      if HasJob(scene, job) {
        scene := UpdateScene(scene, job, r, now);
        target := Some(i);
      }
      next := next + [scene];
    }
    assert scenes[..|scenes|] == scenes;
  }

  /** The two sums. */
  method CountLoop(scenes: seq<Scene>) returns (progress: Progress)
    ensures progress == ProgressOf(scenes)
  {
    var total, completed := 0, 0;
    for i := 0 to |scenes|
      invariant total == Total(scenes[..i]) && completed == Completed(scenes[..i])
    {
      assert scenes[..i + 1][..i] == scenes[..i];
      total := total + |JobsOf(scenes[i])|;
      completed := completed + CountSettled(JobsOf(scenes[i]));
    }
    assert scenes[..|scenes|] == scenes;
    progress := Progress(completed, total, completed >= total && total > 0);
  }

  method BuildSuccessPatch(scenes: seq<Scene>, dirty: seq<string>, job: string, r: Result, now: string) returns (patch: Option<Patch>)
    ensures patch == SuccessPatch(scenes, dirty, job, r, now)
  {
    if !Usable(r) { return None; }
    var next, target := UpdateLoop(scenes, job, r, now);
    if target.None? { return None; }
    TargetInRange(scenes, job);
    var carried := next[target.value];
    var left := dirty;
    if carried.editStatus == DONE { left := Without(dirty, carried.id); }
    var progress := CountLoop(next);
    return Some(Patch(carried, left, progress));
  }
}
