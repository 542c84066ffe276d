/** Which jobs reopen_missing_image_results reopens: one of each workspace item, the items in order of first appearance. */
module GenerationJobReopening {
  import opened Common
  import opened GenerationJobState

  function Reopenables(jobs: Jobs): set<JobId> {
    set id | id in jobs && Reopenable(jobs, id)
  }

  /** The items of the wanted jobs, in the order in which the scan meets them. */
  function SlotsInOrder(jobs: Jobs, order: seq<JobId>, wanted: set<JobId>): seq<Slot>
    requires wanted <= jobs.Keys
  {
    if order == [] then []
    else
      var before, id := SlotsInOrder(jobs, order[..|order| - 1], wanted), order[|order| - 1];
      if id in wanted && SlotOf(jobs[id]) !in before then before + [SlotOf(jobs[id])] else before
  }

  predicate Replaces(jobs: Jobs, id: JobId, current: Option<JobId>)
    requires id in jobs && (current.Some? ==> current.value in jobs)
  {
    current.None? || jobs[id].createdAt > jobs[current.value].createdAt
  }

  /** The wanted job of an item that the scan ends with. */
  function Newest(jobs: Jobs, order: seq<JobId>, wanted: set<JobId>, slot: Slot): (r: Option<JobId>)
    requires wanted <= jobs.Keys
    ensures r.Some? ==> r.value in order && r.value in wanted && SlotOf(jobs[r.value]) == slot
  {
    if order == [] then None
    else
      var before, id := Newest(jobs, order[..|order| - 1], wanted, slot), order[|order| - 1];
      if id in wanted && SlotOf(jobs[id]) == slot && Replaces(jobs, id, before) then Some(id) else before
  }

  function Chosen(jobs: Jobs, order: seq<JobId>, wanted: set<JobId>, slots: seq<Slot>): set<JobId>
    requires wanted <= jobs.Keys
  {
    if slots == [] then {}
    else
      var newest := Newest(jobs, order, wanted, slots[|slots| - 1]);
      Chosen(jobs, order, wanted, slots[..|slots| - 1]) + if newest.Some? then {newest.value} else {}
  }

  /** No job of the item was created later, and of those created at the same time it is the first. */
  lemma {:induction false} NewestIsLatest(jobs: Jobs, order: seq<JobId>, wanted: set<JobId>, slot: Slot, b: JobId)
    requires wanted <= jobs.Keys && b in order && b in wanted && SlotOf(jobs[b]) == slot
    ensures var r := Newest(jobs, order, wanted, slot); r.Some? && jobs[b].createdAt <= jobs[r.value].createdAt
  {
    var front := order[..|order| - 1];
    assert order == front + [order[|order| - 1]];
    if b in front { NewestIsLatest(jobs, front, wanted, slot, b); }
  }

  /** An item has a newest job exactly when the scan meets it. */
  lemma {:induction false} MetIffNewest(jobs: Jobs, order: seq<JobId>, wanted: set<JobId>, slot: Slot)
    requires wanted <= jobs.Keys
    ensures slot in SlotsInOrder(jobs, order, wanted) <==> Newest(jobs, order, wanted, slot).Some?
  {
    if order != [] { MetIffNewest(jobs, order[..|order| - 1], wanted, slot); }
  }

  predicate DistinctSlots(slots: seq<Slot>) { forall i, k :: 0 <= i < k < |slots| ==> slots[i] != slots[k] }

  lemma {:induction false} SlotsAreDistinct(jobs: Jobs, order: seq<JobId>, wanted: set<JobId>)
    requires wanted <= jobs.Keys
    ensures DistinctSlots(SlotsInOrder(jobs, order, wanted))
  {
    if order != [] { SlotsAreDistinct(jobs, order[..|order| - 1], wanted); }
  }

  /** One job for each of the slots. */
  lemma {:induction false} ChosenAreNewest(jobs: Jobs, order: seq<JobId>, wanted: set<JobId>, slots: seq<Slot>)
    requires wanted <= jobs.Keys && DistinctSlots(slots)
    requires forall i :: 0 <= i < |slots| ==> Newest(jobs, order, wanted, slots[i]).Some?
    ensures var ids := Chosen(jobs, order, wanted, slots);
            |ids| == |slots| && forall id :: id in ids ==>
              id in wanted && SlotOf(jobs[id]) in slots && Newest(jobs, order, wanted, SlotOf(jobs[id])) == Some(id)
  {
    if slots != [] {
      var front, last := slots[..|slots| - 1], slots[|slots| - 1];
      assert slots == front + [last];
      ChosenAreNewest(jobs, order, wanted, front);
      assert last !in front;
      var newest := Newest(jobs, order, wanted, last).value;
      assert newest !in Chosen(jobs, order, wanted, front);
      assert Chosen(jobs, order, wanted, slots) == Chosen(jobs, order, wanted, front) + {newest};
    }
  }

  /** One job per slot: the reopenable job created last in its workspace and item. */
  ghost predicate LatestOfSlots(jobs: Jobs, ids: set<JobId>) {
    && (forall id :: id in ids ==> Reopenable(jobs, id))
    && (forall a, b :: a in ids && b in ids && SlotOf(jobs[a]) == SlotOf(jobs[b]) ==> a == b)
    && (forall a, b :: a in ids && Reopenable(jobs, b) && SlotOf(jobs[a]) == SlotOf(jobs[b]) ==>
          jobs[b].createdAt <= jobs[a].createdAt)
  }

  lemma PrefixIsChosen(jobs: Jobs, order: seq<JobId>, wanted: set<JobId>, n: nat)
    requires wanted <= jobs.Keys && n <= |SlotsInOrder(jobs, order, wanted)|
    ensures var ids := Chosen(jobs, order, wanted, SlotsInOrder(jobs, order, wanted)[..n]);
            |ids| == n && forall id :: id in ids ==> id in wanted && Newest(jobs, order, wanted, SlotOf(jobs[id])) == Some(id)
  {
    var slots := SlotsInOrder(jobs, order, wanted);
    SlotsAreDistinct(jobs, order, wanted);
    forall i | 0 <= i < n ensures Newest(jobs, order, wanted, slots[i]).Some? { MetIffNewest(jobs, order, wanted, slots[i]); }
    ChosenAreNewest(jobs, order, wanted, slots[..n]);
  }

  /** Whatever the limit, the jobs reopened are the latest of their items, and none is reopened twice. */
  lemma ChosenAreLatest(jobs: Jobs, order: seq<JobId>, n: nat)
    requires (set id | id in order) == jobs.Keys && n <= |SlotsInOrder(jobs, order, Reopenables(jobs))|
    ensures var ids := Chosen(jobs, order, Reopenables(jobs), SlotsInOrder(jobs, order, Reopenables(jobs))[..n]);
            |ids| == n && LatestOfSlots(jobs, ids)
  {
    var wanted := Reopenables(jobs);
    var ids := Chosen(jobs, order, wanted, SlotsInOrder(jobs, order, wanted)[..n]);
    PrefixIsChosen(jobs, order, wanted, n);
    forall a, b | a in ids && Reopenable(jobs, b) && SlotOf(jobs[a]) == SlotOf(jobs[b])
      ensures jobs[b].createdAt <= jobs[a].createdAt
    {
      assert b in (set id | id in order);
      NewestIsLatest(jobs, order, wanted, SlotOf(jobs[a]), b);
    }
  }

  lemma {:induction false} NewestIsChosen(jobs: Jobs, order: seq<JobId>, wanted: set<JobId>, slots: seq<Slot>, i: nat)
    requires wanted <= jobs.Keys && i < |slots| && Newest(jobs, order, wanted, slots[i]).Some?
    ensures Newest(jobs, order, wanted, slots[i]).value in Chosen(jobs, order, wanted, slots)
  {
    if i < |slots| - 1 { NewestIsChosen(jobs, order, wanted, slots[..|slots| - 1], i); }
  }

  /** With no limit in the way, every item with a missing result and no success gets one reopened, the latest. */
  lemma EveryItemIsReopened(jobs: Jobs, order: seq<JobId>, id: JobId)
    requires (set k | k in order) == jobs.Keys && Reopenable(jobs, id)
    ensures var wanted := Reopenables(jobs);
            exists k :: k in Chosen(jobs, order, wanted, SlotsInOrder(jobs, order, wanted)) && k in jobs
                        && SlotOf(jobs[k]) == SlotOf(jobs[id]) && jobs[id].createdAt <= jobs[k].createdAt
  {
    var wanted, slot := Reopenables(jobs), SlotOf(jobs[id]);
    assert id in (set k | k in order);
    NewestIsLatest(jobs, order, wanted, slot, id);
    MetIffNewest(jobs, order, wanted, slot);
    var slots := SlotsInOrder(jobs, order, wanted);
    var i :| 0 <= i < |slots| && slots[i] == slot;
    NewestIsChosen(jobs, order, wanted, slots, i);
    assert SlotOf(jobs[Newest(jobs, order, wanted, slot).value]) == slot;
  }

  // ---------------------------------------------------------------- the scan

  /** The scan's dictionary holds the newest job of every item met so far. */
  ghost predicate Tabulates(latest: map<Slot, JobId>, jobs: Jobs, scanned: seq<JobId>, wanted: set<JobId>)
    requires wanted <= jobs.Keys
  {
    forall slot :: (if slot in latest then Some(latest[slot]) else None) == Newest(jobs, scanned, wanted, slot)
  }

  lemma ScanOne(latest: map<Slot, JobId>, jobs: Jobs, scanned: seq<JobId>, id: JobId, wanted: set<JobId>)
    requires wanted <= jobs.Keys && id in jobs && Tabulates(latest, jobs, scanned, wanted)
    ensures var slot := SlotOf(jobs[id]);
            && Newest(jobs, scanned, wanted, slot) == (if slot in latest then Some(latest[slot]) else None)
            && (slot in latest ==> latest[slot] in jobs)
            && (if id in wanted && (slot !in latest || jobs[id].createdAt > jobs[latest[slot]].createdAt) then
                  Tabulates(latest[slot := id], jobs, scanned + [id], wanted)
                else Tabulates(latest, jobs, scanned + [id], wanted))
  {
    assert (scanned + [id])[..|scanned|] == scanned;
    assert Newest(jobs, scanned, wanted, SlotOf(jobs[id])) ==
           if SlotOf(jobs[id]) in latest then Some(latest[SlotOf(jobs[id])]) else None;
  }

  lemma MeetOne(latest: map<Slot, JobId>, jobs: Jobs, scanned: seq<JobId>, id: JobId, wanted: set<JobId>)
    requires wanted <= jobs.Keys && id in jobs && Tabulates(latest, jobs, scanned, wanted)
    ensures SlotsInOrder(jobs, scanned + [id], wanted) ==
            if id in wanted && SlotOf(jobs[id]) !in latest then SlotsInOrder(jobs, scanned, wanted) + [SlotOf(jobs[id])]
            else SlotsInOrder(jobs, scanned, wanted)
  {
    assert (scanned + [id])[..|scanned|] == scanned;
    MetIffNewest(jobs, scanned, wanted, SlotOf(jobs[id]));
  }
}
