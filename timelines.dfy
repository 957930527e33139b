/**
  The timeline list: an ordered list of cursors into the dilemma tree, the
  palette that colours them, and the transition that a user's choice applies to
  the list (the updater that `handleChoice` hands to `setTimelines`).
 */
module Timelines {
  import opened Wrappers
  import opened Dilemmas

  /**
    One universe: `choices` is the history of choice texts taken so far,
    `current` the dilemma its cursor is on. `depth` is a plain number in the
    source, hence `int` here; the invariant below ties it to the history.
   */
  datatype Timeline = Timeline(id: string, choices: seq<string>, current: Dilemma, depth: int, color: string)

  /** The fixed palette, consumed cyclically by list position. */
  const COLORS: seq<string> := ["#8A2BE2", "#FF1493", "#00CED1", "#FFD700", "#FF4500", "#32CD32", "#FF69B4", "#1E90FF"]

  /** The colour given to the timeline at list position `n`: `COLORS[n % COLORS.length]`. */
  function ColorFor(n: nat): (r: string)
    ensures r in COLORS
  {
    COLORS[n % |COLORS|]
  }

  /** The palette repeats after eight positions ... */
  lemma ColorCycle(n: nat)
    ensures ColorFor(n + |COLORS|) == ColorFor(n)
  {
  }

  /** ... and within any eight consecutive positions no colour repeats. */
  lemma ColorsDistinctWithinCycle(i: nat, j: nat)
    requires i < j < i + |COLORS|
    ensures ColorFor(i) != ColorFor(j)
  {
  }

  /**
    `findIndex(t => t.id === timelineId)`: the first position holding that id,
    or -1 when no timeline has it. Ids are not assumed to be unique.
   */
  function FindIndex(ts: seq<Timeline>, timelineId: string): (r: int)
    ensures -1 <= r < |ts|
    ensures r == -1 <==> forall j :: 0 <= j < |ts| ==> ts[j].id != timelineId
    ensures 0 <= r ==> ts[r].id == timelineId && forall j :: 0 <= j < r ==> ts[j].id != timelineId
    decreases |ts|
  {
    if ts == [] then -1
    else if ts[0].id == timelineId then 0
    else
      var k := FindIndex(ts[1..], timelineId);
      if k == -1 then -1 else k + 1
  }

  /** The list the page starts with, and the one a reset installs. */
  function Initial(): (r: seq<Timeline>)
    ensures |r| == 1 && r[0].choices == [] && r[0].current == START
    ensures Consistent(START, r)
  {
    [Timeline("timeline-0", [], START, 0, COLORS[0])]
  }

  /**
    What a non-terminal choice needs so that the updater does not throw: the
    timeline id is found (else the lookup of the sibling dereferences
    `undefined`), and the current dilemma has a choice whose id differs from the
    chosen one (else `find` yields `undefined` and reading its `nextDilemma` throws).
   */
  predicate Admissible(ts: seq<Timeline>, timelineId: string, c: Choice) {
    var i := FindIndex(ts, timelineId);
    && 0 <= i
    && (ts[i].current.first.id != c.id || ts[i].current.second.id != c.id)
  }

  /**
    The choice is one of the two offered by the timeline's current dilemma, as
    every button the page renders for that timeline is. The source does not check it.
   */
  predicate FromCurrentDilemma(ts: seq<Timeline>, timelineId: string, c: Choice)
    requires 0 <= FindIndex(ts, timelineId)
  {
    IsChoiceOf(ts[FindIndex(ts, timelineId)].current, c)
  }

  /**
    The list after the user picks `c` on the timeline with id `timelineId`.
    `freshId` stands for the id the source builds from the clock and a random number.
   */
  function Step(ts: seq<Timeline>, timelineId: string, c: Choice, freshId: string): (r: seq<Timeline>)
    requires c.next.Some? ==> Admissible(ts, timelineId, c)
    // a terminal choice leaves the list as it was
    ensures c.next.None? ==> r == ts
    // the list never shrinks and gains at most one timeline
    ensures |ts| <= |r| <= |ts| + 1
    // the chosen timeline advances in place, keeping its id and colour
    ensures c.next.Some? ==>
      var i := FindIndex(ts, timelineId);
      && r[i].id == ts[i].id && r[i].color == ts[i].color
      && r[i].choices == ts[i].choices + [c.text]
      && r[i].current == c.next.value
      && r[i].depth == ts[i].depth + 1
    // every other timeline already in the list is untouched
    ensures forall j :: 0 <= j < |ts| && j != FindIndex(ts, timelineId) ==> r[j] == ts[j]
    // the road not taken is appended exactly when it continues, from the pre-advance history
    ensures c.next.Some? ==>
      var i := FindIndex(ts, timelineId);
      var other := Other(ts[i].current, c);
      && (|r| == |ts| + 1 <==> other.next.Some?)
      && (other.next.Some? ==>
            r[|ts|] == Timeline(freshId, ts[i].choices + [other.text], other.next.value,
                                ts[i].depth + 1, ColorFor(|ts|)))
  {
    if c.next.None? then ts
    else
      var i := FindIndex(ts, timelineId);
      var t := ts[i];
      var other := Other(t.current, c);
      var advanced := t.(choices := t.choices + [c.text], current := c.next.value, depth := t.depth + 1);
      var updated := ts[i := advanced];
      if other.next.Some? then
        updated + [Timeline(freshId, t.choices + [other.text], other.next.value, t.depth + 1, ColorFor(|updated|))]
      else
        updated
  }

  /** Any choice on a timeline that has reached an endpoint changes nothing. */
  lemma EndpointInert(ts: seq<Timeline>, timelineId: string, c: Choice, freshId: string)
    requires 0 <= FindIndex(ts, timelineId)
    requires IsEndpoint(ts[FindIndex(ts, timelineId)].current)
    requires IsChoiceOf(ts[FindIndex(ts, timelineId)].current, c)
    ensures Step(ts, timelineId, c, freshId) == ts
  {
  }

  // ---------------------------------------------------------------------------
  // The list invariant

  ghost predicate DepthMatchesHistory(ts: seq<Timeline>) {
    forall i :: 0 <= i < |ts| ==> ts[i].depth == |ts[i].choices|
  }

  ghost predicate ColoredByPosition(ts: seq<Timeline>) {
    forall i :: 0 <= i < |ts| ==> ts[i].color == ColorFor(i)
  }

  /** Each timeline's history, followed from the root, leads to its current dilemma. */
  ghost predicate HistoriesLeadToCursors(root: Dilemma, ts: seq<Timeline>) {
    forall i :: 0 <= i < |ts| ==> Follow(root, ts[i].choices) == Some(ts[i].current)
  }

  /** The endpoints still ahead of all timelines together. */
  ghost function TotalLeaves(ts: seq<Timeline>): nat
    decreases |ts|
  {
    if ts == [] then 0 else TotalLeaves(ts[..|ts| - 1]) + Leaves(ts[|ts| - 1].current)
  }

  /**
    The invariant of the timeline list over the tree rooted at `root`: depth is
    the history's length, colour is fixed by position, histories lead to the
    cursors, and the timelines share out the root's endpoints between them.
   */
  ghost predicate Consistent(root: Dilemma, ts: seq<Timeline>) {
    && DepthMatchesHistory(ts)
    && ColoredByPosition(ts)
    && HistoriesLeadToCursors(root, ts)
    && TotalLeaves(ts) == Leaves(root)
  }

  lemma TotalLeavesAppend(ts: seq<Timeline>, t: Timeline)
    ensures TotalLeaves(ts + [t]) == TotalLeaves(ts) + Leaves(t.current)
  {
    assert (ts + [t])[..|ts|] == ts;
  }

  lemma {:induction false} TotalLeavesUpdate(ts: seq<Timeline>, i: nat, t: Timeline)
    requires i < |ts|
    ensures TotalLeaves(ts[i := t]) == TotalLeaves(ts) - Leaves(ts[i].current) + Leaves(t.current)
    decreases |ts|
  {
    var n := |ts| - 1;
    if i == n {
      assert ts[i := t][..n] == ts[..n];
    } else {
      assert ts[i := t][..n] == ts[..n][i := t];
      TotalLeavesUpdate(ts[..n], i, t);
    }
  }

  lemma {:induction false} TotalLeavesCoversLength(ts: seq<Timeline>)
    ensures |ts| <= TotalLeaves(ts)
    decreases |ts|
  {
    if ts != [] {
      TotalLeavesCoversLength(ts[..|ts| - 1]);
      LeavesPositive(ts[|ts| - 1].current);
    }
  }

  /**
    A consistent list is bounded by the tree: it holds at most as many
    timelines as the tree has endpoints, and no timeline is deeper than the tree.
   */
  lemma ConsistentBounds(root: Dilemma, ts: seq<Timeline>)
    requires Consistent(root, ts)
    ensures |ts| <= Leaves(root)
    ensures forall i :: 0 <= i < |ts| ==> 0 <= ts[i].depth <= Height(root)
  {
    TotalLeavesCoversLength(ts);
    forall i | 0 <= i < |ts|
      ensures 0 <= ts[i].depth <= Height(root)
    {
      FollowStaysInTree(root, ts[i].choices, ts[i].current);
    }
  }

  lemma StepKeepsDepth(ts: seq<Timeline>, timelineId: string, c: Choice, freshId: string)
    requires DepthMatchesHistory(ts)
    requires c.next.Some? ==> Admissible(ts, timelineId, c)
    ensures DepthMatchesHistory(Step(ts, timelineId, c, freshId))
  {
  }

  lemma StepKeepsColors(ts: seq<Timeline>, timelineId: string, c: Choice, freshId: string)
    requires ColoredByPosition(ts)
    requires c.next.Some? ==> Admissible(ts, timelineId, c)
    ensures ColoredByPosition(Step(ts, timelineId, c, freshId))
  {
    var r := Step(ts, timelineId, c, freshId);
    forall j | 0 <= j < |r|
      ensures r[j].color == ColorFor(j)
    {
      if j < |ts| {
        assert r[j].color == ts[j].color;
      }
    }
  }

  lemma StepKeepsHistories(root: Dilemma, ts: seq<Timeline>, timelineId: string, c: Choice, freshId: string)
    requires WellFormed(root)
    requires HistoriesLeadToCursors(root, ts)
    requires c.next.Some? ==> Admissible(ts, timelineId, c)
    requires c.next.Some? ==> FromCurrentDilemma(ts, timelineId, c)
    ensures HistoriesLeadToCursors(root, Step(ts, timelineId, c, freshId))
  {
    if c.next.Some? {
      var i := FindIndex(ts, timelineId);
      var t := ts[i];
      var other := Other(t.current, c);
      var r := Step(ts, timelineId, c, freshId);
      FollowStaysInTree(root, t.choices, t.current);
      OtherIsSibling(t.current, c);
      DescendByChoice(t.current, c);
      DescendByChoice(t.current, other);
      FollowAppend(root, t.choices, c.text);
      FollowAppend(root, t.choices, other.text);
      assert Follow(root, r[i].choices) == Some(r[i].current);
      assert other.next.Some? ==> Follow(root, r[|ts|].choices) == Some(r[|ts|].current);
    }
  }

  lemma StepKeepsLeaves(ts: seq<Timeline>, timelineId: string, c: Choice, freshId: string)
    requires c.next.Some? ==> Admissible(ts, timelineId, c)
    requires c.next.Some? ==> FromCurrentDilemma(ts, timelineId, c)
    ensures TotalLeaves(Step(ts, timelineId, c, freshId)) == TotalLeaves(ts)
  {
    if c.next.Some? {
      var i := FindIndex(ts, timelineId);
      var t := ts[i];
      var d := t.current;
      var other := Other(d, c);
      var r := Step(ts, timelineId, c, freshId);
      OtherIsSibling(d, c);
      LeavesSplit(d);
      assert Leaves(d) == BranchLeaves(c) + BranchLeaves(other);
      var updated := r[..|ts|];
      assert updated == ts[i := r[i]];
      TotalLeavesUpdate(ts, i, r[i]);
      if other.next.Some? {
        assert r == updated + [r[|ts|]];
        TotalLeavesAppend(updated, r[|ts|]);
      } else {
        assert r == updated;
      }
    }
  }

  /**
    Every transition whose choice belongs to the timeline's current dilemma
    keeps the invariant, over any well-formed tree.
   */
  lemma StepPreservesConsistent(root: Dilemma, ts: seq<Timeline>, timelineId: string, c: Choice, freshId: string)
    requires WellFormed(root)
    requires Consistent(root, ts)
    requires c.next.Some? ==> Admissible(ts, timelineId, c)
    requires c.next.Some? ==> FromCurrentDilemma(ts, timelineId, c)
    ensures Consistent(root, Step(ts, timelineId, c, freshId))
  {
    StepKeepsDepth(ts, timelineId, c, freshId);
    StepKeepsColors(ts, timelineId, c, freshId);
    StepKeepsHistories(root, ts, timelineId, c, freshId);
    if c.next.Some? {
      var i := FindIndex(ts, timelineId);
      FollowStaysInTree(root, ts[i].choices, ts[i].current);
    }
    StepKeepsLeaves(ts, timelineId, c, freshId);
  }
}
