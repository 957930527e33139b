/**
  The state store of the page: the `timelines` list that `handleChoice` and
  `resetExperience` replace through `setTimelines`. Each updater call is one
  atomic transition of the object.
 */
module Engine {
  import opened Dilemmas
  import opened Timelines

  class TimelineEngine {
    var timelines: seq<Timeline>

    /** The list invariant over the shipped tree. */
    ghost predicate Valid()
      reads this
    {
      Consistent(START, timelines)
    }

    /** `useState` with the single root timeline. */
    constructor ()
      ensures Valid()
      ensures timelines == Initial()
    {
      timelines := Initial();
    }

    /**
      `handleChoice(timelineId, choice)`: copy the list, overwrite the chosen
      timeline at its index, then push the road not taken if it continues.
     */
    method ApplyChoice(timelineId: string, choice: Choice, freshId: string)
      requires Valid()
      requires choice.next.Some? ==> Admissible(timelines, timelineId, choice)
      requires choice.next.Some? ==> FromCurrentDilemma(timelines, timelineId, choice)
      modifies this
      ensures Valid()
      ensures timelines == Step(old(timelines), timelineId, choice, freshId)
      ensures |old(timelines)| <= |timelines| <= 4
      ensures forall j :: 0 <= j < |timelines| ==> timelines[j].depth <= 2
    {
      StartTreeFacts();
      StepPreservesConsistent(START, timelines, timelineId, choice, freshId);
      var prev := timelines;
      var timelineIndex := FindIndex(prev, timelineId);
      if choice.next.None? {
        ConsistentBounds(START, timelines);
        return;
      }
      var timeline := prev[timelineIndex];
      var newTimelines := prev;
      var otherChoice := Other(timeline.current, choice);
      newTimelines := newTimelines[timelineIndex := timeline.(
        choices := timeline.choices + [choice.text],
        current := choice.next.value,
        depth := timeline.depth + 1)];
      if otherChoice.next.Some? {
        var newColor := ColorFor(|newTimelines|);
        newTimelines := newTimelines + [Timeline(freshId, timeline.choices + [otherChoice.text],
                                                 otherChoice.next.value, timeline.depth + 1, newColor)];
      }
      timelines := newTimelines;
      ConsistentBounds(START, timelines);
    }

    /** `resetExperience()`: back to the single root timeline, whatever the list held. */
    method Reset()
      modifies this
      ensures Valid()
      ensures timelines == Initial()
    {
      timelines := Initial();
    }

    /** The endpoint banner test for the timeline at `index`. */
    method AtEndpoint(index: nat) returns (b: bool)
      requires index < |timelines|
      ensures b == IsEndpoint(timelines[index].current)
    {
      b := IsEndpoint(timelines[index].current);
    }
  }

  /** A walk through every continuing choice of the shipped tree on one engine, and a reset after it. */
  method Walkthrough(f1: string, f2: string, f3: string)
    requires f1 != "timeline-0"
  {
    var e := new TimelineEngine();
    e.ApplyChoice("timeline-0", CREATE, f1);
    assert |e.timelines| == 2;
    e.ApplyChoice("timeline-0", FREE, f2);
    assert |e.timelines| == 3;
    assert e.timelines[1].current == INTERVENTION && e.timelines[1].id == f1;
    assert FindIndex(e.timelines, f1) == 1;
    e.ApplyChoice(f1, HELP, f3);
    assert |e.timelines| == 4;
    e.Reset();
    assert |e.timelines| == 1 && e.timelines[0].depth == 0;
  }
}
