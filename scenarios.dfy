/**
  Concrete runs of the transition over the shipped tree, from the initial list.
  The fresh ids are left arbitrary, except that a spawned id never equals
  "timeline-0", since the id template of the source starts with "timeline-"
  followed by a clock value.
 */
module Scenarios {
  import opened Wrappers
  import opened Dilemmas
  import opened Timelines

  /** The list after choosing "create" at the start. */
  function AfterCreate(f1: string): seq<Timeline> {
    [ Timeline("timeline-0", ["Create the AI"], AI_RIGHTS, 1, COLORS[0]),
      Timeline(f1, ["Refuse to create it"], INTERVENTION, 1, COLORS[1]) ]
  }

  /** The list after then choosing "free" in the first universe. */
  function AfterFree(f1: string, f2: string): seq<Timeline> {
    [ Timeline("timeline-0", ["Create the AI", "Grant freedom"], AI_SOCIETY, 2, COLORS[0]),
      Timeline(f1, ["Refuse to create it"], INTERVENTION, 1, COLORS[1]),
      Timeline(f2, ["Create the AI", "Keep it contained"], AI_ESCAPE, 2, COLORS[2]) ]
  }

  /** The list after then choosing "help" in the second universe. */
  function AfterHelp(f1: string, f2: string, f3: string): seq<Timeline> {
    [ Timeline("timeline-0", ["Create the AI", "Grant freedom"], AI_SOCIETY, 2, COLORS[0]),
      Timeline(f1, ["Refuse to create it", "Offer your expertise"], LEGACY, 2, COLORS[1]),
      Timeline(f2, ["Create the AI", "Keep it contained"], AI_ESCAPE, 2, COLORS[2]),
      Timeline(f3, ["Refuse to create it", "Maintain your stance"], REFLECTION, 2, COLORS[3]) ]
  }

  /** Choosing "create" at the start splits the root timeline into two universes of different colours. */
  lemma CreateSplitsRoot(f1: string)
    ensures Step(Initial(), "timeline-0", CREATE, f1) == AfterCreate(f1)
    ensures AfterCreate(f1)[0].color != AfterCreate(f1)[1].color
  {
    var s0 := Initial();
    assert FindIndex(s0, "timeline-0") == 0;
    assert START.first == CREATE && START.second == REFUSE;
    assert CREATE.id != REFUSE.id by { assert CREATE.id[0] != REFUSE.id[0]; }
    assert Other(START, CREATE) == REFUSE;
    var r := Step(s0, "timeline-0", CREATE, f1);
    assert |r| == 2;
    assert r[0] == AfterCreate(f1)[0];
    assert r[1] == AfterCreate(f1)[1];
  }

  /**
    Choosing "free" on the first universe advances it to "ai-society" and
    spawns a third universe at "ai-escape"; the second universe is untouched.
   */
  lemma FreeSplitsFirstUniverse(f1: string, f2: string)
    ensures Step(AfterCreate(f1), "timeline-0", FREE, f2) == AfterFree(f1, f2)
  {
    var s1 := AfterCreate(f1);
    assert FindIndex(s1, "timeline-0") == 0;
    assert AI_RIGHTS.first == FREE && AI_RIGHTS.second == CONTAIN;
    assert FREE.id != CONTAIN.id by { assert FREE.id[0] != CONTAIN.id[0]; }
    assert Other(AI_RIGHTS, FREE) == CONTAIN;
    var r := Step(s1, "timeline-0", FREE, f2);
    assert |r| == 3;
    assert r[0] == AfterFree(f1, f2)[0];
    assert r[1] == AfterFree(f1, f2)[1];
    assert r[2] == AfterFree(f1, f2)[2];
  }

  /**
    Once a universe sits on an endpoint, either of its choices leaves the whole
    list as it was.
   */
  lemma EndpointChoiceIsNoop(f1: string, f2: string, f3: string)
    ensures IsEndpoint(AfterFree(f1, f2)[0].current)
    ensures Step(AfterFree(f1, f2), "timeline-0", INTEGRATE, f3) == AfterFree(f1, f2)
    ensures Step(AfterFree(f1, f2), "timeline-0", RESIST, f3) == AfterFree(f1, f2)
  {
    BottomDilemmasAreEndpoints();
  }

  /**
    The stale "create" event breaks the invariant: the doubled history leads
    nowhere from `start`, yet the timeline sits at `ai-rights`.
   */
  lemma StaleChoiceBreaksInvariant(f1: string, f2: string)
    ensures !Consistent(START, Step(AfterCreate(f1), "timeline-0", CREATE, f2))
  {
    StaleChoiceAdvancesAnyway(f1, f2);
    var r := Step(AfterCreate(f1), "timeline-0", CREATE, f2);
    var h := ["Create the AI", "Create the AI"];
    assert r[0].choices == h && r[0].current == AI_RIGHTS;
    assert h[..1] == ["Create the AI"];
    assert Follow(START, h[..1]) == Some(AI_RIGHTS) by {
      assert h[..1][..0] == [];
    }
    assert AI_RIGHTS.first.text != "Create the AI" by { assert AI_RIGHTS.first.text[0] != 'C'; }
    assert AI_RIGHTS.second.text != "Create the AI" by { assert AI_RIGHTS.second.text[0] != 'C'; }
    assert Follow(START, h) == None;
  }

  /** Choosing "help" on the second universe fills the last two endpoints; every universe is then at an endpoint. */
  lemma HelpSplitsSecondUniverse(f1: string, f2: string, f3: string)
    requires f1 != "timeline-0"
    ensures Step(AfterFree(f1, f2), f1, HELP, f3) == AfterHelp(f1, f2, f3)
    ensures forall i :: 0 <= i < 4 ==> IsEndpoint(AfterHelp(f1, f2, f3)[i].current)
  {
    BottomDilemmasAreEndpoints();
    var s2 := AfterFree(f1, f2);
    assert FindIndex(s2, f1) == 1;
    assert INTERVENTION.first == HELP && INTERVENTION.second == WITHDRAW;
    assert HELP.id != WITHDRAW.id by { assert HELP.id[0] != WITHDRAW.id[0]; }
    assert Other(INTERVENTION, HELP) == WITHDRAW;
    var r := Step(s2, f1, HELP, f3);
    assert |r| == 4;
    assert r[0] == AfterHelp(f1, f2, f3)[0];
    assert r[1] == AfterHelp(f1, f2, f3)[1];
    assert r[2] == AfterHelp(f1, f2, f3)[2];
    assert r[3] == AfterHelp(f1, f2, f3)[3];
  }

  /**
    A "create" event that reaches `timeline-0` after it has moved on to
    `ai-rights` is not rejected: the timeline stays at `ai-rights` with "Create
    the AI" twice in its history, and the first choice of `ai-rights` whose id
    differs, "free", is taken as the road not taken.
   */
  lemma StaleChoiceAdvancesAnyway(f1: string, f2: string)
    ensures !FromCurrentDilemma(AfterCreate(f1), "timeline-0", CREATE)
    ensures Step(AfterCreate(f1), "timeline-0", CREATE, f2) ==
      [ Timeline("timeline-0", ["Create the AI", "Create the AI"], AI_RIGHTS, 2, COLORS[0]),
        AfterCreate(f1)[1],
        Timeline(f2, ["Create the AI", "Grant freedom"], AI_SOCIETY, 2, COLORS[2]) ]
  {
    var s1 := AfterCreate(f1);
    assert FindIndex(s1, "timeline-0") == 0;
    assert AI_RIGHTS.first == FREE && AI_RIGHTS.second == CONTAIN;
    assert FREE.id != CREATE.id by { assert FREE.id[0] != CREATE.id[0]; }
    assert CONTAIN.id != CREATE.id by { assert CONTAIN.id[1] != CREATE.id[1]; }
    assert Other(AI_RIGHTS, CREATE) == FREE;
    assert CREATE != FREE && CREATE != CONTAIN;
    assert !IsChoiceOf(s1[0].current, CREATE);
    var r := Step(s1, "timeline-0", CREATE, f2);
    assert |r| == 3;
    assert r[0] == Timeline("timeline-0", ["Create the AI"] + ["Create the AI"], AI_RIGHTS, 2, COLORS[0]);
    assert r[1] == s1[1];
    assert r[2] == Timeline(f2, ["Create the AI"] + ["Grant freedom"], AI_SOCIETY, 2, COLORS[2]);
    assert ["Create the AI"] + ["Create the AI"] == ["Create the AI", "Create the AI"];
    assert ["Create the AI"] + ["Grant freedom"] == ["Create the AI", "Grant freedom"];
  }
}
