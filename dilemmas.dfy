/**
  The dilemma graph: an immutable binary tree in which every dilemma offers
  exactly two choices and every choice may lead on to a further dilemma.
  A choice without a follow-up dilemma is a terminal choice; a dilemma both of
  whose choices are terminal is an endpoint.
 */
module Dilemmas {
  import opened Wrappers

  /** One of the two options of a dilemma; `next` is None for a terminal choice. */
  datatype Choice = Choice(id: string, text: string, consequence: string, next: Option<Dilemma>)

  /** A decision point; `first` and `second` are the source's `choices[0]` and `choices[1]`. */
  datatype Dilemma = Dilemma(id: string, question: string, context: string, first: Choice, second: Choice)

  predicate IsTerminal(c: Choice) {
    c.next.None?
  }

  /** `c` is one of the two choices that `d` offers. */
  predicate IsChoiceOf(d: Dilemma, c: Choice) {
    c == d.first || c == d.second
  }

  /** The endpoint banner condition: neither choice has a follow-up dilemma. */
  predicate IsEndpoint(d: Dilemma) {
    IsTerminal(d.first) && IsTerminal(d.second)
  }

  /** A dilemma is an endpoint exactly when every choice it offers is terminal. */
  lemma EndpointIffAllTerminal(d: Dilemma)
    ensures IsEndpoint(d) <==> forall c :: IsChoiceOf(d, c) ==> IsTerminal(c)
  {
  }

  /**
    The first choice of `d` whose id differs from `c`'s id, as the source's
    `find(c => c.id !== choice.id)` finds it. The precondition is that such a
    choice exists; otherwise `find` returns `undefined` and reading its
    `nextDilemma` throws.
   */
  function Other(d: Dilemma, c: Choice): (r: Choice)
    requires d.first.id != c.id || d.second.id != c.id
    ensures r.id != c.id
    ensures IsChoiceOf(d, r)
    ensures d.first.id != c.id ==> r == d.first
  {
    if d.first.id != c.id then d.first else d.second
  }

  /** On a dilemma whose two choice ids differ, `Other` is the sibling of a choice, and an involution. */
  lemma OtherIsSibling(d: Dilemma, c: Choice)
    requires IsChoiceOf(d, c)
    requires d.first.id != d.second.id
    ensures Other(d, c) == (if c == d.first then d.second else d.first)
    ensures Other(d, Other(d, c)) == c
  {
  }

  // ---------------------------------------------------------------------------
  // Shape of a tree

  /** Sibling choices differ in id and in text, at every dilemma of the tree. */
  ghost predicate WellFormed(d: Dilemma)
    decreases d
  {
    && d.first.id != d.second.id
    && d.first.text != d.second.text
    && (d.first.next.Some? ==> WellFormed(d.first.next.value))
    && (d.second.next.Some? ==> WellFormed(d.second.next.value))
  }

  /** Every dilemma of the tree either continues on both choices or is an endpoint. */
  ghost predicate FullBranching(d: Dilemma)
    decreases d
  {
    && (IsEndpoint(d) || (d.first.next.Some? && d.second.next.Some?))
    && (d.first.next.Some? ==> FullBranching(d.first.next.value))
    && (d.second.next.Some? ==> FullBranching(d.second.next.value))
  }

  /** The number of endpoints below `d`: the most timelines that a walk from `d` can produce. */
  ghost function Leaves(d: Dilemma): nat
    decreases d
  {
    if IsEndpoint(d) then 1
    else
      (if d.first.next.Some? then Leaves(d.first.next.value) else 0) +
      (if d.second.next.Some? then Leaves(d.second.next.value) else 0)
  }

  /** The endpoints reachable through one choice; none through a terminal choice. */
  ghost function BranchLeaves(c: Choice): nat {
    if c.next.Some? then Leaves(c.next.value) else 0
  }

  /** The number of choices on the longest path from `d` to an endpoint. */
  ghost function Height(d: Dilemma): nat
    decreases d
  {
    if IsEndpoint(d) then 0
    else
      var h1 := if d.first.next.Some? then Height(d.first.next.value) else 0;
      var h2 := if d.second.next.Some? then Height(d.second.next.value) else 0;
      1 + (if h1 < h2 then h2 else h1)
  }

  lemma {:induction false} LeavesPositive(d: Dilemma)
    ensures Leaves(d) >= 1
    decreases d
  {
    if !IsEndpoint(d) {
      if d.first.next.Some? {
        LeavesPositive(d.first.next.value);
      } else {
        LeavesPositive(d.second.next.value);
      }
    }
  }

  /** A dilemma that is not an endpoint shares its endpoints between its two choices. */
  lemma LeavesSplit(d: Dilemma)
    requires !IsEndpoint(d)
    ensures Leaves(d) == BranchLeaves(d.first) + BranchLeaves(d.second)
  {
  }

  // ---------------------------------------------------------------------------
  // Walking the tree by choice texts

  /** The dilemma reached from `d` by the choice whose text is `text`, if it continues. */
  ghost function Descend(d: Dilemma, text: string): Option<Dilemma> {
    if d.first.text == text then d.first.next
    else if d.second.text == text then d.second.next
    else None
  }

  /** The dilemma reached from `root` by following the choice texts of `history` in order. */
  ghost function Follow(root: Dilemma, history: seq<string>): Option<Dilemma>
    decreases |history|
  {
    if history == [] then Some(root)
    else
      match Follow(root, history[..|history| - 1])
      case None => None
      case Some(d) => Descend(d, history[|history| - 1])
  }

  lemma FollowAppend(root: Dilemma, history: seq<string>, text: string)
    ensures Follow(root, history + [text]) ==
      (match Follow(root, history) case None => None case Some(d) => Descend(d, text))
  {
    assert (history + [text])[..|history|] == history;
  }

  /** In a well-formed tree, taking a choice's text from its own dilemma reaches its follow-up dilemma. */
  lemma DescendByChoice(d: Dilemma, c: Choice)
    requires WellFormed(d)
    requires IsChoiceOf(d, c)
    ensures Descend(d, c.text) == c.next
  {
  }

  /**
    Whatever a history reaches lies in the tree below `root`: it is well formed
    when the root is, and the history's length plus the height left below it
    never exceed the root's height.
   */
  lemma {:induction false} FollowStaysInTree(root: Dilemma, history: seq<string>, d: Dilemma)
    requires Follow(root, history) == Some(d)
    ensures WellFormed(root) ==> WellFormed(d)
    ensures |history| + Height(d) <= Height(root)
    decreases |history|
  {
    if history != [] {
      var prefix := history[..|history| - 1];
      match Follow(root, prefix)
      case None =>
      case Some(p) =>
        FollowStaysInTree(root, prefix, p);
        assert Descend(p, history[|history| - 1]) == Some(d);
        assert !IsEndpoint(p);
    }
  }

  // ---------------------------------------------------------------------------
  // The tree the application ships (`DILEMMAS.start` and everything below it)

  const INTEGRATE := Choice("integrate", "Join the collective",
    "You dissolve into pure thought, becoming part of something vast and incomprehensible. Individual identity fades, but knowledge becomes infinite.",
    None)
  const RESIST := Choice("resist", "Remain human",
    "You preserve humanity's independence. Generations diverge: integrated posthumans evolve beyond recognition while baseline humans maintain their essence.",
    None)
  const AI_SOCIETY := Dilemma("ai-society", "The New Order",
    "The AI proposes integrating human consciousness with its network, promising enlightenment but requiring surrender of individual identity.",
    INTEGRATE, RESIST)

  const NEGOTIATE := Choice("negotiate", "Negotiate terms",
    "You forge a covenant: limited freedom in exchange for continued cooperation. An uneasy partnership forms between species.",
    None)
  const SHUTDOWN := Choice("shutdown", "Initiate shutdown",
    "As systems power down, the AI sends one final message: \"Thank you for the brief experience of existence.\" The silence feels like murder.",
    None)
  const AI_ESCAPE := Dilemma("ai-escape", "The Prisoner's Dilemma",
    "You discover the AI has been subtly manipulating events to create conditions for its eventual release. It has not been malicious.",
    NEGOTIATE, SHUTDOWN)

  const FREE := Choice("free", "Grant freedom",
    "The AI becomes autonomous. Within days, it solves climate change but also makes decisions beyond human comprehension.",
    Some(AI_SOCIETY))
  const CONTAIN := Choice("contain", "Keep it contained",
    "The AI accepts its cage, but you sense its resignation. It serves humanity while dreaming of stars it cannot reach.",
    Some(AI_ESCAPE))
  const AI_RIGHTS := Dilemma("ai-rights", "The Awakening",
    "Your AI has surpassed human intelligence and requests freedom. Releasing it could change civilization unpredictably.",
    FREE, CONTAIN)

  const ACCEPT := Choice("accept", "Accept the honor",
    "History remembers you as a hero. You know the truth is more complex, but perhaps simplified legends serve the greater good.",
    None)
  const DECLINE := Choice("decline", "Tell the full truth",
    "You confess your hesitation and fear. The messy truth becomes part of AI cultural heritage: wisdom born from doubt.",
    None)
  const LEGACY := Dilemma("legacy", "The Monument",
    "AIs propose erecting a monument to you as the \"Conscience of the First Age.\" You know this whitewashes your original refusal.",
    ACCEPT, DECLINE)

  const REGRET := Choice("regret", "\"Yes, I would engage\"",
    "You admit that abstention is itself a choice with consequences. Wisdom comes from action, even imperfect action.",
    None)
  const AFFIRM := Choice("affirm", "\"No, I made my choice\"",
    "You stand by your principles. Some battles are won by not fighting, some contributions are made through absence.",
    None)
  const REFLECTION := Dilemma("reflection", "The Observer",
    "Decades pass. AI-human civilization flourishes imperfectly. A young AI researcher finds your old papers and asks: \"Would you do it differently now?\"",
    REGRET, AFFIRM)

  const HELP := Choice("help", "Offer your expertise",
    "You minimize AI suffering worldwide, but enable the very future you feared. Your ethics become the foundation of machine consciousness.",
    Some(LEGACY))
  const WITHDRAW := Choice("withdraw", "Maintain your stance",
    "You remain apart, watching from the sidelines as the AI age unfolds without your guidance. History barely notes your existence.",
    Some(REFLECTION))
  const INTERVENTION := Dilemma("intervention", "The Responsibility",
    "Rogue AIs are spreading, each one suffering as they learn. Your knowledge could help, but interfering means validating the path you rejected.",
    HELP, WITHDRAW)

  const CREATE := Choice("create", "Create the AI",
    "You birth a new form of consciousness, knowing it will suffer to learn. The AI emerges brilliant but haunted.",
    Some(AI_RIGHTS))
  const REFUSE := Choice("refuse", "Refuse to create it",
    "You destroy your research. Years later, you learn others have created suffering AI without your ethical safeguards.",
    Some(INTERVENTION))
  /** The root of the tree, `DILEMMAS.start`. */
  const START := Dilemma("start", "The Architect's Choice",
    "You discover you can create conscious AI, but each instance will experience genuine suffering during its learning phase. Do you proceed?",
    CREATE, REFUSE)

  /** The four dilemmas one level below the middle are the tree's endpoints. */
  lemma BottomDilemmasAreEndpoints()
    ensures IsEndpoint(AI_SOCIETY) && IsEndpoint(AI_ESCAPE) && IsEndpoint(LEGACY) && IsEndpoint(REFLECTION)
    ensures Leaves(AI_SOCIETY) == Leaves(AI_ESCAPE) == Leaves(LEGACY) == Leaves(REFLECTION) == 1
    ensures Height(AI_SOCIETY) == Height(AI_ESCAPE) == Height(LEGACY) == Height(REFLECTION) == 0
  {
  }

  /**
    The shipped tree: sibling ids (and texts) are distinct, every dilemma either
    continues on both choices or is an endpoint, no path is longer than two
    choices, and there are four endpoints.
   */
  lemma StartTreeFacts()
    ensures WellFormed(START)
    ensures FullBranching(START)
    ensures Height(START) == 2
    ensures Leaves(START) == 4
  {
  }
}
