# Quantum Dilemma: the timeline-branching engine

This project models the state engine of the "Quantum Dilemma" page
(`app/page.tsx`). The user answers binary moral dilemmas. Each answer advances
one timeline ("universe") and, when the road not taken also continues, spawns
a sibling timeline for it. The screen splits into one panel per timeline.

- `wrappers.dfy`, module `Wrappers`: the `Option` type used for a choice's optional follow-up dilemma.
- `dilemmas.dfy`, module `Dilemmas`: the `Choice`/`Dilemma` tree. It holds the
  shipped tree rooted at `START` (`DILEMMAS.start`), the endpoint test, the sibling
  lookup `Other`, and measures of a tree: well-formedness, endpoint count
  `Leaves`, height, and the dilemma a history of choice texts leads to (`Follow`).
- `timelines.dfy`, module `Timelines`: the `Timeline` record, the palette
  `COLORS` and `ColorFor`, `findIndex` as `FindIndex`, the initial list, and the
  transition `Step`. `Step` is the updater that `handleChoice` passes to
  `setTimelines`. The module also defines the list invariant `Consistent`. It proves
  that every transition whose choice belongs to the timeline's current dilemma
  preserves it. Only the depth and colour parts of the invariant survive every
  admissible transition, stale ones included (`StepKeepsDepth`, `StepKeepsColors`).
  A stale choice from another dilemma can break the rest
  (`Scenarios.StaleChoiceBreaksInvariant`).
- `engine.dfy`, module `Engine`: the class `TimelineEngine`. It holds the
  `timelines` list that the page keeps in React state. `ApplyChoice` copies the list,
  overwrites the chosen index and pushes the sibling, as `handleChoice` does.
  `Reset` is `resetExperience`. Both are proved against `Step` and `Initial`, and
  both keep the invariant.
- `scenarios.dfy`, module `Scenarios`: concrete runs over the shipped tree.

The invariant `Consistent(root, ts)` says four things:
- every timeline's depth equals the length of its history;
- the timeline at position i has colour `COLORS[i % 8]`;
- following a timeline's history from the root reaches its current dilemma;
- the endpoints below the current dilemmas of all timelines add up to the
  endpoints of the whole tree.

Over the shipped tree, this gives at most 4 timelines and depth at most 2.

## Model

| member | source | states |
|---|---|---|
| Dilemmas.IsEndpoint | app/page.tsx:459 | A dilemma is an endpoint when neither of its two choices has a follow-up dilemma. |
| Dilemmas.EndpointIffAllTerminal | app/page.tsx:459 | A dilemma is an endpoint exactly when every choice it offers is terminal. |
| Dilemmas.Other | app/page.tsx:161 | The choice returned has an id different from the chosen one. It is one of the dilemma's two choices. When the first choice qualifies, the first is returned, as `find` does. |
| Dilemmas.OtherIsSibling | app/page.tsx:161 | On a dilemma whose two choice ids differ, `Other` returns the sibling of the chosen choice. Applying `Other` twice gives back the chosen choice. |
| Dilemmas.FollowStaysInTree | app/page.tsx:28-116 | Any dilemma that a history reaches from the root is well formed when the root is. The history's length plus the height left below that dilemma is at most the root's height. |
| Dilemmas.LeavesPositive | app/page.tsx:28-116 | Every dilemma has at least one endpoint below it or is itself one. |
| Dilemmas.BottomDilemmasAreEndpoints | app/page.tsx:47-110 | `ai-society`, `ai-escape`, `legacy` and `reflection` are endpoints. Each has height 0 and counts as one endpoint. |
| Dilemmas.StartTreeFacts | app/page.tsx:28-116 | In the shipped tree, sibling ids and texts are distinct everywhere. Every dilemma continues on both choices or is an endpoint. The height is 2, and there are 4 endpoints. |
| Timelines.ColorFor | app/page.tsx:118 | The colour for any list position is one of the eight palette colours. |
| Timelines.ColorCycle | app/page.tsx:173 | The colour chosen by position repeats every 8 positions. After the palette wraps, two timelines can therefore share a colour. |
| Timelines.ColorsDistinctWithinCycle | app/page.tsx:118 | Two positions less than 8 apart always get different colours. |
| Timelines.FindIndex | app/page.tsx:153 | Returns -1 exactly when no timeline has the id. Otherwise it returns the first position holding that id. |
| Timelines.Admissible | app/page.tsx:153-172 | A non-terminal event completes without throwing only if two things hold. The timeline id must be found, or line 161 dereferences `undefined`. Some choice of the current dilemma must have an id other than the chosen one, or `find` returns `undefined` and line 172 throws. |
| Timelines.Initial | app/page.tsx:121-127 | The initial list is a single timeline with empty history at `start`, and it satisfies the list invariant. |
| Timelines.Step | app/page.tsx:151-185 | A terminal choice returns the list unchanged. Otherwise the list grows by 0 or 1 and never shrinks. The chosen index keeps its id and colour, gains the choice text in its history, moves to the next dilemma and goes one level deeper. Every other existing index is unchanged. A timeline is appended exactly when the sibling continues. It gets the pre-advance history plus the sibling's text, the old depth + 1, and the colour for the old length. As in the source, the chosen choice need not belong to the current dilemma. |
| Timelines.EndpointInert | app/page.tsx:156-158 | On a timeline at an endpoint, either of its choices leaves the whole list unchanged. |
| Timelines.StepKeepsDepth | app/page.tsx:166-178 | If depth equals history length for every timeline before a transition, it does after. |
| Timelines.StepKeepsColors | app/page.tsx:173-174 | If the timeline at every position i has colour `ColorFor(i)` before a transition, it does after. |
| Timelines.StepKeepsHistories | app/page.tsx:164-180 | In a well-formed tree, after a transition with a choice of the current dilemma, each timeline's history still leads from the root to its current dilemma. This holds for the advanced timeline and the spawned one. |
| Timelines.StepKeepsLeaves | app/page.tsx:160-183 | A transition with a choice of the current dilemma does not change the total number of endpoints still ahead of all timelines. The advanced timeline and the spawned one split the endpoints below the old cursor between them. |
| Timelines.StepPreservesConsistent | app/page.tsx:151-185 | Every admissible transition with a choice of the current dilemma preserves the whole list invariant over any well-formed tree. |
| Timelines.ConsistentBounds | app/page.tsx:151-185 | A list satisfying the invariant has at most as many timelines as the tree has endpoints. No timeline's depth exceeds the tree's height. |
| Engine.TimelineEngine.constructor | app/page.tsx:121-127 | The engine starts with the initial singleton list, which satisfies the invariant. |
| Engine.TimelineEngine.ApplyChoice | app/page.tsx:151-185 | The new list is `Step` of the old list, so every property of `Step` applies. The invariant is kept. The list never shrinks, never holds more than 4 timelines, and no timeline is deeper than 2. |
| Engine.TimelineEngine.Reset | app/page.tsx:187-195 | The new list is the initial list whatever the old state was, so two resets in a row leave the same state as one. The invariant holds afterwards. |
| Engine.TimelineEngine.AtEndpoint | app/page.tsx:459 | Returns whether the timeline at the given index is at an endpoint (`IsEndpoint` of its current dilemma). |
| Scenarios.CreateSplitsRoot | app/page.tsx:151-185 | From the initial list, choosing "create" gives two timelines. `timeline-0` is at `ai-rights` with history ["Create the AI"], depth 1 and colour `COLORS[0]`. The new timeline is at `intervention` with ["Refuse to create it"], depth 1 and `COLORS[1]`. The two colours differ. |
| Scenarios.FreeSplitsFirstUniverse | app/page.tsx:151-185 | Next, choosing "free" on `timeline-0` moves it to `ai-society` at depth 2. It appends `ai-escape` with history ["Create the AI", "Keep it contained"] and `COLORS[2]`. The second timeline is unchanged. |
| Scenarios.EndpointChoiceIsNoop | app/page.tsx:156-158 | At `ai-society`, choosing either "integrate" or "resist" leaves the three-timeline list unchanged. |
| Scenarios.StaleChoiceAdvancesAnyway | app/page.tsx:153-180 | Suppose a "create" event reaches `timeline-0` after it has moved to `ai-rights`. That timeline stays at `ai-rights`, with history ["Create the AI", "Create the AI"] and depth 2. A third timeline at `ai-society` is pushed, because "free" is the first choice of `ai-rights` whose id differs. |
| Scenarios.StaleChoiceBreaksInvariant | app/page.tsx:153-180 | After that stale "create" event the list no longer satisfies the invariant. The history of `timeline-0` no longer leads from `start` to its current dilemma. |
| Scenarios.HelpSplitsSecondUniverse | app/page.tsx:151-185 | Then choosing "help" on the second timeline fills the last two endpoints. This gives four timelines, all at endpoints. |

## Left out

- The particle background (lines 128-149, 208-231) is left out. It is random, timer-driven, floating-point and decorative, and it never touches the timeline list.
- Rendering is left out: the panel width `100 / timelines.length`, the letter label `String.fromCharCode(65 + index)`, button disabling and styling, animations, hover handlers, and `app/layout.tsx` (page metadata and the HTML shell).
- React's `useState`/`setTimelines` mechanics are left out. Each updater call is one atomic transition of `TimelineEngine`.
- The spawned timeline's id (`timeline-${Date.now()}-${Math.random()}`) is the parameter `freshId`. It comes from the clock and a random source. The model does not assume it is unique. `FindIndex` takes the first timeline with a matching id, as `findIndex` does.
- A non-terminal event that `Admissible` rejects is a precondition, with no recovery behaviour. For an unknown timeline id, line 161 dereferences `undefined`. When both choices of the current dilemma carry the chosen id, `find` returns `undefined` and line 172 throws on reading `nextDilemma`. A terminal choice needs no precondition: the source returns at line 156 before it dereferences the timeline.
- Engine.TimelineEngine.ApplyChoice: its `FromCurrentDilemma` precondition excludes a stale choice from another dilemma. The source does not fail on such an event. It silently advances the timeline to the wrong dilemma and may push a sibling (`Scenarios.StaleChoiceAdvancesAnyway`). `Step` models that case as written, but the engine and the list invariant do not cover it: the invariant does not hold after such an event. Repeated stale events can take the list past 4 timelines and a timeline past depth 2.
- `DILEMMAS` is a record with the single key `start`. It is modelled as the constant `START`, since nothing looks up any other key.
- A dilemma's `choices: [Choice, Choice]` pair is modelled as two fields, `first` and `second`.
- `depth` is a JavaScript number. It is modelled as an unbounded `int`, and at most 2 is reached under `ApplyChoice`, which takes only choices of the current dilemma.
- The tree is kept as the source's nested literal. There is no separate map from id to dilemma.
