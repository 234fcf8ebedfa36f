# Profession/skill graph chart — a Dafny model

The repository draws a fixed dataset of professions as an interactive graph.
Each profession has a name, a list of main skills and a list of other skills.
One React component, `Chart`, builds the graph on every render:

- one node per profession, `profession-<index>`, in dataset order, on an inner ring;
- then one node per distinct skill, `skill-<name>`, on an outer ring. Skills are
  deduplicated with a JavaScript `Set` over each profession's main skills, then
  its other skills, in dataset order. Each skill keeps its first-seen position.
- the edges for the focused node:
  - no focus: no edges;
  - a profession: one "main" edge per main skill, then one "other" edge per other skill;
  - a skill: one edge from each profession that lists it, "main" when it is one of that profession's main skills.

The focus starts empty. A click replaces it with the clicked node. Nothing ever
clears it. The focused profession node is drawn in the highlight colour. The
default tooltip shows only while nothing is focused.

The model has six modules:

- `Types` (`types.dfy`): the `Profession`, `Item` and `Link` records. Colours are
  enums named by role. The x/y coordinates are replaced by the ring and slot they
  are computed from.
- `Ids` (`ids.dfy`): the string ids, with the decimal numeral of the index written
  out. It proves that ids identify nodes.
- `Skills` (`skills.dfy`): the `flatMap` scan and the `Set`-based deduplication.
  The deduplication is proved duplicate-free, complete, in first-seen order, and
  the only list with those properties.
- `JsMap` (`jsmap.dfy`): an insertion-ordered JavaScript `Map`, used for `skillMap`.
- `Graph` (`graph.dfy`): the node list and the edge list of one render as functions
  of the dataset and the focus, with the lemmas about them.
- `Chart` (`chart.dfy`): the component as a class. It has the dataset, the `focus`
  field, the click handler, and the render loops, each proved equal to the `Graph`
  functions. It also has the click-sequence model and a worked example.

Two points about the component's state and lookup:

- The focus is component state (`useState`), so it is a field of the `Chart` class.
- Profession names need not be unique. The lookup is `data.find` on the focused
  node's name, so it takes the first profession with that name, while the edges
  start at the focused node's own id. `Graph.FocusedProfessionShowsOwnSkills`
  proves that when names are unique a profession node's edges are its own skills.

## Model

| member | source | states |
|---|---|---|
| Ids.Decimal | src/conponents/Chart/Chart.tsx:22 | the numeral of an index is non-empty, and one character long exactly for indices below 10 |
| Ids.DecimalInjective | src/conponents/Chart/Chart.tsx:22 | two indices with the same numeral are equal |
| Ids.ProfessionId | src/conponents/Chart/Chart.tsx:22 | a profession id is `profession-` followed by exactly the decimal numeral of the index |
| Ids.SkillId | src/conponents/Chart/Chart.tsx:46 | a skill id is `skill-` followed by exactly the skill name |
| Ids.ProfessionIdInjective | src/conponents/Chart/Chart.tsx:22 | `profession-i` equals `profession-j` exactly when i = j |
| Ids.SkillIdInjective | src/conponents/Chart/Chart.tsx:46 | `skill-a` equals `skill-b` exactly when a = b |
| Ids.IdFamiliesDisjoint | src/conponents/Chart/Chart.tsx:22-46 | no profession id equals any skill id |
| Skills.AllSkills | src/conponents/Chart/Chart.tsx:36 | the scan holds a name exactly when some profession lists it as a main or other skill |
| Skills.AllSkillsAppend | src/conponents/Chart/Chart.tsx:36 | the scan of two datasets joined is the scan of the first followed by the scan of the second |
| Skills.Distinct | src/conponents/Chart/Chart.tsx:35-37 | `Array.from(new Set(s))` has no duplicates, has the same elements as `s`, and is no longer than `s` |
| Skills.DistinctInFirstSeenOrder | src/conponents/Chart/Chart.tsx:35-37 | the deduplicated elements appear in the order of their first occurrences in `s` |
| Skills.FirstSeenOrderIsUnique | src/conponents/Chart/Chart.tsx:35-37 | two lists with the same elements, both in first-seen order of `s`, are equal |
| Skills.DistinctCharacterized | src/conponents/Chart/Chart.tsx:35-37 | any list with the elements of `s` in first-seen order equals the deduplication of `s` |
| Skills.UniqueSkills | src/conponents/Chart/Chart.tsx:35-37 | the chart's skill list has no duplicates and holds exactly the skills some profession lists |
| Skills.UniqueSkillsFirstSeen | src/conponents/Chart/Chart.tsx:35-37 | the chart's skill list is in first-seen order of the main-then-other scan |
| JsMap.OrderedMap.Set | src/conponents/Chart/Chart.tsx:45 | `Map.set` binds the key, keeps other bindings, keeps the key's position if present, and appends the value to `values()` if the key is new, so `values()` lists values in key insertion order |
| JsMap.Empty | src/conponents/Chart/Chart.tsx:34 | a new map is well formed and has no values |
| Graph.ProfessionItemsAt | src/conponents/Chart/Chart.tsx:20-32 | after n iterations of the profession loop, item i is the item for profession i |
| Graph.SkillItemsAt | src/conponents/Chart/Chart.tsx:40-54 | after n iterations of the skill loop, item j is the item for the j-th distinct skill |
| Graph.NodesAt | src/conponents/Chart/Chart.tsx:20-56 | the node list has length professions plus distinct skills: profession items first, then skill items |
| Graph.NodesLayout | src/conponents/Chart/Chart.tsx:20-56 | each node i below the profession count has id `profession-i`, the profession's name, its category, size and slot i; the node j places after them is the j-th distinct skill's node, with id `skill-<name>` |
| Graph.EverySkillHasOneNode | src/conponents/Chart/Chart.tsx:35-56 | each skill any profession lists has one skill node, and no other node shares its id |
| Graph.NodeIdsDistinct | src/conponents/Chart/Chart.tsx:20-56 | no two nodes of a render share an id |
| Graph.HighlightRule | src/conponents/Chart/Chart.tsx:27-50 | a node is highlighted exactly when it is a profession node whose id is the focus's id; it has the skill colour exactly when it is a skill node |
| Graph.AtMostOneHighlighted | src/conponents/Chart/Chart.tsx:27 | at most one node is highlighted |
| Graph.FocusOnlyRecolours | src/conponents/Chart/Chart.tsx:20-56 | two focuses give node lists equal in everything but colour, so positions never depend on the focus |
| Graph.FindFrom | src/conponents/Chart/Chart.tsx:61 | `data.find` by name returns the first profession with the name, or nothing when none has it |
| Graph.FanOutAt | src/conponents/Chart/Chart.tsx:63-77 | the forEach over a skill list pushes one edge per skill, in list order, from the source to `skill-<skill>` |
| Graph.UnfocusedView | src/conponents/Chart/Chart.tsx:59-105 | with no focus there are no edges and the tooltip shows; with a focus the tooltip is hidden |
| Graph.ProfessionFocusLinks | src/conponents/Chart/Chart.tsx:60-78 | a profession focus whose name first matches profession i gives one main edge per main skill, then one other edge per other skill, from the focus id |
| Graph.FocusedProfessionShowsOwnSkills | src/conponents/Chart/Chart.tsx:60-78 | with unique names, focusing profession node i gives exactly profession i's skill edges, all from `profession-i` |
| Graph.ProfessionFocusUnknownName | src/conponents/Chart/Chart.tsx:61-62 | a profession focus whose name no profession has gives no edges |
| Graph.ProfessionFocusTargetsExist | src/conponents/Chart/Chart.tsx:63-77 | every edge of a profession focus ends at the id of an existing skill node |
| Graph.Holders | src/conponents/Chart/Chart.tsx:80-84 | the profession indices listing a skill: each below n and listing it, every such index present, strictly increasing |
| Graph.FanInAt | src/conponents/Chart/Chart.tsx:80-96 | after n iterations of the skill-focus loop, the k-th edge comes from the k-th profession listing the skill and is main when the skill is a main skill there |
| Graph.SkillFocusLinks | src/conponents/Chart/Chart.tsx:79-96 | a skill focus gives one edge per profession listing the skill, in dataset order, into the focus id |
| Graph.SkillFocusEdgeIffHolder | src/conponents/Chart/Chart.tsx:80-96 | under a skill focus, profession i has an edge exactly when it lists the skill |
| Graph.SkillFocusOneEdgeEach | src/conponents/Chart/Chart.tsx:80-96 | under a skill focus, no profession has two edges, and an edge is main exactly when the skill is one of its source's main skills |
| Chart.RunEndsOnLastClick | src/conponents/Chart/Chart.tsx:128-131 | after one or more clicks the focus is the item clicked last |
| Chart.NeverDeselects | src/conponents/Chart/Chart.tsx:128-131 | the focus is empty exactly when it started empty and no click happened |
| Chart.ExampleDistinctSkills | src/conponents/Chart/Chart.tsx:35-56 | Engineer (Go; SQL) and Analyst (SQL) give skills Go then SQL, and four nodes |
| Chart.ExampleProfessionFocus | src/conponents/Chart/Chart.tsx:60-78 | focusing Engineer gives a main edge to `skill-Go`, then an other edge to `skill-SQL` |
| Chart.ExampleSkillFocus | src/conponents/Chart/Chart.tsx:79-96 | focusing SQL gives an other edge from `profession-0`, then a main edge from `profession-1` |
| Chart.Chart.constructor | src/conponents/Chart/Chart.tsx:14 | the component starts with nothing focused |
| Chart.Chart.Click | src/conponents/Chart/Chart.tsx:128-131 | a click makes the clicked item the focus, unconditionally, so the focus is never empty after it |
| Chart.Chart.ProfessionNodes | src/conponents/Chart/Chart.tsx:20-32 | the profession loop builds exactly the profession items of the current focus |
| Chart.Chart.SkillNodes | src/conponents/Chart/Chart.tsx:34-56 | filling `skillMap` in first-seen order and reading its values gives exactly the skill items |
| Chart.Chart.FocusLinks | src/conponents/Chart/Chart.tsx:58-98 | the edge loops build exactly the edge list of the current focus |
| Chart.Chart.Render | src/conponents/Chart/Chart.tsx:16-105 | one render gives the node list, the edge list and the tooltip flag of the current focus |

## Left out

- The imports, the `echarts.use` registration, the JSX return and the `option` object's rendering settings are not modelled. This covers `trigger`, `formatter`, `roam`, `focusItemAdjacency`, `label`, `curveness` and `animationDuration`, all library configuration. Only `tooltip.show` is kept.
- The x/y coordinates (`Math.cos`/`Math.sin` times 200 or the skill radius) are floating point. Each node instead records its ring and its slot `index` of `count`, which the coordinates are computed from. `Graph.FocusOnlyRecolours` shows that these never depend on the focus.
- Colours are enum tags, not rgba strings. Each tag's doc comment names its string.
- The dataset contents and the skill radius constant are not part of this model. The dataset is an arbitrary sequence of `Profession`.
- React's state update and re-render are modelled as two calls: `Click` sets the field, then `Render` rebuilds the lists from it. Nothing models scheduling or batching.
- The optional `border` and `boxShadow` fields of an item's style are never set by the component and are not modelled.
- A click can deliver any `Item`: the model takes the clicked item as an arbitrary value, as the handler does.
