/**
  What one render of the chart draws, as functions of the dataset and the
  current focus: the node list (profession nodes, then one node per distinct
  skill) and the edge list (by the category of the focused node). Each list is
  defined as the sequence the rendering loops push, after n iterations; the
  lemmas state what the lists contain.
 */
module Graph {
  import opened Types
  import opened Ids
  import opened Skills

  // ---------------------------------------------------------------- nodes

  /** The colour rule for profession nodes: a profession node is highlighted exactly when it is the focused node. */
  function ProfessionColour(focus: Option<Item>, id: string): NodeColour
  {
    if focus.Some? && focus.value.id == id then Highlighted else Plain
  }

  /** The item pushed for profession `index`. */
  function ProfessionItem(data: seq<Profession>, focus: Option<Item>, index: nat): Item
    requires index < |data|
  {
    var id := ProfessionId(index);
    Item(id, data[index].name, ProfessionCategory, ProfessionSymbolSize,
      ProfessionColour(focus, id), Placement(ProfessionRing, index, |data|))
  }

  /** The item set in the skill map for the skill at `index` of the distinct skills. */
  function SkillItem(skills: seq<string>, index: nat): Item
    requires index < |skills|
  {
    Item(SkillId(skills[index]), skills[index], SkillCategory, SkillSymbolSize,
      SkillOrange, Placement(SkillRing, index, |skills|))
  }

  /** The items pushed by the first `n` iterations of the profession loop. */
  function ProfessionItems(data: seq<Profession>, focus: Option<Item>, n: nat): (items: seq<Item>)
    requires n <= |data|
    ensures |items| == n
  {
    if n == 0 then [] else ProfessionItems(data, focus, n - 1) + [ProfessionItem(data, focus, n - 1)]
  }

  /** The items set by the first `n` iterations of the skill loop. */
  function SkillItems(skills: seq<string>, n: nat): (items: seq<Item>)
    requires n <= |skills|
    ensures |items| == n
  {
    if n == 0 then [] else SkillItems(skills, n - 1) + [SkillItem(skills, n - 1)]
  }

  /** All nodes of one render: profession nodes, then skill nodes. */
  function Nodes(data: seq<Profession>, focus: Option<Item>): seq<Item>
  {
    var skills := UniqueSkills(data);
    ProfessionItems(data, focus, |data|) + SkillItems(skills, |skills|)
  }

  lemma {:induction false} ProfessionItemsAt(data: seq<Profession>, focus: Option<Item>, n: nat)
    requires n <= |data|
    ensures |ProfessionItems(data, focus, n)| == n
    ensures forall i :: 0 <= i < n ==> ProfessionItems(data, focus, n)[i] == ProfessionItem(data, focus, i)
  {
    if n > 0 {
      var prev := ProfessionItems(data, focus, n - 1);
      ProfessionItemsAt(data, focus, n - 1);
      assert ProfessionItems(data, focus, n) == prev + [ProfessionItem(data, focus, n - 1)];
      forall i | 0 <= i < n - 1
        ensures ProfessionItems(data, focus, n)[i] == ProfessionItem(data, focus, i)
      {
        assert ProfessionItems(data, focus, n)[i] == prev[i];
      }
    }
  }

  lemma {:induction false} SkillItemsAt(skills: seq<string>, n: nat)
    requires n <= |skills|
    ensures |SkillItems(skills, n)| == n
    ensures forall j :: 0 <= j < n ==> SkillItems(skills, n)[j] == SkillItem(skills, j)
  {
    if n > 0 {
      SkillItemsAt(skills, n - 1);
    }
  }

  /**
    The node list has one node per profession, in dataset order, followed by
    one node per distinct skill, in first-seen order, with the ids, names,
    categories, sizes and ring slots the render assigns.
   */
  lemma NodesLayout(data: seq<Profession>, focus: Option<Item>)
    ensures var nodes, skills := Nodes(data, focus), UniqueSkills(data);
      && |nodes| == |data| + |skills|
      && (forall i :: 0 <= i < |data| ==>
            && nodes[i].id == ProfessionId(i)
            && nodes[i].name == data[i].name
            && nodes[i].category == ProfessionCategory
            && nodes[i].symbolSize == ProfessionSymbolSize
            && nodes[i].placement == Placement(ProfessionRing, i, |data|))
      && (forall j :: 0 <= j < |skills| ==>
            && nodes[|data| + j].id == SkillId(skills[j])
            && nodes[|data| + j].name == skills[j]
            && nodes[|data| + j].category == SkillCategory
            && nodes[|data| + j].symbolSize == SkillSymbolSize
            && nodes[|data| + j].placement == Placement(SkillRing, j, |skills|))
  {
    var nodes, skills := Nodes(data, focus), UniqueSkills(data);
    NodesAt(data, focus);
    forall j | 0 <= j < |skills|
      ensures nodes[|data| + j].id == SkillId(skills[j])
      ensures nodes[|data| + j].name == skills[j]
      ensures nodes[|data| + j].category == SkillCategory
      ensures nodes[|data| + j].symbolSize == SkillSymbolSize
      ensures nodes[|data| + j].placement == Placement(SkillRing, j, |skills|)
    {
      assert nodes[|data| + j] == SkillItem(skills, j);
    }
  }

  /** The node list is the profession items followed by the skill items. */
  lemma NodesAt(data: seq<Profession>, focus: Option<Item>)
    ensures var nodes, skills := Nodes(data, focus), UniqueSkills(data);
      && |nodes| == |data| + |skills|
      && (forall i :: 0 <= i < |data| ==> nodes[i] == ProfessionItem(data, focus, i))
      && (forall j :: 0 <= j < |skills| ==> nodes[|data| + j] == SkillItem(skills, j))
  {
    var skills := UniqueSkills(data);
    var front, back := ProfessionItems(data, focus, |data|), SkillItems(skills, |skills|);
    ProfessionItemsAt(data, focus, |data|);
    SkillItemsAt(skills, |skills|);
    var nodes := Nodes(data, focus);
    assert nodes == front + back;
    forall j | 0 <= j < |skills|
      ensures nodes[|data| + j] == SkillItem(skills, j)
    {
      assert nodes[|data| + j] == back[j];
    }
  }

  /** Every skill of every profession has exactly one node, and it is a skill node. */
  lemma EverySkillHasOneNode(data: seq<Profession>, focus: Option<Item>, i: nat, skill: string)
    requires i < |data| && HasSkill(data[i], skill)
    ensures var nodes := Nodes(data, focus);
      && (exists k :: |data| <= k < |nodes| && nodes[k].id == SkillId(skill) && nodes[k].category == SkillCategory)
      && (forall k, k' :: 0 <= k < |nodes| && 0 <= k' < |nodes| && nodes[k].id == SkillId(skill) && nodes[k'].id == SkillId(skill) ==> k == k')
  {
    var nodes, skills := Nodes(data, focus), UniqueSkills(data);
    NodesLayout(data, focus);
    NodeIdsDistinct(data, focus);
    assert skill in skills;
    var j :| 0 <= j < |skills| && skills[j] == skill;
    assert nodes[|data| + j].id == SkillId(skill);
  }

  /** No two nodes of a render share an id. */
  lemma NodeIdsDistinct(data: seq<Profession>, focus: Option<Item>)
    ensures var nodes := Nodes(data, focus);
      forall a, b :: 0 <= a < b < |nodes| ==> nodes[a].id != nodes[b].id
  {
    var nodes, skills := Nodes(data, focus), UniqueSkills(data);
    NodesLayout(data, focus);
    forall a, b | 0 <= a < b < |nodes|
      ensures nodes[a].id != nodes[b].id
    {
      if b < |data| {
        ProfessionIdInjective(a, b);
      } else if a < |data| {
        IdFamiliesDisjoint(a, skills[b - |data|]);
      } else {
        SkillIdInjective(skills[a - |data|], skills[b - |data|]);
      }
    }
  }

  /**
    Colour rule: a node is highlighted exactly when it is a profession node
    whose id is the focused item's id; skill nodes always have the skill
    colour, and other profession nodes the plain colour.
   */
  lemma HighlightRule(data: seq<Profession>, focus: Option<Item>)
    ensures var nodes := Nodes(data, focus);
      && (forall k :: 0 <= k < |nodes| ==>
            (nodes[k].colour == Highlighted <==>
              nodes[k].category == ProfessionCategory && focus.Some? && focus.value.id == nodes[k].id))
      && (forall k :: 0 <= k < |nodes| ==>
            (nodes[k].colour == SkillOrange <==> nodes[k].category == SkillCategory))
  {
    var skills := UniqueSkills(data);
    ProfessionItemsAt(data, focus, |data|);
    SkillItemsAt(skills, |skills|);
  }

  /** At most one node is highlighted, whatever the focus. */
  lemma AtMostOneHighlighted(data: seq<Profession>, focus: Option<Item>)
    ensures var nodes := Nodes(data, focus);
      forall a, b :: 0 <= a < |nodes| && 0 <= b < |nodes| && nodes[a].colour == Highlighted && nodes[b].colour == Highlighted ==> a == b
  {
    var nodes := Nodes(data, focus);
    HighlightRule(data, focus);
    NodeIdsDistinct(data, focus);
    forall a, b | 0 <= a < |nodes| && 0 <= b < |nodes| && nodes[a].colour == Highlighted && nodes[b].colour == Highlighted
      ensures a == b
    {
      assert nodes[a].id == focus.value.id == nodes[b].id;
    }
  }

  /** Changing the focus changes only the colours of the nodes: ids, names, sizes and positions stay. */
  lemma FocusOnlyRecolours(data: seq<Profession>, f: Option<Item>, g: Option<Item>)
    ensures |Nodes(data, f)| == |Nodes(data, g)|
    ensures forall k :: 0 <= k < |Nodes(data, f)| ==>
      Nodes(data, f)[k].(colour := Plain) == Nodes(data, g)[k].(colour := Plain)
  {
    var skills := UniqueSkills(data);
    ProfessionItemsAt(data, f, |data|);
    ProfessionItemsAt(data, g, |data|);
    SkillItemsAt(skills, |skills|);
  }

  // ---------------------------------------------------------------- edges

  /** The edges pushed by `skills.forEach(skill => links.push(source -> skill-<skill>))`. */
  function FanOut(source: string, skills: seq<string>, colour: LinkColour): seq<Link>
  {
    if skills == [] then []
    else FanOut(source, skills[..|skills| - 1], colour) + [Link(source, SkillId(skills[|skills| - 1]), colour, LinkWidth)]
  }

  /** The colour of a skill-focus edge: main colour when the skill is one of the profession's main skills. */
  function SkillEdgeColour(p: Profession, skill: string): LinkColour
  {
    if skill in p.mainSkills then MainColour else OtherColour
  }

  /** The edges pushed by the first `n` iterations of the skill-focus loop over the dataset. */
  function FanIn(data: seq<Profession>, n: nat, target: string, skill: string): seq<Link>
    requires n <= |data|
  {
    if n == 0 then []
    else
      FanIn(data, n - 1, target, skill) +
      if HasSkill(data[n - 1], skill)
      then [Link(ProfessionId(n - 1), target, SkillEdgeColour(data[n - 1], skill), LinkWidth)]
      else []
  }

  /** `data.find(p => p.name === name)`, searching from index `from`: the first match. */
  function FindFrom(data: seq<Profession>, name: string, from: nat): (r: Option<nat>)
    requires from <= |data|
    ensures r.Some? ==> from <= r.value < |data| && data[r.value].name == name
    ensures r.Some? ==> forall j :: from <= j < r.value ==> data[j].name != name
    ensures r.None? ==> forall j :: from <= j < |data| ==> data[j].name != name
    decreases |data| - from
  {
    if from == |data| then None
    else if data[from].name == name then Some(from)
    else FindFrom(data, name, from + 1)
  }

  function Find(data: seq<Profession>, name: string): Option<Profession>
  {
    match FindFrom(data, name, 0)
    case None => None
    case Some(i) => Some(data[i])
  }

  /** The edges of one render, by the category of the focused item. */
  function Links(data: seq<Profession>, focus: Option<Item>): seq<Link>
  {
    match focus
    case None => []
    case Some(f) =>
      if f.category == ProfessionCategory then
        match Find(data, f.name)
        case None => []
        case Some(p) => FanOut(f.id, p.mainSkills, MainColour) + FanOut(f.id, p.otherSkills, OtherColour)
      else
        FanIn(data, |data|, f.id, f.name)
  }

  /** The tooltip flag: the default tooltip is shown only while nothing is focused. */
  function TooltipShown(focus: Option<Item>): bool
  {
    focus == None
  }

  lemma {:induction false} FanOutAt(source: string, skills: seq<string>, colour: LinkColour)
    ensures |FanOut(source, skills, colour)| == |skills|
    ensures forall k :: 0 <= k < |skills| ==>
      FanOut(source, skills, colour)[k] == Link(source, SkillId(skills[k]), colour, LinkWidth)
  {
    if skills != [] {
      FanOutAt(source, skills[..|skills| - 1], colour);
    }
  }

  /** With nothing focused there are no edges and the tooltip is shown; with a focus the tooltip is hidden. */
  lemma UnfocusedView(data: seq<Profession>, focus: Option<Item>)
    ensures focus.None? ==> Links(data, focus) == [] && TooltipShown(focus)
    ensures focus.Some? ==> !TooltipShown(focus)
  {
  }

  /**
    Profession focus, where `i` is the first profession with the focused
    name: one main edge per main skill, then one other edge per other skill,
    each in list order, all from the focused id to `skill-<skill>`.
   */
  lemma ProfessionFocusLinks(data: seq<Profession>, f: Item, i: nat)
    requires f.category == ProfessionCategory
    requires i < |data| && data[i].name == f.name
    requires forall j :: 0 <= j < i ==> data[j].name != f.name
    ensures var links, p := Links(data, Some(f)), data[i];
      && |links| == |p.mainSkills| + |p.otherSkills|
      && (forall k :: 0 <= k < |p.mainSkills| ==>
            links[k] == Link(f.id, SkillId(p.mainSkills[k]), MainColour, LinkWidth))
      && (forall k :: 0 <= k < |p.otherSkills| ==>
            links[|p.mainSkills| + k] == Link(f.id, SkillId(p.otherSkills[k]), OtherColour, LinkWidth))
  {
    var p := data[i];
    assert FindFrom(data, f.name, 0) == Some(i);
    FanOutAt(f.id, p.mainSkills, MainColour);
    FanOutAt(f.id, p.otherSkills, OtherColour);
  }

  /**
    When profession names are unique, focusing the node of profession `i`
    draws exactly that profession's skills, main ones first, all from its own
    node.
   */
  lemma FocusedProfessionShowsOwnSkills(data: seq<Profession>, focus: Option<Item>, i: nat)
    requires i < |data|
    requires forall a, b :: 0 <= a < b < |data| ==> data[a].name != data[b].name
    ensures var links, p := Links(data, Some(Nodes(data, focus)[i])), data[i];
      && |links| == |p.mainSkills| + |p.otherSkills|
      && (forall k :: 0 <= k < |links| ==> links[k].source == ProfessionId(i))
      && (forall k :: 0 <= k < |p.mainSkills| ==> links[k].target == SkillId(p.mainSkills[k]) && links[k].colour == MainColour)
      && (forall k :: 0 <= k < |p.otherSkills| ==>
            links[|p.mainSkills| + k].target == SkillId(p.otherSkills[k]) && links[|p.mainSkills| + k].colour == OtherColour)
  {
    NodesAt(data, focus);
    var f := Nodes(data, focus)[i];
    assert f == ProfessionItem(data, focus, i);
    ProfessionFocusLinks(data, f, i);
    var links, p := Links(data, Some(f)), data[i];
    forall k | 0 <= k < |links|
      ensures links[k].source == ProfessionId(i)
    {
      if k >= |p.mainSkills| {
        var j := k - |p.mainSkills|;
        assert 0 <= j < |p.otherSkills|;
        assert links[|p.mainSkills| + j] == Link(f.id, SkillId(p.otherSkills[j]), OtherColour, LinkWidth);
      }
    }
    forall j | 0 <= j < |p.otherSkills|
      ensures links[|p.mainSkills| + j].target == SkillId(p.otherSkills[j])
      ensures links[|p.mainSkills| + j].colour == OtherColour
    {
      assert links[|p.mainSkills| + j] == Link(f.id, SkillId(p.otherSkills[j]), OtherColour, LinkWidth);
    }
  }

  /** Profession focus on a name that no profession has: no edges. */
  lemma ProfessionFocusUnknownName(data: seq<Profession>, f: Item)
    requires f.category == ProfessionCategory
    requires forall j :: 0 <= j < |data| ==> data[j].name != f.name
    ensures Links(data, Some(f)) == []
  {
  }

  /** Under a profession focus every edge ends at an existing skill node. */
  lemma ProfessionFocusTargetsExist(data: seq<Profession>, f: Item, focus: Option<Item>)
    requires f.category == ProfessionCategory
    ensures var links, nodes := Links(data, Some(f)), Nodes(data, focus);
      forall k :: 0 <= k < |links| ==>
        exists n :: |data| <= n < |nodes| && nodes[n].id == links[k].target && nodes[n].category == SkillCategory
  {
    var links, nodes := Links(data, Some(f)), Nodes(data, focus);
    match FindFrom(data, f.name, 0)
    case None =>
    case Some(i) =>
      var p := data[i];
      ProfessionFocusLinks(data, f, i);
      forall k | 0 <= k < |links|
        ensures exists n :: |data| <= n < |nodes| && nodes[n].id == links[k].target && nodes[n].category == SkillCategory
      {
        var skill := if k < |p.mainSkills| then p.mainSkills[k] else p.otherSkills[k - |p.mainSkills|];
        assert HasSkill(p, skill) && links[k].target == SkillId(skill);
        EverySkillHasOneNode(data, focus, i, skill);
      }
  }

  /** The indices, below `n`, of the professions that list `skill`, in increasing order. */
  function Holders(data: seq<Profession>, skill: string, n: nat): (h: seq<nat>)
    requires n <= |data|
    ensures forall k :: 0 <= k < |h| ==> h[k] < n && HasSkill(data[h[k]], skill)
    ensures forall i :: 0 <= i < n && HasSkill(data[i], skill) ==> i in h
    ensures forall a, b :: 0 <= a < b < |h| ==> h[a] < h[b]
  {
    if n == 0 then []
    else Holders(data, skill, n - 1) + if HasSkill(data[n - 1], skill) then [n - 1] else []
  }

  lemma {:induction false} FanInAt(data: seq<Profession>, n: nat, target: string, skill: string)
    requires n <= |data|
    ensures var links, h := FanIn(data, n, target, skill), Holders(data, skill, n);
      && |links| == |h|
      && forall k :: 0 <= k < |h| ==>
           links[k] == Link(ProfessionId(h[k]), target, SkillEdgeColour(data[h[k]], skill), LinkWidth)
  {
    if n > 0 {
      FanInAt(data, n - 1, target, skill);
    }
  }

  /**
    Skill focus: the edges come from the professions that list the skill, in
    dataset order, one each, all ending at the focused id.
   */
  lemma SkillFocusLinks(data: seq<Profession>, f: Item)
    requires f.category == SkillCategory
    ensures var links, h := Links(data, Some(f)), Holders(data, f.name, |data|);
      && |links| == |h|
      && forall k :: 0 <= k < |h| ==>
           links[k] == Link(ProfessionId(h[k]), f.id, SkillEdgeColour(data[h[k]], f.name), LinkWidth)
  {
    FanInAt(data, |data|, f.id, f.name);
  }

  /** Skill focus: profession `i` has an edge exactly when it lists the focused skill. */
  lemma SkillFocusEdgeIffHolder(data: seq<Profession>, f: Item, i: nat)
    requires f.category == SkillCategory && i < |data|
    ensures var links := Links(data, Some(f));
      HasSkill(data[i], f.name) <==> exists k :: 0 <= k < |links| && links[k].source == ProfessionId(i)
  {
    var links, h := Links(data, Some(f)), Holders(data, f.name, |data|);
    SkillFocusLinks(data, f);
    if HasSkill(data[i], f.name) {
      var k :| 0 <= k < |h| && h[k] == i;
      assert links[k].source == ProfessionId(i);
    }
    if exists k :: 0 <= k < |links| && links[k].source == ProfessionId(i) {
      var k :| 0 <= k < |links| && links[k].source == ProfessionId(i);
      ProfessionIdInjective(h[k], i);
    }
  }

  /**
    Skill focus: no profession has two edges, every edge ends at the focused
    id, and an edge is main exactly when the skill is one of its source
    profession's main skills.
   */
  lemma SkillFocusOneEdgeEach(data: seq<Profession>, f: Item)
    requires f.category == SkillCategory
    ensures var links := Links(data, Some(f));
      && (forall k, k' :: 0 <= k < k' < |links| ==> links[k].source != links[k'].source)
      && (forall k, i :: 0 <= k < |links| && 0 <= i < |data| && links[k].source == ProfessionId(i) ==>
            links[k].target == f.id && (links[k].colour == MainColour <==> f.name in data[i].mainSkills))
  {
    var links, h := Links(data, Some(f)), Holders(data, f.name, |data|);
    SkillFocusLinks(data, f);
    forall k, k' | 0 <= k < k' < |links|
      ensures links[k].source != links[k'].source
    {
      ProfessionIdInjective(h[k], h[k']);
    }
    forall k, i | 0 <= k < |links| && 0 <= i < |data| && links[k].source == ProfessionId(i)
      ensures links[k].target == f.id && (links[k].colour == MainColour <==> f.name in data[i].mainSkills)
    {
      ProfessionIdInjective(h[k], i);
    }
  }
}
