/**
  The `Chart` component: the dataset it draws, the focused item it keeps as
  state, the click handler that replaces the focus, and the body that builds
  the node and edge lists with loops on every render.
 */
module Chart {
  import opened Types
  import opened Ids
  import opened Skills
  import opened JsMap
  import opened Graph

  // ------------------------------------------------------ focus transitions

  /** One click: the clicked item becomes the focus, whatever was focused before. */
  function Select(focus: Option<Item>, clicked: Item): Option<Item>
  {
    Some(clicked)
  }

  /** The focus after the clicks `clicks`, starting from `focus`. */
  function Run(focus: Option<Item>, clicks: seq<Item>): Option<Item>
    decreases |clicks|
  {
    if clicks == [] then focus else Run(Select(focus, clicks[0]), clicks[1..])
  }

  /** After at least one click, the focus is the item clicked last. */
  lemma {:induction false} RunEndsOnLastClick(focus: Option<Item>, clicks: seq<Item>)
    requires clicks != []
    ensures Run(focus, clicks) == Some(clicks[|clicks| - 1])
    decreases |clicks|
  {
    if |clicks| > 1 {
      RunEndsOnLastClick(Select(focus, clicks[0]), clicks[1..]);
    }
  }

  /** The focus is empty only at the start, before any click: nothing deselects. */
  lemma {:induction false} NeverDeselects(focus: Option<Item>, clicks: seq<Item>)
    ensures Run(focus, clicks) == None <==> focus == None && clicks == []
  {
    if clicks != [] {
      RunEndsOnLastClick(focus, clicks);
    }
  }

  // ------------------------------------------------------- worked example

  /**
    Two professions sharing the skill SQL: Engineer (main Go, other SQL) and
    Analyst (main SQL).
   */
  const Engineer := Profession("Engineer", ["Go"], ["SQL"])
  const Analyst := Profession("Analyst", ["SQL"], [])
  const EngineerNode := Item("profession-0", "Engineer", ProfessionCategory, ProfessionSymbolSize, Plain, Placement(ProfessionRing, 0, 2))
  const SqlNode := Item("skill-SQL", "SQL", SkillCategory, SkillSymbolSize, SkillOrange, Placement(SkillRing, 1, 2))

  /** SQL, listed by both professions, gets one node, after Go. */
  lemma ExampleDistinctSkills()
    ensures UniqueSkills([Engineer, Analyst]) == ["Go", "SQL"]
    ensures |Nodes([Engineer, Analyst], None)| == 4
  {
    var data := [Engineer, Analyst];
    assert AllSkills(data) == ["Go", "SQL", "SQL"] by {
      assert data[..1] == [Engineer];
      assert [Engineer][..0] == [];
      assert AllSkills([Engineer]) == ["Go"] + ["SQL"];
      assert AllSkills(data) == AllSkills([Engineer]) + ["SQL"] + [];
    }
    assert Distinct(["Go", "SQL", "SQL"]) == ["Go", "SQL"] by {
      assert ["Go", "SQL", "SQL"][..2] == ["Go", "SQL"];
      assert ["Go", "SQL"][..1] == ["Go"];
      assert ["Go"][..0] == [];
    }
    NodesAt(data, None);
  }

  /** Focusing Engineer: a main edge to Go, then an other edge to SQL. */
  lemma ExampleProfessionFocus()
    ensures Links([Engineer, Analyst], Some(EngineerNode)) ==
      [Link("profession-0", "skill-Go", MainColour, 2), Link("profession-0", "skill-SQL", OtherColour, 2)]
  {
    var data := [Engineer, Analyst];
    assert Find(data, "Engineer") == Some(Engineer);
    assert SkillId("Go") == "skill-Go" && SkillId("SQL") == "skill-SQL";
    FanOutAt("profession-0", ["Go"], MainColour);
    FanOutAt("profession-0", ["SQL"], OtherColour);
  }

  /** Focusing SQL: an other edge from Engineer, then a main edge from Analyst. */
  lemma ExampleSkillFocus()
    ensures Links([Engineer, Analyst], Some(SqlNode)) ==
      [Link("profession-0", "skill-SQL", OtherColour, 2), Link("profession-1", "skill-SQL", MainColour, 2)]
  {
    var data := [Engineer, Analyst];
    assert ProfessionId(0) == "profession-0";
    assert ProfessionId(1) == "profession-1";
    assert "SQL" != "Go" by { assert "SQL"[0] != "Go"[0]; }
    assert SkillEdgeColour(Engineer, "SQL") == OtherColour;
    assert SkillEdgeColour(Analyst, "SQL") == MainColour;
    assert Holders(data, "SQL", 2) == [0, 1];
    SkillFocusLinks(data, SqlNode);
  }

  // ------------------------------------------------------------ component

  class Chart {
    const data: seq<Profession>
    var focus: Option<Item>

    /** `useState<Item | null>(null)`: the chart starts with nothing focused. */
    constructor (data: seq<Profession>)
      ensures this.data == data && focus == None
    {
      this.data := data;
      focus := None;
    }

    /** The click handler: the clicked item becomes the focus. */
    method Click(clicked: Item)
      modifies this
      ensures focus == Select(old(focus), clicked)
      ensures focus != None
    {
      focus := Some(clicked);
    }

    /** The profession loop: one item per profession, in dataset order. */
    method ProfessionNodes() returns (items: seq<Item>)
      ensures items == ProfessionItems(data, focus, |data|)
    {
      items := [];
      var index := 0;
      while index < |data|
        invariant index <= |data|
        invariant items == ProfessionItems(data, focus, index)
      {
        var id := ProfessionId(index);
        var colour := if focus.Some? && focus.value.id == id then Highlighted else Plain;
        items := items + [Item(id, data[index].name, ProfessionCategory, ProfessionSymbolSize,
                               colour, Placement(ProfessionRing, index, |data|))];
        index := index + 1;
      }
    }

    /** The skill loop: fill the skill map in first-seen order and list its values. */
    method SkillNodes() returns (items: seq<Item>)
      ensures items == SkillItems(UniqueSkills(data), |UniqueSkills(data)|)
    {
      var uniqueSkills := UniqueSkills(data);
      var skillMap: OrderedMap<string, Item> := Empty();
      var index := 0;
      while index < |uniqueSkills|
        invariant index <= |uniqueSkills|
        invariant skillMap.Valid()
        invariant skillMap.keys == uniqueSkills[..index]
        invariant skillMap.Values() == SkillItems(uniqueSkills, index)
      {
        var skill := uniqueSkills[index];
        var item := Item(SkillId(skill), skill, SkillCategory, SkillSymbolSize,
                         SkillOrange, Placement(SkillRing, index, |uniqueSkills|));
        assert skill !in skillMap.entries by {
          assert skill !in uniqueSkills[..index];
        }
        assert item == SkillItem(uniqueSkills, index);
        skillMap := skillMap.Set(skill, item);
        assert uniqueSkills[..index + 1] == uniqueSkills[..index] + [skill];
        index := index + 1;
      }
      items := skillMap.Values();
    }

    /** The edges for the current focus. */
    method FocusLinks() returns (links: seq<Link>)
      ensures links == Links(data, focus)
    {
      links := [];
      if focus.Some? {
        var f := focus.value;
        if f.category == ProfessionCategory {
          var profession := Find(data, f.name);
          if profession.Some? {
            var p := profession.value;
            var k := 0;
            while k < |p.mainSkills|
              invariant k <= |p.mainSkills|
              invariant links == FanOut(f.id, p.mainSkills[..k], MainColour)
            {
              assert p.mainSkills[..k + 1][..k] == p.mainSkills[..k];
              links := links + [Link(f.id, SkillId(p.mainSkills[k]), MainColour, LinkWidth)];
              k := k + 1;
            }
            assert p.mainSkills[..k] == p.mainSkills;
            var mainLinks := links;
            k := 0;
            while k < |p.otherSkills|
              invariant k <= |p.otherSkills|
              invariant links == mainLinks + FanOut(f.id, p.otherSkills[..k], OtherColour)
            {
              assert p.otherSkills[..k + 1][..k] == p.otherSkills[..k];
              links := links + [Link(f.id, SkillId(p.otherSkills[k]), OtherColour, LinkWidth)];
              k := k + 1;
            }
            assert p.otherSkills[..k] == p.otherSkills;
          }
        } else {
          var index := 0;
          while index < |data|
            invariant index <= |data|
            invariant links == FanIn(data, index, f.id, f.name)
          {
            var profession := data[index];
            if f.name in profession.mainSkills || f.name in profession.otherSkills {
              var colour := if f.name in profession.mainSkills then MainColour else OtherColour;
              links := links + [Link(ProfessionId(index), f.id, colour, LinkWidth)];
            }
            index := index + 1;
          }
        }
      }
    }

    /** One render: the node list, the edge list and the tooltip flag for the current focus. */
    method Render() returns (items: seq<Item>, links: seq<Link>, showTooltip: bool)
      ensures items == Nodes(data, focus)
      ensures links == Links(data, focus)
      ensures showTooltip == TooltipShown(focus)
    {
      items := ProfessionNodes();
      var skillItems := SkillNodes();
      items := items + skillItems;
      links := FocusLinks();
      showTooltip := focus == None;
    }
  }
}
