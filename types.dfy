/**
  The records the chart works on: a profession of the dataset, a drawable
  node (`Item`) and a drawable edge (`Link`).

  Colours are the rgba strings of the chart, named by their role; the
  floating-point x/y coordinates are replaced by the ring and the slot on it
  that the coordinates are computed from.
 */
module Types {

  datatype Option<T> = None | Some(value: T)

  /** One record of the dataset: a name and two ordered lists of skill names. */
  datatype Profession = Profession(name: string, mainSkills: seq<string>, otherSkills: seq<string>)

  /** True when the profession lists `skill` among its main or its other skills. */
  predicate HasSkill(p: Profession, skill: string)
  {
    skill in p.mainSkills || skill in p.otherSkills
  }

  datatype Category = ProfessionCategory | SkillCategory

  /**
    Node colours: `Highlighted` is rgba(0, 163, 114, 1), `Plain` is
    rgba(173, 173, 173, 1) (both for profession nodes), `SkillOrange` is
    rgba(255, 122, 0, 1), the one colour of every skill node.
   */
  datatype NodeColour = Highlighted | Plain | SkillOrange

  datatype Ring = ProfessionRing | SkillRing

  /**
    Where a node is drawn: slot `index` of `count` equally spaced slots on a
    ring (radius 200 for professions, the skill radius for skills), that is
    at angle `index / count * 2 * pi`.
   */
  datatype Placement = Placement(ring: Ring, index: nat, count: nat)

  datatype Item = Item(
    id: string,
    name: string,
    category: Category,
    symbolSize: real,
    colour: NodeColour,
    placement: Placement)

  /** Edge colours: `MainColour` is rgba(255, 122, 0, 1), `OtherColour` is rgba(143, 89, 185, 1). */
  datatype LinkColour = MainColour | OtherColour

  datatype Link = Link(source: string, target: string, colour: LinkColour, width: nat)

  const ProfessionSymbolSize: real := 23.7
  const SkillSymbolSize: real := 27.5
  const LinkWidth: nat := 2
}
