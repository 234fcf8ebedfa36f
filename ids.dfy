/**
  Node identities. A profession node is `profession-<index>`, the index
  written in decimal as a template literal writes a non-negative integer; a
  skill node is `skill-<name>`. The lemmas show that these strings identify
  nodes: distinct indices give distinct ids, distinct names give distinct
  ids, and the two families never meet.
 */
module Ids {

  function Digit(d: nat): (c: char)
    requires d < 10
    ensures '0' <= c <= '9'
  {
    "0123456789"[d]
  }

  lemma DigitInjective(a: nat, b: nat)
    requires a < 10 && b < 10
    ensures Digit(a) == Digit(b) ==> a == b
  {
  }

  /** The decimal numeral of `n`, without leading zeros. */
  function Decimal(n: nat): (s: string)
    ensures 1 <= |s|
    ensures n < 10 <==> |s| == 1
  {
    if n < 10 then [Digit(n)] else Decimal(n / 10) + [Digit(n % 10)]
  }

  /** Different numbers have different numerals. */
  lemma {:induction false} DecimalInjective(a: nat, b: nat)
    requires Decimal(a) == Decimal(b)
    ensures a == b
  {
    var s := Decimal(a);
    if a < 10 {
      assert Digit(a) == s[0] == Digit(b);
      DigitInjective(a, b);
    } else {
      assert Decimal(a / 10) == s[..|s| - 1] == Decimal(b / 10);
      DecimalInjective(a / 10, b / 10);
      DigitInjective(a % 10, b % 10);
    }
  }

  const ProfessionPrefix: string := "profession-"
  const SkillPrefix: string := "skill-"

  /** `profession-${index}` */
  function ProfessionId(index: nat): (id: string)
    ensures |id| > |ProfessionPrefix| && id[..|ProfessionPrefix|] == ProfessionPrefix
    ensures id[|ProfessionPrefix|..] == Decimal(index)
  {
    ProfessionPrefix + Decimal(index)
  }

  /** `skill-${skill}` */
  function SkillId(skill: string): (id: string)
    ensures |id| == |SkillPrefix| + |skill| && id[..|SkillPrefix|] == SkillPrefix
    ensures id[|SkillPrefix|..] == skill
  {
    SkillPrefix + skill
  }

  lemma ProfessionIdInjective(i: nat, j: nat)
    ensures ProfessionId(i) == ProfessionId(j) <==> i == j
  {
    if ProfessionId(i) == ProfessionId(j) {
      var n := |ProfessionPrefix|;
      assert Decimal(i) == ProfessionId(i)[n..] == ProfessionId(j)[n..] == Decimal(j);
      DecimalInjective(i, j);
    }
  }

  lemma SkillIdInjective(a: string, b: string)
    ensures SkillId(a) == SkillId(b) <==> a == b
  {
  }

  /** A profession id never equals a skill id, whatever the skill's name. */
  lemma IdFamiliesDisjoint(i: nat, skill: string)
    ensures ProfessionId(i) != SkillId(skill)
  {
    assert ProfessionId(i)[0] == 'p';
    assert SkillId(skill)[0] == 's';
  }
}
