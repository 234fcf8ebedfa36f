/**
  The list of distinct skills: `Array.from(new Set(data.flatMap(p =>
  [...p.mainSkills, ...p.otherSkills])))`. A JavaScript `Set` built from an
  iterable keeps each element once, at the position where it was first
  inserted, so the result lists every skill of the dataset once, in the order
  of its first occurrence in the scan.
 */
module Skills {
  import opened Types

  predicate NoDuplicates<T(==)>(s: seq<T>)
  {
    forall i, j :: 0 <= i < j < |s| ==> s[i] != s[j]
  }

  /** `data.flatMap(p => [...p.mainSkills, ...p.otherSkills])`: every skill, in scan order. */
  function AllSkills(data: seq<Profession>): (s: seq<string>)
    ensures forall x :: x in s <==> exists i :: 0 <= i < |data| && HasSkill(data[i], x)
  {
    if data == [] then []
    else
      var last := data[|data| - 1];
      var s := AllSkills(data[..|data| - 1]);
      assert forall i :: 0 <= i < |data| - 1 ==> data[..|data| - 1][i] == data[i];
      s + last.mainSkills + last.otherSkills
  }

  /** The position of the first occurrence of `x` in `s`. */
  function FirstIndex<T(==)>(s: seq<T>, x: T): (i: nat)
    requires x in s
    ensures i < |s| && s[i] == x && x !in s[..i]
  {
    if s[0] == x then 0
    else
      var i := 1 + FirstIndex(s[1..], x);
      assert s[..i] == [s[0]] + s[1..][..i - 1];
      i
  }

  /** The first occurrence of `x` in `s` is also its first occurrence in any prefix of `s` that contains it. */
  lemma FirstIndexOfPrefix<T>(s: seq<T>, n: nat, x: T)
    requires n <= |s| && x in s[..n]
    ensures FirstIndex(s, x) == FirstIndex(s[..n], x)
  {
    var k := FirstIndex(s[..n], x);
    assert s[..n][..k] == s[..k];
    assert s[k] == x;
  }

  /** `Array.from(new Set(s))`: insert the elements one by one, skipping those already present. */
  function Distinct<T(==,!new)>(s: seq<T>): (r: seq<T>)
    ensures NoDuplicates(r)
    ensures forall x :: x in r <==> x in s
    ensures |r| <= |s|
  {
    if s == [] then []
    else
      var init, last := s[..|s| - 1], s[|s| - 1];
      assert s == init + [last];
      var d := Distinct(init);
      if last in d then d else d + [last]
  }

  /** The elements of `Distinct(s)` appear in the order of their first occurrences in `s`. */
  lemma {:induction false} DistinctInFirstSeenOrder<T(!new)>(s: seq<T>)
    ensures forall i, j :: 0 <= i < j < |Distinct(s)| ==>
      FirstIndex(s, Distinct(s)[i]) < FirstIndex(s, Distinct(s)[j])
  {
    if s != [] {
      var n := |s|;
      var init, last := s[..n - 1], s[n - 1];
      var d := Distinct(init);
      DistinctInFirstSeenOrder(init);
      forall x | x in d
        ensures FirstIndex(s, x) == FirstIndex(init, x) < n - 1
      {
        FirstIndexOfPrefix(s, n - 1, x);
      }
      if last !in d {
        assert last !in s[..n - 1];
        assert FirstIndex(s, last) == n - 1;
      }
    }
  }

  /** The scan distributes over concatenation of datasets: all skills of `a`, then all skills of `b`. */
  lemma {:induction false} AllSkillsAppend(a: seq<Profession>, b: seq<Profession>)
    ensures AllSkills(a + b) == AllSkills(a) + AllSkills(b)
    decreases |b|
  {
    if b != [] {
      var b' := b[..|b| - 1];
      assert (a + b)[..|a + b| - 1] == a + b';
      AllSkillsAppend(a, b');
    } else {
      assert a + b == a;
    }
  }

  /** Every element of `r` occurs in `s`, and `r` lists them in the order of their first occurrences in `s`. */
  ghost predicate FirstSeenOrdered<T>(s: seq<T>, r: seq<T>)
  {
    && (forall i :: 0 <= i < |r| ==> r[i] in s)
    && (forall i, j :: 0 <= i < j < |r| ==> FirstIndex(s, r[i]) < FirstIndex(s, r[j]))
  }

  lemma HeadIsElement<T>(s: seq<T>)
    ensures s != [] ==> s[0] in s
  {
  }

  /** Two lists of the same elements, both in first-seen order of `s`, are equal. */
  lemma {:induction false} FirstSeenOrderIsUnique<T(!new)>(s: seq<T>, r1: seq<T>, r2: seq<T>)
    requires FirstSeenOrdered(s, r1) && FirstSeenOrdered(s, r2)
    requires forall x :: x in r1 <==> x in r2
    ensures r1 == r2
    decreases |r1|
  {
    if r1 == [] {
      HeadIsElement(r2);
    } else {
      assert r1[0] in r2;
      var a, b := r1[0], r2[0];
      assert b in r1;
      var m :| 0 <= m < |r1| && r1[m] == b;
      var n :| 0 <= n < |r2| && r2[n] == a;
      assert FirstIndex(s, r1[0]) <= FirstIndex(s, r1[m]);
      assert FirstIndex(s, r2[0]) <= FirstIndex(s, r2[n]);
      assert a == s[FirstIndex(s, a)] == b;
      forall x
        ensures x in r1[1..] ==> x in r2[1..]
        ensures x in r2[1..] ==> x in r1[1..]
      {
        if x in r1[1..] {
          var k :| 1 <= k < |r1| && r1[k] == x;
          assert FirstIndex(s, r1[0]) < FirstIndex(s, r1[k]);
          assert x in r1;
          var k2 :| 0 <= k2 < |r2| && r2[k2] == x;
          assert r2[1..][k2 - 1] == x;
        }
        if x in r2[1..] {
          var k :| 1 <= k < |r2| && r2[k] == x;
          assert FirstIndex(s, r2[0]) < FirstIndex(s, r2[k]);
          assert x in r2;
          var k1 :| 0 <= k1 < |r1| && r1[k1] == x;
          assert r1[1..][k1 - 1] == x;
        }
      }
      FirstSeenOrderIsUnique(s, r1[1..], r2[1..]);
    }
  }

  /**
    `Distinct(s)` is the one list that holds each element of `s` exactly once
    in first-seen order: any list with the same elements in that order is it.
   */
  lemma DistinctCharacterized<T(!new)>(s: seq<T>, r: seq<T>)
    requires FirstSeenOrdered(s, r)
    requires forall x :: x in r <==> x in s
    ensures r == Distinct(s)
  {
    DistinctInFirstSeenOrder(s);
    FirstSeenOrderIsUnique(s, r, Distinct(s));
  }

  /** The skill names of the chart: each skill of the dataset once, in first-seen order. */
  function UniqueSkills(data: seq<Profession>): (u: seq<string>)
    ensures NoDuplicates(u)
    ensures forall x :: x in u <==> exists i :: 0 <= i < |data| && HasSkill(data[i], x)
  {
    Distinct(AllSkills(data))
  }

  /** The chart's skills appear in the order of their first occurrences in the scan. */
  lemma UniqueSkillsFirstSeen(data: seq<Profession>)
    ensures FirstSeenOrdered(AllSkills(data), UniqueSkills(data))
  {
    DistinctInFirstSeenOrder(AllSkills(data));
  }
}
