/**
 The skills multi-select. Clicking a skill's checkbox toggles that label in the
 selected list: a present label is filtered out (every occurrence), an absent
 one is appended at the end.
 */
module SkillSelection {

  /** `skills.filter(s => s !== skill)`: the list with every `skill` removed, order kept. */
  function Without(skills: seq<string>, skill: string): (r: seq<string>)
    ensures forall t :: t in r <==> t in skills && t != skill
    ensures multiset(r) == multiset(skills)[skill := 0]
    ensures skill !in skills ==> r == skills
    ensures skill in skills ==> |r| < |skills|
  {
    if |skills| == 0 then []
    else
      var rest := Without(skills[1..], skill);
      assert skills == [skills[0]] + skills[1..];
      if skills[0] == skill then rest else [skills[0]] + rest
  }

  /** The list after the checkbox for `skill` is clicked. */
  function ToggleSkill(skills: seq<string>, skill: string): (r: seq<string>)
    ensures skill in r <==> skill !in skills
    ensures forall t :: t != skill ==> (t in r <==> t in skills)
    ensures skill !in skills ==> r == skills + [skill]
    ensures skill in skills ==> r == Without(skills, skill) && |r| < |skills|
  {
    if skill in skills then Without(skills, skill) else skills + [skill]
  }

  /** Filtering distributes over concatenation. */
  lemma {:induction false} WithoutAppend(a: seq<string>, b: seq<string>, skill: string)
    ensures Without(a + b, skill) == Without(a, skill) + Without(b, skill)
  {
    if |a| == 0 {
      assert a + b == b;
    } else {
      assert (a + b)[1..] == a[1..] + b;
      WithoutAppend(a[1..], b, skill);
    }
  }

  /** Two clicks on an unchecked skill leave the list exactly as it was. */
  lemma ToggleTwiceFromAbsent(skills: seq<string>, skill: string)
    requires skill !in skills
    ensures ToggleSkill(ToggleSkill(skills, skill), skill) == skills
  {
    WithoutAppend(skills, [skill], skill);
    assert Without([skill], skill) == [];
    assert skills + [] == skills;
  }

  /**
   Two clicks on a checked skill keep the same selection, with that skill moved
   to the end (and any duplicates of it collapsed to one).
   */
  lemma ToggleTwiceFromPresent(skills: seq<string>, skill: string)
    requires skill in skills
    ensures ToggleSkill(ToggleSkill(skills, skill), skill) == Without(skills, skill) + [skill]
    ensures forall t :: t in ToggleSkill(ToggleSkill(skills, skill), skill) <==> t in skills
  {
  }

  /** No skill occurs twice. */
  predicate NoDuplicates(skills: seq<string>) {
    forall i, j :: 0 <= i < j < |skills| ==> skills[i] != skills[j]
  }

  lemma NoDuplicatesByCount(skills: seq<string>)
    ensures NoDuplicates(skills) <==> forall t :: multiset(skills)[t] <= 1
  {
    if NoDuplicates(skills) {
      forall t ensures multiset(skills)[t] <= 1 {
        CountAtMostOne(skills, t);
      }
    } else {
      var i, j :| 0 <= i < j < |skills| && skills[i] == skills[j];
      var t := skills[i];
      assert skills == skills[..j] + [skills[j]] + skills[j + 1..];
      assert skills[i] in skills[..j];
      assert multiset(skills[..j])[t] >= 1;
      assert multiset(skills)[t] >= 2;
    }
  }

  lemma {:induction false} CountAtMostOne(skills: seq<string>, t: string)
    requires NoDuplicates(skills)
    ensures multiset(skills)[t] <= 1
  {
    if |skills| > 0 {
      assert skills == [skills[0]] + skills[1..];
      assert NoDuplicates(skills[1..]) by {
        forall i, j | 0 <= i < j < |skills[1..]|
          ensures skills[1..][i] != skills[1..][j]
        {
          assert skills[1..][i] == skills[i + 1] && skills[1..][j] == skills[j + 1];
        }
      }
      CountAtMostOne(skills[1..], t);
      if skills[0] == t {
        forall k | 0 <= k < |skills[1..]|
          ensures skills[1..][k] != t
        {
          assert skills[1..][k] == skills[k + 1];
        }
        assert t !in skills[1..];
      }
    }
  }

  /**
   Starting from the empty default, the checkboxes can never select a skill
   twice: toggling keeps a duplicate-free list duplicate-free.
   */
  lemma ToggleKeepsNoDuplicates(skills: seq<string>, skill: string)
    requires NoDuplicates(skills)
    ensures NoDuplicates(ToggleSkill(skills, skill))
  {
    NoDuplicatesByCount(skills);
    var r := ToggleSkill(skills, skill);
    if skill !in skills {
      assert multiset(r) == multiset(skills) + multiset{skill};
    }
    NoDuplicatesByCount(r);
  }
}
