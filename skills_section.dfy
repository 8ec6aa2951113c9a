/** The skills panel (client/src/components/SkillsSection.jsx): a fixed table
    of skills, the category buttons and the filter they drive. */
module SkillsSection {
  import opened Wrappers
  import opened Json
  import opened Seqs

  datatype Skill = Skill(name: string, level: nat, category: string)

  /** The table, in display order (SkillsSection.jsx:5-45). */
  const Skills: seq<Skill> := [
    Skill("C#", 70, "language"), Skill("C", 60, "language"), Skill("Java", 90, "language"),
    Skill("JavaScript", 50, "language"), Skill("TypeScript", 60, "language"), Skill("HTML/CSS", 70, "language"),
    Skill("PHP", 80, "language"), Skill("Python", 70, "language"), Skill("Godot", 60, "language"),
    Skill("ASP.NET Core MVC", 60, "framework"), Skill("Express.js", 70, "framework"), Skill("React", 80, "framework"),
    Skill("Bootstrap", 70, "framework"), Skill("Tailwind CSS", 50, "framework"), Skill("Vue.js", 60, "framework"),
    Skill("Angular", 70, "framework"), Skill("Django", 60, "framework"), Skill("JavaFX", 70, "framework"),
    Skill("PostgreSQL", 70, "database"), Skill("PL/SQL", 70, "database"), Skill("MySQL", 70, "database"),
    Skill("SQLite", 60, "database"), Skill("Oracle SQL", 90, "database"),
    Skill("Git/GitHub", 70, "tools"), Skill("Docker", 80, "tools"), Skill("VS Code", 70, "tools"),
    Skill("phpMyAdmin", 70, "tools"),
    Skill("Node.js", 70, "other"), Skill("API Rest", 70, "other"), Skill("Junit", 80, "other")
  ]

  /** The filter buttons, in display order (SkillsSection.jsx:48). */
  const Categories: seq<string> := ["all", "language", "framework", "tools", "other"]

  const All: string := "all"

  /** The filter's test (SkillsSection.jsx:56-57). */
  predicate Shown(active: string, skill: Skill)
  {
    active == All || skill.category == active
  }

  /** The skills shown under the active category, in table order. */
  function FilteredSkills(active: string): (r: seq<Skill>)
    ensures forall i :: 0 <= i < |r| ==> r[i] in Skills && Shown(active, r[i])
    ensures forall i :: 0 <= i < |Skills| && Shown(active, Skills[i]) ==> Skills[i] in r
  {
    ShownIn(Skills, active)
  }

  /** The filter applied to any table of skills. */
  function ShownIn(table: seq<Skill>, active: string): seq<Skill>
  {
    Filter(table, s => Shown(active, s))
  }

  /** Outside "all", a table filters down to exactly its skills of the active
      category, in order. */
  lemma CategoryFilter(table: seq<Skill>, active: string)
    requires active != All
    ensures forall s :: s in ShownIn(table, active) <==> s in table && s.category == active
    ensures IsSubsequence(ShownIn(table, active), table)
  {
    FilterIsSubsequence(table, s => Shown(active, s));
    forall s | s in table && s.category == active
      ensures s in ShownIn(table, active)
    {
      var i :| 0 <= i < |table| && table[i] == s;
    }
  }

  /** Under "all" the whole table is shown, in order. */
  lemma AllShowsEverything()
    ensures FilteredSkills(All) == Skills
  {
    FilterKeepsAll(Skills, s => Shown(All, s));
  }

  /** Under any other category, exactly the skills of that category are
      shown, in table order. */
  lemma CategoryShowsExactlyItsSkills(active: string)
    requires active != All
    ensures forall s :: s in FilteredSkills(active) <==> s in Skills && s.category == active
    ensures IsSubsequence(FilteredSkills(active), Skills)
  {
    CategoryFilter(Skills, active);
  }

  /** A category with no button is shown only under "all". */
  lemma {:induction false} ButtonlessCategoryOnlyUnderAll(active: string, category: string)
    requires active in Categories && category !in Categories
    requires exists i :: 0 <= i < |Skills| && Skills[i].category == category
    ensures (exists s :: s in FilteredSkills(active) && s.category == category) <==> active == All
  {
    if active == All {
      var i :| 0 <= i < |Skills| && Skills[i].category == category;
      assert Shown(active, Skills[i]);
      assert Skills[i] in FilteredSkills(active);
    } else {
      var shown := FilteredSkills(active);
      forall s | s in shown
        ensures s.category != category
      {
        var i :| 0 <= i < |shown| && shown[i] == s;
        assert Shown(active, s);
      }
    }
  }

  /** There is no "database" button, so database skills are shown only under "all". */
  lemma DatabaseOnlyUnderAll(active: string)
    requires active in Categories
    ensures (exists s :: s in FilteredSkills(active) && s.category == "database") <==> active == All
  {
    assert Skills[18].category == "database";
    ButtonlessCategoryOnlyUnderAll(active, "database");
  }

  /** Every level is a percentage. */
  lemma LevelsArePercentages()
    ensures forall i :: 0 <= i < |Skills| ==> Skills[i].level <= 100
  {
  }

  /** The bar width and the label (SkillsSection.jsx:100, 107): the level in
      decimal followed by "%", from which the level reads back. */
  function LevelText(skill: Skill): (r: string)
    ensures |r| >= 2 && r[|r| - 1] == '%'
    ensures ParseNat(r[..|r| - 1]) == Some(skill.level)
  {
    var digits := NatToText(skill.level);
    ParseNatToText(skill.level);
    assert (digits + "%")[..|digits|] == digits;
    digits + "%"
  }

  /** The panel's one piece of state: the category clicked last. */
  class SkillsSection {
    var activeCategory: string

    constructor ()
      ensures activeCategory == All
    {
      activeCategory := All;
    }

    /** A click on a category button. */
    method Select(category: string)
      modifies this
      ensures activeCategory == category
    {
      activeCategory := category;
    }

    /** The skill cards on show. */
    function Visible(): seq<Skill>
      reads this
    {
      FilteredSkills(activeCategory)
    }

    /** The button drawn as selected. */
    predicate Highlighted(category: string)
      reads this
    {
      activeCategory == category
    }
  }

  /** Opening the panel shows the whole table with "all" highlighted; picking
      a category shows its skills and nothing else. */
  method Browse(category: string) returns (initial: seq<Skill>, highlighted: bool, picked: seq<Skill>)
    requires category != All
    ensures initial == Skills && highlighted
    ensures forall s :: s in picked <==> s in Skills && s.category == category
  {
    var panel := new SkillsSection();
    highlighted := panel.Highlighted(All);
    AllShowsEverything();
    initial := panel.Visible();
    panel.Select(category);
    picked := panel.Visible();
    CategoryShowsExactlyItsSkills(category);
  }
}
