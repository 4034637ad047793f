/** What each round of the prompt-shrinking loop drops: exactly one thing, the last that may go of the first part
    that has one. */
module CompactionLaws {
  import opened Common
  import opened Compaction

  const SECTIONS := [
    MiningHistory, WikiEvidence, RecentSkillRuns, ChatLines, OperatorMessages, CurrentPlan, Goals, Skills
  ]

  /** A row of a section that a round may drop: anything but a requested skill and a mandatory goal. */
  predicate MayGo(p: Policy, key: Key, row: Row) {
    && !(key == Skills && row.record && row.id.Some? && row.id.value in p.required)
    && !(key == Goals && row.record && row.id.Some? && row.id.value in p.mandatory)
  }

  /** How many rows a section keeps in any case: one skill, and one piece of evidence for a question to be answered. */
  function AtLeast(p: Policy, key: Key): nat {
    if key == Skills then 1 else if key == WikiEvidence && p.needsAnswer then 1 else 0
  }

  /** A section has nothing left to lose. */
  predicate Spent(p: Policy, key: Key, section: Section) {
    match section
    case Rows(rows) => |rows| <= AtLeast(p, key) || forall row :: row in rows ==> !MayGo(p, key, row)
    case Record(size) => (key != CurrentPlan && key != MiningHistory) || size == 0
    case Absent => true
    case Scalar => true
  }

  /** `i` is the last index at which an element may go. */
  predicate LastOf<T>(s: seq<T>, goes: T -> bool, i: nat) {
    i < |s| && goes(s[i]) && forall k :: i < k < |s| ==> !goes(s[k])
  }

  lemma {:induction false} LastOtherIsLast<T>(s: seq<T>, stays: T -> bool)
    ensures var i := LastOther(s, stays); i.Some? ==> LastOf(s, x => !stays(x), i.value)
    ensures forall k: nat :: LastOf(s, x => !stays(x), k) ==> LastOther(s, stays) == Some(k)
  {
    if s != [] {
      LastOtherIsLast(s[..|s| - 1], stays);
      assert s == s[..|s| - 1] + [s[|s| - 1]];
      forall k: nat | LastOf(s, x => !stays(x), k)
        ensures LastOther(s, stays) == Some(k)
      {
        assert k < |s| - 1 ==> LastOf(s[..|s| - 1], x => !stays(x), k);
      }
    }
  }

  /** A section with something to lose loses the last row that may go, or itself if it is a record. */
  lemma RowGoes(p: Policy, key: Key, section: Section) returns (i: nat)
    ensures DropRow(p, key, section).None? <==> Spent(p, key, section)
    ensures !Spent(p, key, section) && section.Record? ==> DropRow(p, key, section) == Some(Absent)
    ensures !Spent(p, key, section) && section.Rows? ==>
              && LastOf(section.rows, row => MayGo(p, key, row), i)
              && DropRow(p, key, section) == Some(Rows(section.rows[..i] + section.rows[i + 1..]))
  {
    hide LastOther, MayGo, KeptRow, AtLeast, MinimumRows, RowKept;
    i := 0;
    SameKept(p, key);
    if section.Rows? {
      LastOtherIsLast(section.rows, RowKept(p, key));
      if !Spent(p, key, section) {
        i := LastOther(section.rows, RowKept(p, key)).value;
      }
    }
  }

  lemma SameKept(p: Policy, key: Key)
    ensures MinimumRows(p, key) == AtLeast(p, key) && forall row :: MayGo(p, key, row) <==> !RowKept(p, key)(row)
  {
  }

  lemma {:induction false} FirstSectionGoes(p: Policy, c: Context, keys: seq<Key>, j: nat)
    requires j < |keys| && !Spent(p, keys[j], At(c, keys[j]))
    requires forall i :: 0 <= i < j ==> Spent(p, keys[i], At(c, keys[i]))
    ensures DropRow(p, keys[j], At(c, keys[j])).Some?
    ensures DropSection(p, c, keys)
            == Some(c.(sections := c.sections[keys[j] := DropRow(p, keys[j], At(c, keys[j])).value]))
    decreases j
  {
    hide DropRow, Spent;
    var _ := RowGoes(p, keys[j], At(c, keys[j]));
    if j > 0 {
      var _ := RowGoes(p, keys[0], At(c, keys[0]));
      FirstSectionGoes(p, c, keys[1..], j - 1);
    }
  }

  lemma {:induction false} NoSectionGoes(p: Policy, c: Context, keys: seq<Key>)
    requires forall i :: 0 <= i < |keys| ==> Spent(p, keys[i], At(c, keys[i]))
    ensures DropSection(p, c, keys).None?
  {
    hide DropRow, Spent;
    if keys != [] {
      var _ := RowGoes(p, keys[0], At(c, keys[0]));
      NoSectionGoes(p, c, keys[1..]);
    }
  }

  /** The first section, in the order of the source, that has something to lose loses it, and nothing else changes. */
  lemma SectionGoes(p: Policy, c: Context, j: nat) returns (i: nat)
    requires j < 8 && !Spent(p, SECTIONS[j], At(c, SECTIONS[j]))
    requires forall i :: 0 <= i < j ==> Spent(p, SECTIONS[i], At(c, SECTIONS[i]))
    ensures var key := SECTIONS[j];
            var section := At(c, key);
            match section
            case Rows(rows) =>
              && LastOf(rows, row => MayGo(p, key, row), i)
              && Shrink(p, c) == Some(c.(sections := c.sections[key := Rows(rows[..i] + rows[i + 1..])]))
            case _ => Shrink(p, c) == Some(c.(sections := c.sections[key := Absent]))
  {
    hide DropRow, DropSection, DropAllowed, DropDescription, DropFact, DropRepair, Spent, LastOf;
    var key := SECTIONS[j];
    assert ORDER == SECTIONS;
    FirstSectionGoes(p, c, ORDER, j);
    i := RowGoes(p, key, At(c, key));
    NotSpent(p, key, At(c, key));
  }

  lemma NotSpent(p: Policy, key: Key, section: Section)
    ensures !Spent(p, key, section) ==> section.Rows? || section.Record?
  {
  }

  // --- After the sections ---------------------------------------------------------------------------------------

  /** An allowed entry goes if it is a record of a skill that was not asked for. */
  predicate EntryGoes(p: Policy, row: Row) { row.record && (row.id.None? || row.id.value !in p.required) }

  /** A skill can still lose its description or its competence. */
  predicate Told(row: Row) { row.record && (row.description.Some? || row.competence.Some?) }

  /** Facts about danger, death, playability and what players and operators said stay. */
  predicate FactGoes(f: Fact) {
    f.name !in {
      "danger.immediate", "danger.drowning", "danger.burning", "scene.death", "scene.playable",
      "player.critical_health", "environment.underwater", "social.player_message", "operator.game_chat_authorized"
    }
  }

  /** Once all sections are spent: the last allowed entry that may go, if there are two entries or more; then the
      competence, or else the description, of the last skill that has one; then the last fact that is not
      protected; then what is too long of the repair context; and then nothing. */
  lemma OthersGo(p: Policy, c: Context, i: nat)
    requires forall j :: 0 <= j < 8 ==> Spent(p, SECTIONS[j], At(c, SECTIONS[j]))
    ensures var rows := if At(c, Skills).Rows? then At(c, Skills).rows else [];
            var entries := |c.allowed| > 1 && exists row :: row in c.allowed && EntryGoes(p, row);
            var told := exists row :: row in rows && Told(row);
            var facts := exists f :: f in c.facts && FactGoes(f);
            if entries then
              LastOf(c.allowed, row => EntryGoes(p, row), i) ==>
                Shrink(p, c) == Some(c.(allowed := c.allowed[..i] + c.allowed[i + 1..]))
            else if told then
              LastOf(rows, row => Told(row), i) ==>
                var row := rows[i];
                var plainer := if row.competence.Some? then row.(competence := None) else row.(description := None);
                Shrink(p, c) == Some(c.(sections := c.sections[Skills := Rows(rows[..i] + [plainer] + rows[i + 1..])]))
            else if facts then
              LastOf(c.facts, f => FactGoes(f), i) ==>
                Shrink(p, c) == Some(c.(facts := c.facts[..i] + c.facts[i + 1..]))
            else
              Shrink(p, c) == if |c.repair| > 120 then Some(c.(repair := c.repair[..120])) else None
  {
    hide DropRow, DropSection, Spent, LastOther;
    assert ORDER == SECTIONS;
    NoSectionGoes(p, c, ORDER);
    EntriesGo(p, c, i);
    DescriptionsGo(c, i);
    FactsGo(c, i);
  }

  lemma EntriesGo(p: Policy, c: Context, i: nat)
    ensures DropAllowed(p, c).Some? <==> |c.allowed| > 1 && exists row :: row in c.allowed && EntryGoes(p, row)
    ensures |c.allowed| > 1 && LastOf(c.allowed, row => EntryGoes(p, row), i) ==>
              DropAllowed(p, c) == Some(c.(allowed := c.allowed[..i] + c.allowed[i + 1..]))
  {
    hide LastOther;
    LastOtherIsLast(c.allowed, AllowedKept(p));
    SameAllowed(p);
    if LastOf(c.allowed, row => EntryGoes(p, row), i) {
      assert LastOf(c.allowed, x => !AllowedKept(p)(x), i);
    }
  }

  lemma SameAllowed(p: Policy)
    ensures forall row :: EntryGoes(p, row) <==> !AllowedKept(p)(row)
  {
  }

  lemma DescriptionsGo(c: Context, i: nat)
    ensures var rows := if At(c, Skills).Rows? then At(c, Skills).rows else [];
            && (DropDescription(c).Some? <==> exists row :: row in rows && Told(row))
            && (LastOf(rows, row => Told(row), i) ==>
                  var row := rows[i];
                  var plainer := if row.competence.Some? then row.(competence := None) else row.(description := None);
                  DropDescription(c)
                  == Some(c.(sections := c.sections[Skills := Rows(rows[..i] + [plainer] + rows[i + 1..])])))
  {
    hide LastOther;
    var rows := if At(c, Skills).Rows? then At(c, Skills).rows else [];
    LastOtherIsLast(rows, IsPlain());
    assert forall row :: Told(row) <==> !IsPlain()(row);
    if LastOf(rows, row => Told(row), i) {
      assert LastOf(rows, x => !IsPlain()(x), i);
      assert rows[i := Plainer(rows[i])] == rows[..i] + [Plainer(rows[i])] + rows[i + 1..];
    }
  }

  lemma FactsGo(c: Context, i: nat)
    ensures DropFact(c).Some? <==> exists f :: f in c.facts && FactGoes(f)
    ensures LastOf(c.facts, f => FactGoes(f), i) ==> DropFact(c) == Some(c.(facts := c.facts[..i] + c.facts[i + 1..]))
  {
    hide LastOther;
    LastOtherIsLast(c.facts, FactKept());
    if LastOf(c.facts, f => FactGoes(f), i) {
      assert LastOf(c.facts, x => !FactKept()(x), i);
    }
  }
}
