/** The prompt-shrinking loop (native_world_model.py, compact_planner_prompt) over an abstract context. */
module Compaction {
  import opened Common

  datatype Row = Row(
    record: bool,
    id: Option<string>,
    description: Option<string>,
    competence: Option<string>,
    rest: string)

  datatype Section = Absent | Rows(rows: seq<Row>) | Record(size: nat) | Scalar

  datatype Key =
    | MiningHistory | WikiEvidence | RecentSkillRuns | ChatLines | OperatorMessages | CurrentPlan | Goals | Skills

  const ORDER := [MiningHistory, WikiEvidence, RecentSkillRuns, ChatLines, OperatorMessages, CurrentPlan, Goals, Skills]

  datatype Fact = Fact(name: string, value: string)

  const PROTECTED_FACTS := {
    "danger.immediate", "danger.drowning", "danger.burning", "scene.death", "scene.playable",
    "player.critical_health", "environment.underwater", "social.player_message", "operator.game_chat_authorized"
  }

  const REPAIR_LIMIT := 120

  // `literal` is everything the loop has no branch for: the directive's own text, action constraints,
  // fallback values and the rest of the authority.
  datatype Context = Context(
    sections: map<Key, Section>,
    allowed: seq<Row>,  // the skills the authority allows, if it lists any
    facts: seq<Fact>,
    repair: string,
    literal: string)

  // Computed once, before the loop.
  datatype Policy = Policy(needsAnswer: bool, required: set<string>, mandatory: set<string>)

  function At(c: Context, key: Key): Section { if key in c.sections then c.sections[key] else Absent }

  // --- One round of the loop -----------------------------------------------------------------------

  function MinimumRows(p: Policy, key: Key): nat {
    if key.Skills? || (key.WikiEvidence? && p.needsAnswer) then 1 else 0
  }

  predicate Named(row: Row, ids: set<string>) { row.record && row.id.Some? && row.id.value in ids }

  /** A row that must stay. */
  predicate KeptRow(p: Policy, key: Key, row: Row) {
    (key.Skills? && Named(row, p.required)) || (key.Goals? && Named(row, p.mandatory))
  }

  predicate KeptAllowed(p: Policy, row: Row) { !row.record || Named(row, p.required) }

  predicate KeptFact(f: Fact) { f.name in PROTECTED_FACTS }

  predicate Plain(row: Row) { !row.record || (row.description.None? && row.competence.None?) }

  function RowKept(p: Policy, key: Key): Row -> bool { row => KeptRow(p, key, row) }

  function AllowedKept(p: Policy): Row -> bool { row => KeptAllowed(p, row) }

  function FactKept(): Fact -> bool { f => KeptFact(f) }

  function IsPlain(): Row -> bool { row => Plain(row) }

  /** The last index whose element `stays` does not hold. */
  function LastOther<T>(s: seq<T>, stays: T -> bool): (i: Option<nat>)
    ensures i.Some? ==> i.value < |s| && !stays(s[i.value])
    ensures i.None? <==> forall x :: x in s ==> stays(x)
  {
    if s == [] then None
    else if !stays(s[|s| - 1]) then Some(|s| - 1)
    else
      assert s == s[..|s| - 1] + [s[|s| - 1]];
      LastOther(s[..|s| - 1], stays)
  }

  function Without<T>(s: seq<T>, i: nat): seq<T>
    requires i < |s|
  {
    s[..i] + s[i + 1..]
  }

  function DropRow(p: Policy, key: Key, section: Section): Option<Section> {
    match section
    case Rows(rows) =>
      var i := LastOther(rows, RowKept(p, key));
      if |rows| > MinimumRows(p, key) && i.Some? then Some(Rows(Without(rows, i.value))) else None
    case Record(size) => if size > 0 && (key.CurrentPlan? || key.MiningHistory?) then Some(Absent) else None
    case _ => None
  }

  function DropSection(p: Policy, c: Context, keys: seq<Key>): Option<Context> {
    if keys == [] then None
    else
      var dropped := DropRow(p, keys[0], At(c, keys[0]));
      if dropped.Some? then Some(c.(sections := c.sections[keys[0] := dropped.value])) else DropSection(p, c, keys[1..])
  }

  function DropAllowed(p: Policy, c: Context): Option<Context> {
    var i := LastOther(c.allowed, AllowedKept(p));
    if |c.allowed| > 1 && i.Some? then Some(c.(allowed := Without(c.allowed, i.value))) else None
  }

  function Plainer(row: Row): Row {
    if row.competence.Some? then row.(competence := None) else row.(description := None)
  }

  function DropDescription(c: Context): Option<Context> {
    match At(c, Skills)
    case Rows(rows) =>
      var i := LastOther(rows, IsPlain());
      if i.None? then None
      else Some(c.(sections := c.sections[Skills := Rows(rows[i.value := Plainer(rows[i.value])])]))
    case _ => None
  }

  function DropFact(c: Context): Option<Context> {
    var i := LastOther(c.facts, FactKept());
    if i.None? then None else Some(c.(facts := Without(c.facts, i.value)))
  }

  function DropRepair(c: Context): Option<Context> {
    if |c.repair| > REPAIR_LIMIT then Some(c.(repair := c.repair[..REPAIR_LIMIT])) else None
  }

  /** The next smaller context: the first thing that may go, in the order of the source. */
  function Shrink(p: Policy, c: Context): Option<Context> {
    var section := DropSection(p, c, ORDER);
    var allowed := DropAllowed(p, c);
    var description := DropDescription(c);
    var fact := DropFact(c);
    if section.Some? then section
    else if allowed.Some? then allowed
    else if description.Some? then description
    else if fact.Some? then fact
    else DropRepair(c)
  }

  // --- Nothing left to drop --------------------------------------------------------------------------

  predicate Settled(p: Policy, key: Key, section: Section) {
    && (section.Rows? ==>
          |section.rows| <= MinimumRows(p, key) || forall row :: row in section.rows ==> KeptRow(p, key, row))
    && (section.Record? && (key.CurrentPlan? || key.MiningHistory?) ==> section.size == 0)
  }

  predicate Irreducible(p: Policy, c: Context) {
    && (forall key :: key in ORDER ==> Settled(p, key, At(c, key)))
    && (|c.allowed| <= 1 || forall row :: row in c.allowed ==> KeptAllowed(p, row))
    && (At(c, Skills).Rows? ==> forall row :: row in At(c, Skills).rows ==> Plain(row))
    && (forall f :: f in c.facts ==> KeptFact(f))
    && |c.repair| <= REPAIR_LIMIT
  }

  lemma {:induction false} DropSectionNone(p: Policy, c: Context, keys: seq<Key>)
    ensures DropSection(p, c, keys).None? <==> forall key :: key in keys ==> Settled(p, key, At(c, key))
  {
    if keys != [] {
      DropSectionNone(p, c, keys[1..]);
      assert keys == [keys[0]] + keys[1..];
    }
  }

  /** A round finds nothing to drop exactly when nothing droppable is left. */
  lemma ShrinkStopsWhenIrreducible(p: Policy, c: Context)
    ensures Shrink(p, c).None? <==> Irreducible(p, c)
  {
    DropSectionNone(p, c, ORDER);
  }

  /** The earlier parts go first: a row of one section is dropped only when every section before it has
      nothing left to drop, and anything else only when all sections have. */
  lemma EarlierPartsGoFirst(p: Policy, c: Context, j: nat)
    requires Shrink(p, c).Some? && j <= |ORDER|
    requires if j < |ORDER| then |RowsOf(Shrink(p, c).value, ORDER[j])| < |RowsOf(c, ORDER[j])|
             else Shrink(p, c).value.sections == c.sections
    ensures forall i :: 0 <= i < j ==> Settled(p, ORDER[i], At(c, ORDER[i]))
  {
    hide DropRow, DropAllowed, DropFact, DropRepair, Settled;
    DropSectionNone(p, c, ORDER);
    if DropSection(p, c, ORDER).Some? {
      DropSectionFirst(p, c, ORDER, j);
    } else {
      assert forall i :: 0 <= i < j ==> ORDER[i] in ORDER;
    }
  }

  lemma {:induction false} DropSectionFirst(p: Policy, c: Context, keys: seq<Key>, j: nat)
    requires DropSection(p, c, keys).Some? && j <= |keys| && Distinct(keys)
    requires if j < |keys| then |RowsOf(DropSection(p, c, keys).value, keys[j])| < |RowsOf(c, keys[j])|
             else DropSection(p, c, keys).value.sections == c.sections
    ensures forall i :: 0 <= i < j ==> Settled(p, keys[i], At(c, keys[i]))
  {
    if DropRow(p, keys[0], At(c, keys[0])).None? {
      if 0 < j {
        DropSectionFirst(p, c, keys[1..], j - 1);
        forall i | 0 <= i < j
          ensures Settled(p, keys[i], At(c, keys[i]))
        {
          assert 0 < i ==> keys[i] == keys[1..][i - 1];
        }
      }
    } else {
      DropRowChanges(p, c, keys[0]);
    }
  }

  lemma DropRowChanges(p: Policy, c: Context, key: Key)
    requires DropRow(p, key, At(c, key)).Some?
    ensures c.sections[key := DropRow(p, key, At(c, key)).value] != c.sections
    ensures forall other :: other != key ==>
              RowsOf(c.(sections := c.sections[key := DropRow(p, key, At(c, key)).value]), other) == RowsOf(c, other)
  {
    var d := DropRow(p, key, At(c, key)).value;
    assert d != At(c, key) by {
      if At(c, key).Rows? {
        assert |d.rows| == |At(c, key).rows| - 1;
      }
    }
    assert key in c.sections && c.sections[key := d][key] == d;
  }

  // --- What every round keeps ------------------------------------------------------------------------

  function Filter<T>(s: seq<T>, keep: T -> bool): seq<T> {
    if s == [] then [] else Filter(s[..|s| - 1], keep) + if keep(s[|s| - 1]) then [s[|s| - 1]] else []
  }

  lemma {:induction false} FilterAppends<T>(a: seq<T>, b: seq<T>, keep: T -> bool)
    ensures Filter(a + b, keep) == Filter(a, keep) + Filter(b, keep)
    decreases |b|
  {
    if b == [] {
      assert a + b == a;
    } else {
      FilterAppends(a, b[..|b| - 1], keep);
      assert (a + b)[..|a + b| - 1] == a + b[..|b| - 1];
    }
  }

  lemma FilterOne<T>(x: T, keep: T -> bool)
    ensures Filter([x], keep) == if keep(x) then [x] else []
  {
    assert [x][..0] == [];
  }

  lemma FilterWithout<T>(s: seq<T>, i: nat, keep: T -> bool)
    requires i < |s| && !keep(s[i])
    ensures Filter(Without(s, i), keep) == Filter(s, keep)
  {
    hide Filter;
    var a, b := s[..i], s[i + 1..];
    FilterAppends(a, b, keep);
    FilterAppends(a + [s[i]], b, keep);
    FilterAppends(a, [s[i]], keep);
    FilterOne(s[i], keep);
    assert s == a + [s[i]] + b;
    assert Filter(a, keep) + [] == Filter(a, keep);
  }

  /** A row without its optional fields. */
  function Core(row: Row): Row { row.(description := None, competence := None) }

  function Cores(rows: seq<Row>): seq<Row> { seq(|rows|, i requires 0 <= i < |rows| => Core(rows[i])) }

  function RowsOf(c: Context, key: Key): seq<Row> { if At(c, key).Rows? then At(c, key).rows else [] }

  /** The parts of a section the loop may not lose, with optional fields blanked. */
  function KeptOf(p: Policy, c: Context, key: Key): seq<Row> {
    Filter(Cores(RowsOf(c, key)), RowKept(p, key))
  }

  /** What survives from `before` in `after`: every requested skill and mandatory goal, the allowed
      entries of requested skills, the protected facts, the literal parts, a row where one is required,
      and at least the start of the repair context. */
  ghost predicate Keeps(p: Policy, before: Context, after: Context) {
    && after.literal == before.literal
    && (forall key :: KeptOf(p, after, key) == KeptOf(p, before, key))
    && (forall key :: |RowsOf(after, key)| >= Min(|RowsOf(before, key)|, MinimumRows(p, key)))
    && Filter(after.allowed, AllowedKept(p)) == Filter(before.allowed, AllowedKept(p))
    && |after.allowed| >= Min(|before.allowed|, 1)
    && Filter(after.facts, FactKept()) == Filter(before.facts, FactKept())
    && (after.repair == before.repair
        || (|before.repair| > REPAIR_LIMIT && after.repair == before.repair[..REPAIR_LIMIT]))
  }

  lemma KeepsTransitive(p: Policy, a: Context, b: Context, c: Context)
    requires Keeps(p, a, b) && Keeps(p, b, c)
    ensures Keeps(p, a, c)
  {
    hide KeptOf, RowsOf, Filter;
  }

  /** Changing one section keeps everything if it keeps that section's part. */
  lemma OneSectionKeeps(p: Policy, c: Context, key: Key, section: Section)
    requires var after := c.(sections := c.sections[key := section]);
             && KeptOf(p, after, key) == KeptOf(p, c, key)
             && |RowsOf(after, key)| >= Min(|RowsOf(c, key)|, MinimumRows(p, key))
    ensures Keeps(p, c, c.(sections := c.sections[key := section]))
  {
    hide Filter, KeptRow;
    var after := c.(sections := c.sections[key := section]);
    forall other | other != key
      ensures RowsOf(after, other) == RowsOf(c, other)
    {
    }
  }

  lemma DropRowKeeps(p: Policy, c: Context, key: Key)
    requires DropRow(p, key, At(c, key)).Some?
    ensures Keeps(p, c, c.(sections := c.sections[key := DropRow(p, key, At(c, key)).value]))
  {
    hide Filter, Keeps;
    if At(c, key).Rows? {
      var rows := At(c, key).rows;
      var i := LastOther(rows, RowKept(p, key)).value;
      assert Cores(Without(rows, i)) == Without(Cores(rows), i);
      FilterWithout(Cores(rows), i, RowKept(p, key));
    }
    OneSectionKeeps(p, c, key, DropRow(p, key, At(c, key)).value);
  }

  lemma {:induction false} DropSectionKeeps(p: Policy, c: Context, keys: seq<Key>)
    requires DropSection(p, c, keys).Some?
    ensures Keeps(p, c, DropSection(p, c, keys).value)
  {
    hide Keeps, DropRow;
    if DropRow(p, keys[0], At(c, keys[0])).Some? {
      DropRowKeeps(p, c, keys[0]);
    } else {
      DropSectionKeeps(p, c, keys[1..]);
    }
  }

  lemma DropDescriptionKeeps(p: Policy, c: Context)
    requires DropDescription(c).Some?
    ensures Keeps(p, c, DropDescription(c).value)
  {
    hide Filter, Keeps;
    var rows := At(c, Skills).rows;
    var i := LastOther(rows, IsPlain()).value;
    var plainer := rows[i := Plainer(rows[i])];
    assert Cores(plainer) == Cores(rows);
    OneSectionKeeps(p, c, Skills, Rows(plainer));
  }

  lemma OthersKeep(p: Policy, c: Context)
    ensures DropAllowed(p, c).Some? ==> Keeps(p, c, DropAllowed(p, c).value)
    ensures DropFact(c).Some? ==> Keeps(p, c, DropFact(c).value)
    ensures DropRepair(c).Some? ==> Keeps(p, c, DropRepair(c).value)
  {
    hide Filter, KeptOf, RowsOf;
    if DropAllowed(p, c).Some? {
      FilterWithout(c.allowed, LastOther(c.allowed, AllowedKept(p)).value, AllowedKept(p));
    }
    if DropFact(c).Some? {
      FilterWithout(c.facts, LastOther(c.facts, FactKept()).value, FactKept());
    }
    SectionsSame(p, c);
  }

  /** What is read off the sections alone depends on nothing else. */
  lemma SectionsSame(p: Policy, c: Context)
    ensures forall d: Context, key :: d.sections == c.sections ==>
              KeptOf(p, d, key) == KeptOf(p, c, key) && RowsOf(d, key) == RowsOf(c, key)
  {
  }

  lemma ShrinkKeeps(p: Policy, c: Context)
    requires Shrink(p, c).Some?
    ensures Keeps(p, c, Shrink(p, c).value)
  {
    hide Keeps, DropSection, DropAllowed, DropDescription, DropFact, DropRepair;
    if DropSection(p, c, ORDER).Some? {
      DropSectionKeeps(p, c, ORDER);
    }
    if DropDescription(c).Some? {
      DropDescriptionKeeps(p, c);
    }
    OthersKeep(p, c);
  }

  lemma {:induction false} FilterMember<T>(s: seq<T>, keep: T -> bool, x: T)
    ensures x in Filter(s, keep) <==> x in s && keep(x)
  {
    if s != [] {
      FilterMember(s[..|s| - 1], keep, x);
      assert s == s[..|s| - 1] + [s[|s| - 1]];
    }
  }

  /** What survival means for one row: a requested skill or a mandatory goal is still there afterwards,
      up to its description and competence. */
  lemma KeptRowSurvives(p: Policy, before: Context, after: Context, key: Key, row: Row)
    requires Keeps(p, before, after) && row in RowsOf(before, key) && KeptRow(p, key, row)
    ensures exists other :: other in RowsOf(after, key) && Core(other) == Core(row)
  {
    hide Filter;
    var i :| 0 <= i < |RowsOf(before, key)| && RowsOf(before, key)[i] == row;
    assert Cores(RowsOf(before, key))[i] == Core(row);
    FilterMember(Cores(RowsOf(before, key)), RowKept(p, key), Core(row));
    FilterMember(Cores(RowsOf(after, key)), RowKept(p, key), Core(row));
    assert KeptOf(p, after, key) == KeptOf(p, before, key);
    var k :| 0 <= k < |Cores(RowsOf(after, key))| && Cores(RowsOf(after, key))[k] == Core(row);
    assert RowsOf(after, key)[k] in RowsOf(after, key);
  }

  // --- The measure -------------------------------------------------------------------------------------

  function RowSize(row: Row): nat {
    1 + (if row.description.Some? then 1 else 0) + (if row.competence.Some? then 1 else 0)
  }

  function RowsSize(rows: seq<Row>): nat {
    if rows == [] then 0 else RowsSize(rows[..|rows| - 1]) + RowSize(rows[|rows| - 1])
  }

  function SectionSize(section: Section): nat {
    match section
    case Rows(rows) => RowsSize(rows)
    case Record(size) => if size > 0 then 1 else 0
    case _ => 0
  }

  function SectionsSize(c: Context, keys: seq<Key>): nat {
    if keys == [] then 0 else SectionSize(At(c, keys[0])) + SectionsSize(c, keys[1..])
  }

  function Size(c: Context): nat {
    SectionsSize(c, ORDER) + |c.allowed| + |c.facts| + if |c.repair| > REPAIR_LIMIT then 1 else 0
  }

  lemma {:induction false} RowsSizeAppends(a: seq<Row>, b: seq<Row>)
    ensures RowsSize(a + b) == RowsSize(a) + RowsSize(b)
    decreases |b|
  {
    if b == [] {
      assert a + b == a;
    } else {
      RowsSizeAppends(a, b[..|b| - 1]);
      assert (a + b)[..|a + b| - 1] == a + b[..|b| - 1];
    }
  }

  lemma RowsSizeOne(row: Row)
    ensures RowsSize([row]) == RowSize(row)
  {
    assert [row][..0] == [];
  }

  lemma RowsSizeOf(rows: seq<Row>, i: nat)
    requires i < |rows|
    ensures RowsSize(rows) == RowsSize(Without(rows, i)) + RowSize(rows[i])
  {
    hide RowsSize, RowSize;
    var a, b := rows[..i], rows[i + 1..];
    RowsSizeAppends(a, b);
    RowsSizeAppends(a + [rows[i]], b);
    RowsSizeAppends(a, [rows[i]]);
    RowsSizeOne(rows[i]);
    assert rows == a + [rows[i]] + b;
  }

  lemma {:induction false} OneSectionSize(c: Context, key: Key, section: Section, keys: seq<Key>)
    requires Distinct(keys)
    ensures SectionsSize(c.(sections := c.sections[key := section]), keys)
            == SectionsSize(c, keys) + if key in keys then SectionSize(section) - SectionSize(At(c, key)) else 0
  {
    if keys != [] {
      hide SectionSize;
      OneSectionSize(c, key, section, keys[1..]);
      assert keys == [keys[0]] + keys[1..];
    }
  }

  lemma DropRowDecreases(p: Policy, c: Context, key: Key)
    requires DropRow(p, key, At(c, key)).Some? && key in ORDER
    ensures Size(c.(sections := c.sections[key := DropRow(p, key, At(c, key)).value])) < Size(c)
  {
    hide SectionsSize, RowsSize;
    OneSectionSize(c, key, DropRow(p, key, At(c, key)).value, ORDER);
    if At(c, key).Rows? {
      RowsSizeOf(At(c, key).rows, LastOther(At(c, key).rows, RowKept(p, key)).value);
    }
  }

  lemma {:induction false} DropSectionDecreases(p: Policy, c: Context, keys: seq<Key>)
    requires DropSection(p, c, keys).Some? && forall key :: key in keys ==> key in ORDER
    ensures Size(DropSection(p, c, keys).value) < Size(c)
  {
    hide Size, DropRow;
    assert keys[0] in keys;
    if DropRow(p, keys[0], At(c, keys[0])).Some? {
      DropRowDecreases(p, c, keys[0]);
    } else {
      DropSectionDecreases(p, c, keys[1..]);
    }
  }

  lemma DropDescriptionDecreases(c: Context)
    requires DropDescription(c).Some?
    ensures Size(DropDescription(c).value) < Size(c)
  {
    hide SectionsSize, RowsSize, LastOther;
    var rows := At(c, Skills).rows;
    var i := LastOther(rows, IsPlain()).value;
    var plainer := rows[i := Plainer(rows[i])];
    RowsSizeOf(rows, i);
    RowsSizeOf(plainer, i);
    assert Without(plainer, i) == Without(rows, i);
    OneSectionSize(c, Skills, Rows(plainer), ORDER);
  }

  lemma {:induction false} SectionsSizeSame(c: Context, d: Context, keys: seq<Key>)
    requires d.sections == c.sections
    ensures SectionsSize(d, keys) == SectionsSize(c, keys)
  {
    if keys != [] {
      SectionsSizeSame(c, d, keys[1..]);
    }
  }

  /** Every round makes the context strictly smaller, so the loop ends and never repeats itself. */
  lemma ShrinkDecreases(p: Policy, c: Context)
    requires Shrink(p, c).Some?
    ensures Size(Shrink(p, c).value) < Size(c)
  {
    hide DropSection, DropDescription, SectionsSize;
    if DropSection(p, c, ORDER).Some? {
      DropSectionDecreases(p, c, ORDER);
    } else if DropAllowed(p, c).None? && DropDescription(c).Some? {
      DropDescriptionDecreases(c);
    } else {
      SectionsSizeSame(c, Shrink(p, c).value, ORDER);
    }
  }

  // --- The loop --------------------------------------------------------------------------------------------

  /** Both bounds: the bytes of the encoded prompt, and what the tokenizer said when it was asked for the
      `n`th time. */
  predicate Fits(bytes: Context -> nat, maxBytes: nat, tokens: (nat, Context) -> bool, n: nat, c: Context) {
    bytes(c) <= maxBytes && tokens(n, c)
  }

  method Round(p: Policy, context: Context) returns (smaller: Option<Context>)
    ensures smaller == Shrink(p, context)
  {
    hide DropRow, DropAllowed, DropDescription, DropFact;
    for k := 0 to |ORDER|
      invariant DropSection(p, context, ORDER) == DropSection(p, context, ORDER[k..])
    {
      var key := ORDER[k];
      assert ORDER[k..][0] == key && ORDER[k..][1..] == ORDER[k + 1..];
      var dropped := DropRow(p, key, At(context, key));
      if dropped.Some? {
        return Some(context.(sections := context.sections[key := dropped.value]));
      }
    }
    smaller := DropAllowed(p, context);
    if smaller.Some? {
      return;
    }
    smaller := DropDescription(context);
    if smaller.Some? {
      return;
    }
    smaller := DropFact(context);
    if smaller.Some? {
      return;
    }
    if |context.repair| > REPAIR_LIMIT {
      return Some(context.(repair := context.repair[..REPAIR_LIMIT]));
    }
    return None;
  }

  /** Offer the context, and a smaller one after each refusal, until one fits or nothing may go.
      `offered` lists what was tried: each once, each with everything mandatory in it. */
  method CompactPlannerPrompt(
    p: Policy, initial: Context, bytes: Context -> nat, maxBytes: nat, tokens: (nat, Context) -> bool)
    returns (result: Option<Context>, ghost offered: seq<Context>)
    ensures result.Some? ==> bytes(result.value) <= maxBytes && Keeps(p, initial, result.value)
    ensures result.Some? ==> Size(result.value) <= Size(initial)
    ensures result.None? ==> !Fits(bytes, maxBytes, tokens, 0, initial)
    ensures offered != [] && offered[0] == initial
    ensures forall i :: 0 <= i < |offered| ==> Keeps(p, initial, offered[i])
    ensures forall i, j :: 0 <= i < j < |offered| ==> offered[i] != offered[j]
    ensures forall i: nat :: i < |offered| - 1 ==>
              !Fits(bytes, maxBytes, tokens, i, offered[i]) && Shrink(p, offered[i]) == Some(offered[i + 1])
    ensures var last := offered[|offered| - 1];
            if result.Some? then result.value == last && Fits(bytes, maxBytes, tokens, |offered| - 1, last)
            else Irreducible(p, last) && !Fits(bytes, maxBytes, tokens, |offered| - 1, last)
  {
    hide Keeps, Shrink, Size, Irreducible;
    KeepsItself(p, initial);
    var context, attempt := initial, 0;
    offered := [initial];
    while true
      invariant |offered| == attempt + 1 && offered[0] == initial && offered[attempt] == context
      invariant forall i :: 0 <= i < |offered| ==> Keeps(p, initial, offered[i]) && Size(context) <= Size(offered[i])
      invariant forall i, j :: 0 <= i < j < |offered| ==> Size(offered[j]) < Size(offered[i])
      invariant forall i: nat :: i < attempt ==>
                  !Fits(bytes, maxBytes, tokens, i, offered[i]) && Shrink(p, offered[i]) == Some(offered[i + 1])
      decreases Size(context)
    {
      if bytes(context) <= maxBytes && tokens(attempt, context) {
        return Some(context), offered;
      }
      var smaller := Round(p, context);
      ShrinkStopsWhenIrreducible(p, context);
      if smaller.None? {
        return None, offered;
      }
      ShrinkKeeps(p, context);
      ShrinkDecreases(p, context);
      KeepsTransitive(p, initial, context, smaller.value);
      context := smaller.value;
      attempt := attempt + 1;
      offered := offered + [context];
    }
  }

  lemma KeepsItself(p: Policy, c: Context)
    ensures Keeps(p, c, c)
  {
  }
}
