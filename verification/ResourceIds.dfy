/**
 The resource ids of plugins: prefixing local ids, building the plan of one plugin, and the
 index over all registered plans.
 */
module ResourceIds {
  import opened Outcomes
  import opened PythonStrings
  import opened Sequences

  datatype Mapping = Mapping(pluginId: string, resourceType: string, localId: string, effectiveId: string)

  datatype Plan = Plan(pluginId: string, resourcePrefix: string, mappings: seq<Mapping>)

  // Resource ids as declared: a plain string is refused, a list is taken.
  datatype RawIds = One(text: string) | Many(ids: seq<string>)

  datatype Section = Section(kind: string, raw: RawIds)

  datatype Fault = Invalid | Conflict | NotFound

  type Key = (string, string)

  function Alias(kind: string): string {
    match kind
    case "agents" => "agent"
    case "prompts" => "prompt"
    case "workflows" => "workflow"
    case "skills" | "skill_bundles" => "skill"
    case "rules" | "rule_bundles" => "rule"
    case "script_libraries" => "script_library"
    case "preset_phrases" => "preset_phrase"
    case _ => kind
  }

  function Kind(raw: string): string {
    Alias(Strip(raw))
  }

  predicate ValidPrefix(raw: string) {
    Strip(raw) == "" || ValidName(raw)
  }

  // An id that already carries the prefix keeps its name.
  predicate Carries(prefix: string, id: string) {
    prefix == "" || id == prefix || prefix + "-" <= id
  }

  function Prefixed(prefix: string, id: string): string {
    if Carries(prefix, id) then id else prefix + "-" + id
  }

  function EffectiveId(rawPrefix: string, rawId: string): Outcome<string, Fault> {
    if !ValidPrefix(rawPrefix) || Strip(rawId) == "" then Error(Invalid)
    else Ok(Prefixed(Strip(rawPrefix), Strip(rawId)))
  }

  /* ----- prefixing ----- */

  lemma PrefixedIsTrimmed(prefix: string, id: string)
    requires prefix == "" || IsSlug(prefix)
    requires id != "" && Trimmed(id)
    ensures Prefixed(prefix, id) != "" && Trimmed(Prefixed(prefix, id)) && Strip(Prefixed(prefix, id)) == Prefixed(prefix, id)
  {
    if prefix != "" {
      SlugIsTrimmed(prefix);
    }
    var r := Prefixed(prefix, id);
    assert Carries(prefix, id) || (r[0] == prefix[0] && r[|r| - 1] == id[|id| - 1]);
    StripIsTrimmed(r);
  }

  // An id is left as it is when there is no prefix, or it is the prefix, or starts with it and
  // a dash; otherwise both are put in front.
  lemma PrefixedIff(prefix: string, id: string)
    ensures Prefixed(prefix, id) == id <==> prefix == "" || id == prefix || exists rest :: id == prefix + "-" + rest
    ensures Prefixed(prefix, id) != id ==> Prefixed(prefix, id) == prefix + "-" + id
  {
    var front := prefix + "-";
    if front <= id { assert id == prefix + "-" + id[|front|..]; }
    if rest :| id == prefix + "-" + rest { assert front <= id; }
    assert |front + id| > |id|;
  }

  // Prefixing twice is prefixing once.
  lemma PrefixingIsIdempotent(rawPrefix: string, rawId: string)
    requires EffectiveId(rawPrefix, rawId).Ok?
    ensures EffectiveId(rawPrefix, EffectiveId(rawPrefix, rawId).value) == EffectiveId(rawPrefix, rawId)
  {
    var prefix, id := Strip(rawPrefix), Strip(rawId);
    StripIsTrimmed(rawId);
    PrefixedIsTrimmed(prefix, id);
    if !Carries(prefix, id) {
      assert prefix + "-" <= prefix + "-" + id;
    }
  }

  // Two local ids meet in one effective id exactly when one is the other with the prefix
  // already written out.
  lemma PrefixingMeetsIff(prefix: string, a: string, b: string)
    ensures Prefixed(prefix, a) == Prefixed(prefix, b) <==>
              || a == b
              || (!Carries(prefix, a) && b == prefix + "-" + a)
              || (!Carries(prefix, b) && a == prefix + "-" + b)
  {
    var front := prefix + "-";
    assert (front + a)[|front|..] == a && (front + b)[|front|..] == b;
    assert front <= front + a && front <= front + b;
  }

  lemma PrefixingIsNotInjective()
    ensures EffectiveId("ops", "deploy") == EffectiveId("ops", "ops-deploy") == Ok("ops-deploy")
  {
    hide Strip;
    StripIsTrimmed("ops");
    StripIsTrimmed("deploy");
    StripIsTrimmed("ops-deploy");
    var front := "ops" + "-";
    assert front + "deploy" == "ops-deploy";
    assert front[0] == 'o' && "deploy"[0] == 'd';
    assert IsSlug("ops");
    assert !Carries("ops", "deploy") && Carries("ops", "ops-deploy");
  }

  /* ----- plans ----- */

  function KeyOf(m: Mapping): Key {
    (m.resourceType, m.effectiveId)
  }

  function LocalKey(m: Mapping): Key {
    (m.resourceType, m.localId)
  }

  ghost predicate DistinctKeys(ms: seq<Mapping>) {
    forall i, j | 0 <= i < j < |ms| :: KeyOf(ms[i]) != KeyOf(ms[j])
  }

  predicate MappingOK(owner: string, prefix: string, m: Mapping) {
    && m.pluginId == owner
    && m.resourceType != "" && Trimmed(m.resourceType) && Alias(m.resourceType) == m.resourceType
    && m.localId != "" && Trimmed(m.localId)
    && m.effectiveId == Prefixed(prefix, m.localId)
  }

  // What a built plan is: every mapping prefixes a trimmed id of a normal resource type, and
  // no two mappings share a type and an effective id.
  ghost predicate PlanOK(p: Plan) {
    && IsSlug(p.pluginId) && |p.pluginId| <= MAX_NAME
    && (p.resourcePrefix == "" || IsSlug(p.resourcePrefix))
    && (forall m | m in p.mappings :: MappingOK(p.pluginId, p.resourcePrefix, m))
    && DistinctKeys(p.mappings)
  }

  lemma LocalKeysAreDistinct(p: Plan, i: nat, j: nat)
    requires PlanOK(p) && i < j < |p.mappings|
    ensures LocalKey(p.mappings[i]) != LocalKey(p.mappings[j])
  {
    assert MappingOK(p.pluginId, p.resourcePrefix, p.mappings[i]);
    assert MappingOK(p.pluginId, p.resourcePrefix, p.mappings[j]);
  }

  // The names of a resource type: its own, its plural and the name of its bundles; all other
  // types have one name.
  const PLURALS := map["agents" := "agent", "prompts" := "prompt", "workflows" := "workflow", "skills" := "skill",
                       "skill_bundles" := "skill", "rules" := "rule", "rule_bundles" := "rule",
                       "script_libraries" := "script_library", "preset_phrases" := "preset_phrase"]

  lemma AliasIff(kind: string)
    ensures Alias(kind) == if kind in PLURALS then PLURALS[kind] else kind
  {}

  lemma AliasNames(kind: string)
    ensures Alias(kind) in {kind, "agent", "prompt", "workflow", "skill", "rule", "script_library", "preset_phrase"}
  {}

  lemma AliasedOnce(kind: string)
    requires kind in {"agent", "prompt", "workflow", "skill", "rule", "script_library", "preset_phrase"}
    ensures Alias(kind) == kind && kind != "" && Trimmed(kind)
  {
    assert Alias("agent") == "agent";
    assert Alias("prompt") == "prompt";
    assert Alias("workflow") == "workflow";
    assert Alias("skill") == "skill";
    assert Alias("rule") == "rule";
    assert Alias("script_library") == "script_library";
    assert Alias("preset_phrase") == "preset_phrase";
  }

  lemma AliasIsNormal(raw: string)
    requires Strip(raw) != ""
    ensures Kind(raw) != "" && Trimmed(Kind(raw)) && Alias(Kind(raw)) == Kind(raw)
  {
    hide Alias, Strip;
    StripIsTrimmed(raw);
    AliasNames(Strip(raw));
    if Kind(raw) != Strip(raw) {
      AliasedOnce(Kind(raw));
    }
  }

  function Row(owner: string, prefix: string, kind: string, rawId: string): Mapping {
    Mapping(owner, Kind(kind), Strip(rawId), Prefixed(prefix, Strip(rawId)))
  }

  function RowOf(owner: string, prefix: string, kind: string): string -> seq<Mapping> {
    id => [Row(owner, prefix, kind, id)]
  }

  // One row for each declared id, in the order of declaration.
  function Rows(owner: string, prefix: string, s: Section): seq<Mapping> {
    match s.raw
    case One(_) => []
    case Many(ids) => FlatMap(RowOf(owner, prefix, s.kind), ids)
  }

  function SectionRows(owner: string, prefix: string): Section -> seq<Mapping> {
    s => Rows(owner, prefix, s)
  }

  function AllRows(owner: string, prefix: string, sections: seq<Section>): seq<Mapping> {
    FlatMap(SectionRows(owner, prefix), sections)
  }

  // The kind and id of every declaration, in order.
  function Declarations(s: Section): seq<(string, string)> {
    match s.raw
    case One(_) => []
    case Many(ids) => seq(|ids|, i requires 0 <= i < |ids| => (s.kind, ids[i]))
  }

  function Declared(sections: seq<Section>): seq<(string, string)> {
    FlatMap(Declarations, sections)
  }

  // One mapping for each declaration: it says whose it is, its normal type, its trimmed id and
  // this id prefixed.
  ghost predicate MapsDeclared(p: Plan, pluginId: string, rawPrefix: string, sections: seq<Section>) {
    var ds := Declared(sections);
    && p.pluginId == Strip(pluginId) && p.resourcePrefix == Strip(rawPrefix) && |p.mappings| == |ds|
    && forall k | 0 <= k < |ds| ::
         && p.mappings[k].pluginId == Strip(pluginId) && p.mappings[k].resourceType == Kind(ds[k].0)
         && p.mappings[k].localId == Strip(ds[k].1) && Ok(p.mappings[k].effectiveId) == EffectiveId(rawPrefix, ds[k].1)
  }

  function RowOfDeclaration(owner: string, prefix: string): ((string, string)) -> seq<Mapping> {
    (d: (string, string)) => [Row(owner, prefix, d.0, d.1)]
  }

  lemma RowsAreDeclared(owner: string, prefix: string, sections: seq<Section>)
    ensures AllRows(owner, prefix, sections) == FlatMap(RowOfDeclaration(owner, prefix), Declared(sections))
  {
    hide Row;
    forall s: Section ensures Rows(owner, prefix, s) == FlatMap(RowOfDeclaration(owner, prefix), Declarations(s)) {
      if s.raw.Many? {
        FlatMapPointwise(RowOf(owner, prefix, s.kind), s.raw.ids, RowOfDeclaration(owner, prefix), Declarations(s));
      }
    }
    FlatMapCompose(RowOfDeclaration(owner, prefix), Declarations, SectionRows(owner, prefix), sections);
  }

  lemma PlanMapsDeclared(pluginId: string, rawPrefix: string, sections: seq<Section>)
    requires Buildable(pluginId, rawPrefix, sections)
    ensures MapsDeclared(PlanOf(pluginId, rawPrefix, sections), pluginId, rawPrefix, sections)
  {
    hide Alias, Strip, Prefixed, DistinctKeys;
    var owner, prefix, ds := Strip(pluginId), Strip(rawPrefix), Declared(sections);
    RowsAreDeclared(owner, prefix, sections);
    FlatMapOneEach(RowOfDeclaration(owner, prefix), ds);
    FlatMapMembers(Declarations, sections);
    hide AllRows, FlatMap, Declared;
    forall k | 0 <= k < |ds| ensures Strip(ds[k].1) != "" {
      assert ds[k] in ds;
      var s :| s in sections && ds[k] in Declarations(s);
      var i :| 0 <= i < |Declarations(s)| && Declarations(s)[i] == ds[k];
      assert WellFormed(s) && s.raw.ids[i] in s.raw.ids;
    }
  }

  predicate WellFormed(s: Section) {
    Strip(s.kind) != "" && s.raw.Many? && forall id | id in s.raw.ids :: Strip(id) != ""
  }

  ghost predicate Buildable(pluginId: string, prefix: string, sections: seq<Section>) {
    && ValidName(pluginId) && ValidPrefix(prefix)
    && (forall s | s in sections :: WellFormed(s))
    && DistinctKeys(AllRows(Strip(pluginId), Strip(prefix), sections))
  }

  // What a refusal says about the declaration.
  ghost predicate Explains(fault: Fault, pluginId: string, rawPrefix: string, sections: seq<Section>) {
    match fault
    case Invalid => !ValidName(pluginId) || !ValidPrefix(rawPrefix) || exists s :: s in sections && !WellFormed(s)
    case Conflict => !DistinctKeys(AllRows(Strip(pluginId), Strip(rawPrefix), sections))
    case NotFound => false
  }

  // The rows of the first i sections and of the first j ids of the next one.
  function RowsUpTo(owner: string, prefix: string, sections: seq<Section>, i: nat, j: nat): seq<Mapping>
    requires i < |sections| && sections[i].raw.Many? && j <= |sections[i].raw.ids|
  {
    AllRows(owner, prefix, sections[..i]) + FlatMap(RowOf(owner, prefix, sections[i].kind), sections[i].raw.ids[..j])
  }

  lemma RowsUpToStep(owner: string, prefix: string, sections: seq<Section>, i: nat, j: nat)
    requires i < |sections| && sections[i].raw.Many? && j < |sections[i].raw.ids|
    ensures RowsUpTo(owner, prefix, sections, i, j + 1) ==
            RowsUpTo(owner, prefix, sections, i, j) + [Row(owner, prefix, sections[i].kind, sections[i].raw.ids[j])]
  {
    hide FlatMap, Row, AllRows;
    FlatMapStepAfter(AllRows(owner, prefix, sections[..i]), RowOf(owner, prefix, sections[i].kind), sections[i].raw.ids, j);
  }

  lemma SectionDone(owner: string, prefix: string, sections: seq<Section>, i: nat)
    requires i < |sections| && sections[i].raw.Many?
    ensures RowsUpTo(owner, prefix, sections, i, 0) == AllRows(owner, prefix, sections[..i])
    ensures RowsUpTo(owner, prefix, sections, i, |sections[i].raw.ids|) == AllRows(owner, prefix, sections[..i + 1])
  {
    var f, ids := RowOf(owner, prefix, sections[i].kind), sections[i].raw.ids;
    assert ids[..0] == [] && ids[..|ids|] == ids;
    FlatMapStep(SectionRows(owner, prefix), sections, i);
  }

  // Rows made so far are a prefix of all rows.
  lemma RowsUpToIsPrefix(owner: string, prefix: string, sections: seq<Section>, i: nat, j: nat)
    requires i < |sections| && sections[i].raw.Many? && j <= |sections[i].raw.ids|
    ensures RowsUpTo(owner, prefix, sections, i, j) <= AllRows(owner, prefix, sections)
  {
    hide FlatMap, Rows, Row;
    var f, g, ids := RowOf(owner, prefix, sections[i].kind), SectionRows(owner, prefix), sections[i].raw.ids;
    FlatMapConcat(f, ids[..j], ids[j..]);
    assert ids == ids[..j] + ids[j..];
    FlatMapStep(g, sections, i);
    FlatMapConcat(g, sections[..i + 1], sections[i + 1..]);
    assert sections == sections[..i + 1] + sections[i + 1..];
    assert g(sections[i]) == FlatMap(f, ids) by { RowsOfMany(owner, prefix, sections[i]); }
    var a, b, c, d := FlatMap(g, sections[..i]), FlatMap(f, ids[..j]), FlatMap(f, ids[j..]), FlatMap(g, sections[i + 1..]);
    assert AllRows(owner, prefix, sections) == (a + (b + c)) + d == (a + b) + (c + d);
  }

  lemma RowsOfMany(owner: string, prefix: string, s: Section)
    requires s.raw.Many?
    ensures Rows(owner, prefix, s) == FlatMap(RowOf(owner, prefix, s.kind), s.raw.ids)
  {}

  lemma RowIsMapping(owner: string, prefix: string, kind: string, rawId: string)
    requires Strip(kind) != "" && Strip(rawId) != ""
    ensures MappingOK(owner, prefix, Row(owner, prefix, kind, rawId))
  {
    AliasIsNormal(kind);
    StripIsTrimmed(rawId);
    hide Alias, Strip, Prefixed;
  }

  lemma RepeatedKey(ms: seq<Mapping>, m: Mapping, longer: seq<Mapping>)
    requires ms + [m] <= longer && exists k :: k in ms && KeyOf(k) == KeyOf(m)
    ensures !DistinctKeys(longer)
  {
    var k :| k in ms && KeyOf(k) == KeyOf(m);
    var i :| 0 <= i < |ms| && ms[i] == k;
    assert longer[..|ms + [m]|] == ms + [m];
    assert longer[i] == (ms + [m])[i] == k && longer[|ms|] == (ms + [m])[|ms|] == m;
  }

  // What the loops keep: the rows so far make a plan, and both key tables list them.
  ghost predicate Built(owner: string, prefix: string, ms: seq<Mapping>, localKeys: set<Key>, effectiveKeys: map<Key, string>) {
    && DistinctKeys(ms)
    && (forall m | m in ms :: MappingOK(owner, prefix, m))
    && localKeys == (set m | m in ms :: LocalKey(m))
    && effectiveKeys.Keys == (set m | m in ms :: KeyOf(m))
  }

  // A local id met before would have been met under its effective id as well.
  lemma BuiltStep(owner: string, prefix: string, ms: seq<Mapping>, localKeys: set<Key>, effectiveKeys: map<Key, string>, m: Mapping)
    requires Built(owner, prefix, ms, localKeys, effectiveKeys) && MappingOK(owner, prefix, m)
    ensures LocalKey(m) in localKeys || KeyOf(m) in effectiveKeys <==> exists k :: k in ms && KeyOf(k) == KeyOf(m)
    ensures LocalKey(m) !in localKeys && KeyOf(m) !in effectiveKeys ==>
              Built(owner, prefix, ms + [m], localKeys + {LocalKey(m)}, effectiveKeys[KeyOf(m) := m.localId])
  {
    hide Prefixed, Alias;
  }

  // The ids of one resource type, appended to what the sections before gave.
  method AddSection(owner: string, prefix: string, sections: seq<Section>, i: nat,
                    before: seq<Mapping>, locals: set<Key>, effectives: map<Key, string>)
    returns (fault: Option<Fault>, mappings: seq<Mapping>, localKeys: set<Key>, effectiveKeys: map<Key, string>)
    requires i < |sections| && before == AllRows(owner, prefix, sections[..i])
    requires Built(owner, prefix, before, locals, effectives)
    ensures fault.Some? ==> fault.value.Invalid? || fault.value.Conflict?
    ensures fault == Some(Invalid) ==> !WellFormed(sections[i])
    ensures fault == Some(Conflict) ==> !DistinctKeys(AllRows(owner, prefix, sections))
    ensures fault == None ==> WellFormed(sections[i]) && mappings == AllRows(owner, prefix, sections[..i + 1])
    ensures fault == None ==> Built(owner, prefix, mappings, localKeys, effectiveKeys)
  {
    hide Alias, Strip, FlatMap, AllRows, RowsUpTo, Prefixed, DistinctKeys, MappingOK, IsSlug, Built;
    var s := sections[i];
    mappings, localKeys, effectiveKeys := before, locals, effectives;
    if Strip(s.kind) == "" || s.raw.One? {
      fault := Some(Invalid);
      return;
    }
    SectionDone(owner, prefix, sections, i);
    for j := 0 to |s.raw.ids|
      invariant mappings == RowsUpTo(owner, prefix, sections, i, j)
      invariant forall k | 0 <= k < j :: Strip(s.raw.ids[k]) != ""
      invariant Built(owner, prefix, mappings, localKeys, effectiveKeys)
    {
      var localId := Strip(s.raw.ids[j]);
      if localId == "" {
        assert s.raw.ids[j] in s.raw.ids;
        fault := Some(Invalid);
        return;
      }
      var mapping := Mapping(owner, Kind(s.kind), localId, Prefixed(prefix, localId));
      assert mapping == Row(owner, prefix, s.kind, s.raw.ids[j]);
      NextRow(owner, prefix, sections, i, j);
      BuiltStep(owner, prefix, mappings, localKeys, effectiveKeys, mapping);
      if LocalKey(mapping) in localKeys || KeyOf(mapping) in effectiveKeys {
        RepeatedKey(mappings, mapping, AllRows(owner, prefix, sections));
        fault := Some(Conflict);
        return;
      }
      localKeys := localKeys + {LocalKey(mapping)};
      effectiveKeys := effectiveKeys[KeyOf(mapping) := localId];
      mappings := mappings + [mapping];
    }
    fault := None;
  }

  function PlanOf(pluginId: string, rawPrefix: string, sections: seq<Section>): Plan {
    var owner, prefix := Strip(pluginId), Strip(rawPrefix);
    Plan(owner, prefix, AllRows(owner, prefix, sections))
  }

  // A plan exists exactly when the names and all ids are valid and no two ids of one
  // resource type meet after prefixing; it then lists every declared id in order.
  method BuildPlan(pluginId: string, rawPrefix: string, sections: seq<Section>) returns (r: Outcome<Plan, Fault>)
    ensures r.Ok? <==> Buildable(pluginId, rawPrefix, sections)
    ensures r.Ok? ==> r.value == PlanOf(pluginId, rawPrefix, sections)
    ensures r.Ok? ==> MapsDeclared(r.value, pluginId, rawPrefix, sections)
    ensures r.Error? ==> Explains(r.error, pluginId, rawPrefix, sections)
  {
    hide Alias, Strip, FlatMap, AllRows, Prefixed, DistinctKeys, IsSlug, Built, WellFormed, MapsDeclared;
    if !ValidName(pluginId) || !ValidPrefix(rawPrefix) { return Error(Invalid); }
    var owner, prefix := Strip(pluginId), Strip(rawPrefix);
    var mappings: seq<Mapping> := [];
    var localKeys: set<Key> := {};
    var effectiveKeys: map<Key, string> := map[];
    var fault: Option<Fault> := None;
    var i := 0;
    NoRows(owner, prefix, sections);
    while i < |sections| && fault.None?
      invariant 0 <= i <= |sections|
      invariant fault.None? ==> mappings == AllRows(owner, prefix, sections[..i])
      invariant fault.None? ==> forall k | 0 <= k < i :: WellFormed(sections[k])
      invariant fault.None? ==> Built(owner, prefix, mappings, localKeys, effectiveKeys)
      invariant fault.Some? ==> Explains(fault.value, pluginId, rawPrefix, sections)
    {
      fault, mappings, localKeys, effectiveKeys := AddSection(owner, prefix, sections, i, mappings, localKeys, effectiveKeys);
      assert sections[i] in sections;
      i := i + 1;
    }
    if fault.Some? { return Error(fault.value); }
    assert sections[..|sections|] == sections;
    BuiltIsDistinct(owner, prefix, mappings, localKeys, effectiveKeys);
    r := Ok(Plan(owner, prefix, mappings));
    PlanMapsDeclared(pluginId, rawPrefix, sections);
  }

  // Whatever can be built is a proper plan.
  lemma BuiltPlanIsOK(pluginId: string, rawPrefix: string, sections: seq<Section>)
    requires Buildable(pluginId, rawPrefix, sections)
    ensures PlanOK(PlanOf(pluginId, rawPrefix, sections))
  {
    hide Alias, Strip, FlatMap, Prefixed, DistinctKeys, MappingOK, Row;
    var owner, prefix := Strip(pluginId), Strip(rawPrefix);
    FlatMapMembers(SectionRows(owner, prefix), sections);
    forall m | m in AllRows(owner, prefix, sections) ensures MappingOK(owner, prefix, m) {
      var s :| s in sections && m in SectionRows(owner, prefix)(s);
      FlatMapMembers(RowOf(owner, prefix, s.kind), s.raw.ids);
      var id :| id in s.raw.ids && m in RowOf(owner, prefix, s.kind)(id);
      RowIsMapping(owner, prefix, s.kind, id);
    }
  }

  lemma NextRow(owner: string, prefix: string, sections: seq<Section>, i: nat, j: nat)
    requires i < |sections| && sections[i].raw.Many? && j < |sections[i].raw.ids|
    requires Strip(sections[i].kind) != "" && Strip(sections[i].raw.ids[j]) != ""
    ensures var row := Row(owner, prefix, sections[i].kind, sections[i].raw.ids[j]);
      && MappingOK(owner, prefix, row)
      && RowsUpTo(owner, prefix, sections, i, j + 1) == RowsUpTo(owner, prefix, sections, i, j) + [row]
      && RowsUpTo(owner, prefix, sections, i, j + 1) <= AllRows(owner, prefix, sections)
  {
    hide *;
    RowIsMapping(owner, prefix, sections[i].kind, sections[i].raw.ids[j]);
    RowsUpToStep(owner, prefix, sections, i, j);
    RowsUpToIsPrefix(owner, prefix, sections, i, j + 1);
  }

  lemma BuiltIsDistinct(owner: string, prefix: string, ms: seq<Mapping>, localKeys: set<Key>, effectiveKeys: map<Key, string>)
    requires Built(owner, prefix, ms, localKeys, effectiveKeys)
    ensures DistinctKeys(ms)
  {}

  lemma NoRows(owner: string, prefix: string, sections: seq<Section>)
    ensures AllRows(owner, prefix, sections[..0]) == [] && Built(owner, prefix, [], {}, map[])
  {}

  /* ----- the index over all registered plans ----- */

  // The index holds the mappings of all registered plans, each under its own key, and
  // nothing else.
  ghost predicate Indexes(plans: map<string, Plan>, index: map<Key, Mapping>) {
    PlansOK(plans) && Covers(plans, index) && Within(plans, index)
  }

  ghost predicate PlansOK(plans: map<string, Plan>) {
    forall id | id in plans :: plans[id].pluginId == id && PlanOK(plans[id])
  }

  ghost predicate Covers(plans: map<string, Plan>, index: map<Key, Mapping>) {
    forall id, m | id in plans && m in plans[id].mappings :: KeyOf(m) in index && index[KeyOf(m)] == m
  }

  ghost predicate Within(plans: map<string, Plan>, index: map<Key, Mapping>) {
    forall k | k in index :: KeyOf(index[k]) == k && index[k].pluginId in plans && index[k] in plans[index[k].pluginId].mappings
  }

  // The plans determine the index.
  lemma IndexIsUnique(plans: map<string, Plan>, a: map<Key, Mapping>, b: map<Key, Mapping>)
    requires Indexes(plans, a) && Indexes(plans, b)
    ensures a == b
  {
    hide PlanOK;
    forall k | k in a ensures k in b && a[k] == b[k] {
      assert a[k] in plans[a[k].pluginId].mappings;
    }
    forall k | k in b ensures k in a {
      assert b[k] in plans[b[k].pluginId].mappings;
    }
  }

  // No two registered plans share a key.
  lemma PlansAreDisjoint(plans: map<string, Plan>, index: map<Key, Mapping>, a: string, b: string, m: Mapping, n: Mapping)
    requires Indexes(plans, index) && a in plans && b in plans && m in plans[a].mappings && n in plans[b].mappings
    requires KeyOf(m) == KeyOf(n)
    ensures a == b && m == n
  {
    assert MappingOK(a, plans[a].resourcePrefix, m) && MappingOK(b, plans[b].resourcePrefix, n);
    hide PlanOK, MappingOK;
  }

  function FindLocal(ms: seq<Mapping>, k: Key): (r: Option<Mapping>)
    ensures r.Some? ==> r.value in ms && LocalKey(r.value) == k
    ensures r.None? ==> forall m | m in ms :: LocalKey(m) != k
  {
    if ms == [] then None
    else if LocalKey(ms[0]) == k then Some(ms[0])
    else FindLocal(ms[1..], k)
  }

  function PlanResolve(p: Plan, rawType: string, rawId: string): Outcome<string, Fault> {
    if Strip(rawType) == "" || Strip(rawId) == "" then Error(Invalid)
    else match FindLocal(p.mappings, (Kind(rawType), Strip(rawId)))
      case Some(m) => Ok(m.effectiveId)
      case None => Error(NotFound)
  }

  function Resolve(plans: map<string, Plan>, rawPlugin: string, rawType: string, rawId: string): Outcome<string, Fault> {
    if !ValidName(rawPlugin) then Error(Invalid)
    else if Strip(rawPlugin) !in plans then Error(NotFound)
    else PlanResolve(plans[Strip(rawPlugin)], rawType, rawId)
  }

  function MappingFor(index: map<Key, Mapping>, rawType: string, rawId: string): Outcome<Option<Mapping>, Fault> {
    if Strip(rawType) == "" || Strip(rawId) == "" then Error(Invalid)
    else
      var k := (Kind(rawType), Strip(rawId));
      Ok(if k in index then Some(index[k]) else None)
  }

  // A reference that does not resolve: its plugin, type or id is no name at all, or the plugin is
  // not registered, or it has no such mapping.
  lemma ResolveFails(plans: map<string, Plan>, rawPlugin: string, rawType: string, rawId: string)
    ensures !ValidName(rawPlugin) ==> Resolve(plans, rawPlugin, rawType, rawId) == Error(Invalid)
    ensures ValidName(rawPlugin) && Strip(rawPlugin) !in plans ==> Resolve(plans, rawPlugin, rawType, rawId) == Error(NotFound)
    ensures ValidName(rawPlugin) && Strip(rawPlugin) in plans ==>
              var r, ms := Resolve(plans, rawPlugin, rawType, rawId), plans[Strip(rawPlugin)].mappings;
              && (r == Error(Invalid) <==> Strip(rawType) == "" || Strip(rawId) == "")
              && (r == Error(NotFound) <==>
                    Strip(rawType) != "" && Strip(rawId) != ""
                    && forall m | m in ms :: m.resourceType != Kind(rawType) || m.localId != Strip(rawId))
              && (r.Ok? ==> exists m :: m in ms && m.resourceType == Kind(rawType) && m.localId == Strip(rawId) && m.effectiveId == r.value)
  {
    hide Strip, IsSlug, Alias;
  }

  // Looking up what a reference resolved to gives back the plugin and the local id.
  lemma ResolvedIsTraceable(plans: map<string, Plan>, index: map<Key, Mapping>, rawPlugin: string, rawType: string, rawId: string)
    requires Indexes(plans, index) && Resolve(plans, rawPlugin, rawType, rawId).Ok?
    ensures var e := Resolve(plans, rawPlugin, rawType, rawId).value;
      MappingFor(index, rawType, e) == Ok(Some(Mapping(Strip(rawPlugin), Kind(rawType), Strip(rawId), e)))
  {
    hide Strip, Alias;
    var p := plans[Strip(rawPlugin)];
    var m := FindLocal(p.mappings, (Kind(rawType), Strip(rawId))).value;
    assert MappingOK(p.pluginId, p.resourcePrefix, m);
    PrefixedIsTrimmed(p.resourcePrefix, m.localId);
    hide Prefixed, PlanOK;
    assert Strip(m.effectiveId) == m.effectiveId != "";
    assert KeyOf(m) in index && index[KeyOf(m)] == m;
  }

  // And what the index knows resolves to where it was found.
  lemma TracedResolves(plans: map<string, Plan>, index: map<Key, Mapping>, rawType: string, rawId: string, m: Mapping)
    requires Indexes(plans, index) && MappingFor(index, rawType, rawId) == Ok(Some(m))
    ensures m.resourceType == Kind(rawType) && m.effectiveId == Strip(rawId)
    ensures Resolve(plans, m.pluginId, rawType, m.localId) == Ok(m.effectiveId)
  {
    hide Strip, Alias;
    var p := plans[m.pluginId];
    assert MappingOK(p.pluginId, p.resourcePrefix, m);
    SlugIsTrimmed(p.pluginId);
    StripIsTrimmed(m.localId);
    var found := FindLocal(p.mappings, LocalKey(m));
    assert MappingOK(p.pluginId, p.resourcePrefix, found.value);
  }

  // What a plan adds to the index.
  function Entries(ms: seq<Mapping>): map<Key, Mapping> {
    if ms == [] then map[] else Entries(ms[..|ms| - 1])[KeyOf(ms[|ms| - 1]) := ms[|ms| - 1]]
  }

  // e is ms, by key.
  ghost predicate Lists(ms: seq<Mapping>, e: map<Key, Mapping>) {
    && (forall m | m in ms :: KeyOf(m) in e && e[KeyOf(m)] == m)
    && (forall k | k in e :: KeyOf(e[k]) == k && e[k] in ms)
  }

  // What stands under a key when a plan is added is one of its mappings of that key.
  lemma {:induction false} EntriesAreMappings(ms: seq<Mapping>)
    ensures forall k | k in Entries(ms) :: Entries(ms)[k] in ms && KeyOf(Entries(ms)[k]) == k
  {
    if ms != [] {
      var front, last := ms[..|ms| - 1], ms[|ms| - 1];
      EntriesAreMappings(front);
      assert ms == front + [last];
    }
  }

  // What remains of the index without the mappings of a plan; a key that another mapping
  // holds keeps it.
  function Without(index: map<Key, Mapping>, ms: seq<Mapping>): map<Key, Mapping> {
    map k | k in index && !(index[k] in ms && KeyOf(index[k]) == k) :: index[k]
  }

  lemma {:induction false} EntriesOfDistinct(ms: seq<Mapping>)
    requires DistinctKeys(ms)
    ensures Lists(ms, Entries(ms))
  {
    if ms != [] {
      var front, last := ms[..|ms| - 1], ms[|ms| - 1];
      EntriesOfDistinct(front);
      assert ms == front + [last];
    }
  }

  lemma PlanEntries(p: Plan)
    requires PlanOK(p)
    ensures Lists(p.mappings, Entries(p.mappings))
    ensures forall m | m in p.mappings :: m.pluginId == p.pluginId
  {
    EntriesOfDistinct(p.mappings);
    hide Lists, Entries, DistinctKeys;
    forall m | m in p.mappings ensures m.pluginId == p.pluginId {
      assert MappingOK(p.pluginId, p.resourcePrefix, m);
    }
  }

  lemma CoversMore(plans: map<string, Plan>, index: map<Key, Mapping>, p: Plan, entries: map<Key, Mapping>)
    requires Covers(plans, index) && Lists(p.mappings, entries) && p.pluginId !in plans
    requires forall m | m in p.mappings :: KeyOf(m) !in index
    ensures Covers(plans[p.pluginId := p], index + entries)
  {
    forall k | k in entries ensures k !in index { assert entries[k] in p.mappings; }
    hide KeyOf;
  }

  lemma WithinMore(plans: map<string, Plan>, index: map<Key, Mapping>, p: Plan, entries: map<Key, Mapping>)
    requires Within(plans, index) && Lists(p.mappings, entries) && p.pluginId !in plans
    requires forall m | m in p.mappings :: m.pluginId == p.pluginId
    ensures Within(plans[p.pluginId := p], index + entries)
  {
    hide KeyOf;
  }

  lemma RegisteredIndexes(plans: map<string, Plan>, index: map<Key, Mapping>, p: Plan)
    requires Indexes(plans, index) && PlanOK(p) && p.pluginId !in plans
    requires forall m | m in p.mappings :: KeyOf(m) !in index
    ensures Indexes(plans[p.pluginId := p], index + Entries(p.mappings))
  {
    PlanEntries(p);
    hide PlanOK, Entries;
    var plans', index' := plans[p.pluginId := p], index + Entries(p.mappings);
    hide Lists;
    assert PlansOK(plans') by { hide Covers, Within; }
    assert Covers(plans', index') by { CoversMore(plans, index, p, Entries(p.mappings)); }
    assert Within(plans', index') by { WithinMore(plans, index, p, Entries(p.mappings)); }
  }

  lemma UnregisteredIndexes(plans: map<string, Plan>, index: map<Key, Mapping>, owner: string)
    requires Indexes(plans, index) && owner in plans
    ensures Indexes(plans - {owner}, Without(index, plans[owner].mappings))
    ensures Without(index, plans[owner].mappings) == index - Entries(plans[owner].mappings).Keys
  {
    forall id | id in plans ensures forall m | m in plans[id].mappings :: m.pluginId == id {
      PlanEntries(plans[id]);
    }
    PlanEntries(plans[owner]);
    IndexedMappings(plans, index, owner);
    hide PlanOK, Entries, KeyOf;
    var plans', index' := plans - {owner}, index - Entries(plans[owner].mappings).Keys;
    assert Covers(plans', index') by {
      forall id, m | id in plans' && m in plans'[id].mappings ensures KeyOf(m) in index' && index'[KeyOf(m)] == m {
        assert index[KeyOf(m)] == m && m.pluginId == id;
      }
    }
    assert Within(plans', index') by { hide PlansOK; }
    WithoutPlan(index, plans[owner].mappings);
  }

  lemma WithoutPlan(index: map<Key, Mapping>, ms: seq<Mapping>)
    requires Lists(ms, Entries(ms)) && forall m | m in ms :: KeyOf(m) in index && index[KeyOf(m)] == m
    ensures Without(index, ms) == index - Entries(ms).Keys
  {
    hide Entries;
  }

  lemma IndexedMappings(plans: map<string, Plan>, index: map<Key, Mapping>, owner: string)
    requires Indexes(plans, index) && owner in plans
    ensures forall m | m in plans[owner].mappings :: KeyOf(m) in index && index[KeyOf(m)] == m
  {
    hide PlanOK;
  }

  // Unregistering what has just been registered gives the old index back, whatever the plan.
  lemma UnregisterUndoesRegister(plans: map<string, Plan>, index: map<Key, Mapping>, p: Plan)
    requires p.pluginId !in plans && forall m | m in p.mappings :: KeyOf(m) !in index
    ensures plans[p.pluginId := p] - {p.pluginId} == plans
    ensures Without(index + Entries(p.mappings), p.mappings) == index
  {
    EntriesAreMappings(p.mappings);
    hide Entries;
    var left := Without(index + Entries(p.mappings), p.mappings);
    forall k ensures k in left <==> k in index {
      if k in index && index[k] in p.mappings { assert KeyOf(index[k]) != k; }
    }
  }

  class Resolver {
    var plans: map<string, Plan>
    var index: map<Key, Mapping>

    ghost predicate Valid()
      reads this
    {
      Indexes(plans, index)
    }

    constructor ()
      ensures Valid() && plans == map[] && index == map[]
    {
      plans, index := map[], map[];
    }

    // All or nothing: refused when the plugin has a plan already or a key is taken. Any plan
    // is taken; a built one keeps the index exact.
    method Register(plan: Plan) returns (ok: bool)
      modifies this
      ensures ok <==> plan.pluginId !in old(plans) && forall m | m in plan.mappings :: KeyOf(m) !in old(index)
      ensures ok ==> plans == old(plans)[plan.pluginId := plan] && index == old(index) + Entries(plan.mappings)
      ensures !ok ==> plans == old(plans) && index == old(index)
      ensures old(Valid()) && (ok ==> PlanOK(plan)) ==> Valid()
    {
      hide PlanOK, Indexes, Entries;
      if plan.pluginId in plans { return false; }
      for i := 0 to |plan.mappings|
        invariant forall j | 0 <= j < i :: KeyOf(plan.mappings[j]) !in index
      {
        if KeyOf(plan.mappings[i]) in index { return false; }
      }
      plans := plans[plan.pluginId := plan];
      AddAll(plan.mappings);
      if Indexes(old(plans), old(index)) && PlanOK(plan) {
        RegisteredIndexes(old(plans), old(index), plan);
      }
      ok := true;
    }

    method AddAll(ms: seq<Mapping>)
      modifies this`index
      ensures index == old(index) + Entries(ms)
    {
      for i := 0 to |ms|
        invariant index == old(index) + Entries(ms[..i])
      {
        assert ms[..i + 1][..i] == ms[..i];
        index := index[KeyOf(ms[i]) := ms[i]];
      }
      assert ms[..|ms|] == ms;
    }

    method Unregister(rawPlugin: string) returns (ok: bool)
      modifies this
      ensures ok <==> ValidName(rawPlugin)
      ensures plans == if ok then old(plans) - {Strip(rawPlugin)} else old(plans)
      ensures index == if ok && Strip(rawPlugin) in old(plans) then Without(old(index), old(plans)[Strip(rawPlugin)].mappings) else old(index)
      ensures old(Valid()) ==> Valid()
    {
      hide Indexes, Entries;
      if !ValidName(rawPlugin) { return false; }
      ok := true;
      var owner := Strip(rawPlugin);
      if owner !in plans { return; }
      var plan := plans[owner];
      plans := plans - {owner};
      RemoveAll(plan.mappings);
      if Indexes(old(plans), old(index)) {
        UnregisteredIndexes(old(plans), old(index), owner);
      }
    }

    method RemoveAll(ms: seq<Mapping>)
      modifies this`index
      ensures index == Without(old(index), ms)
    {
      for i := 0 to |ms|
        invariant index == Without(old(index), ms[..i])
      {
        assert ms[..i + 1] == ms[..i] + [ms[i]];
        var key := KeyOf(ms[i]);
        if key in index && index[key] == ms[i] {
          index := index - {key};
        }
      }
      assert ms[..|ms|] == ms;
    }
  }
}
