/**
 The store of plugin settings: one file of sparse settings per plugin, and beside it the
 paths that have ever been passwords.
 */
module PluginConfig {
  import opened Outcomes
  import opened PythonStrings
  import opened SettingsSchema
  import opened SettingsSecrets

  /* ----- the settings a process would run with ----- */

  function Excluding(names: seq<string>, gone: set<string>): (r: seq<string>)
    ensures forall k :: k in r <==> k in names && k !in gone
  {
    if names == [] then []
    else if names[0] in gone then Excluding(names[1..], gone)
    else [names[0]] + Excluding(names[1..], gone)
  }

  // A property the environment provides and the settings do not is neither defaulted nor
  // required.
  function Runtime(s: Schema, fields: map<string, Json>, environment: set<string>): Schema {
    s.(properties := map k | k in s.properties ::
         if k !in fields && k in environment then s.properties[k].(default := None) else s.properties[k],
       required := Excluding(s.required, (set k | k in s.properties && k !in fields && k in environment)))
  }

  function ResolveApplied(s: Schema, v: Json, environment: set<string>): Option<Json> {
    if !v.Obj? then None
    else
      var runtime := Runtime(s, v.fields, environment);
      if ValidSchema(runtime) then Normalize(runtime, v) else None
  }

  // A default of the schema itself plays no part in checking a value that is given.
  lemma OwnDefaultIsIrrelevant(s: Schema, d: Option<Json>, v: Json)
    ensures Normalize(s.(default := d), v) == Normalize(s, v)
  {
    var t := s.(default := d);
    if s.kind.Object? && v.Obj? {
      assert forall k | k in s.properties :: Input(t, v.fields, k) == Input(s, v.fields, k);
      if w :| Normalize(s, v) == Some(w) {
        NormalizedField(s, v, "");
        forall k ensures k in w.fields <==> k in s.properties && Input(s, v.fields, k).Some? { NormalizedField(s, v, k); }
        NormalizedFrom(t, v, w.fields);
      }
    }
  }

  // What a schema accepts is accepted whatever the environment provides.
  lemma RuntimeAcceptsMore(s: Schema, fields: map<string, Json>, environment: set<string>, v: Json)
    requires s.kind.Object? && Normalize(s, v).Some?
    ensures Normalize(Runtime(s, fields, environment), v).Some?
  {
    var t := Runtime(s, fields, environment);
    var w := Normalize(s, v).value;
    NormalizedField(s, v, "");
    hide Normalize;
    var w' := map k | k in w.fields && Field(t, v, k) :: w.fields[k];
    forall k | k in s.properties
      ensures k in w'  ==> Normalize(t.properties[k], Input(t, v.fields, k).value) == Some(w'[k])
      ensures k in w' <==> Input(t, v.fields, k).Some?
      ensures Input(t, v.fields, k).None? ==> k !in t.required
    {
      NormalizedField(s, v, k);
      if k in v.fields { OwnDefaultIsIrrelevant(s.properties[k], None, v.fields[k]); }
    }
    forall k | k in w' ensures k in s.properties { NormalizedField(s, v, k); }
    forall k | k in v.fields ensures k in s.properties { NormalizedField(s, v, k); }
    NormalizedFrom(t, v, w');
  }

  predicate Field(s: Schema, v: Json, k: string) {
    v.Obj? && k in s.properties && Input(s, v.fields, k).Some?
  }

  lemma ValidWithoutDefault(s: Schema)
    requires ValidSchema(s)
    ensures ValidSchema(s.(default := None))
  {
    if s.choices.Some? {
      forall x | x in s.choices.value ensures Normalize(s.(default := None, choices := None), x).Some? {}
    }
  }

  // The runtime schema of a valid schema is valid, so that only the settings can be refused.
  lemma RuntimeIsValid(s: Schema, fields: map<string, Json>, environment: set<string>)
    requires ValidSchema(s) && s.kind.Object?
    ensures ValidSchema(Runtime(s, fields, environment))
  {
    var t := Runtime(s, fields, environment);
    forall k | k in t.properties ensures ValidSchema(t.properties[k]) {
      ValidWithoutDefault(s.properties[k]);
    }
    var bare := s.(default := None, choices := None);
    assert Runtime(bare, fields, environment) == t.(default := None, choices := None);
    if s.choices.Some? {
      forall x | x in s.choices.value ensures Normalize(t.(default := None, choices := None), x).Some? {
        RuntimeAcceptsMore(bare, fields, environment, x);
      }
    }
    if s.default.Some? {
      RuntimeAcceptsMore(s, fields, environment, s.default.value);
    }
  }

  lemma SparseRuntime(s: Schema, fields: map<string, Json>, environment: set<string>)
    requires s.kind.Object?
    ensures Sparse(Runtime(s, fields, environment)) == Sparse(s)
  {
    var t := Runtime(s, fields, environment);
    forall k | k in s.properties ensures Sparse(t.properties[k]) == Sparse(s.properties[k]) {
      SparseIgnoresDefault(s.properties[k]);
    }
    SparseObject(s);
    SparseObject(t);
    SparseProperties(s);
    SparseProperties(t);
    hide ValidSchema, Normalize, Sparse;
    assert Sparse(t).properties == Sparse(s).properties;
  }

  lemma SparseObject(s: Schema)
    requires s.kind.Object?
    ensures Sparse(s) == s.(default := None, required := [], properties := Sparse(s).properties)
  {}

  lemma SparseIgnoresDefault(s: Schema)
    ensures Sparse(s.(default := None)) == Sparse(s)
  {}

  // A process can run with the settings exactly when they are well-formed and every required
  // property is set, defaulted, or provided by the environment.
  lemma AppliedIff(s: Schema, v: Json, environment: set<string>)
    requires ValidSchema(s) && s.kind.Object? && v.Obj?
    ensures ResolveApplied(s, v, environment).Some? <==>
              && Normalize(Sparse(s), v).Some?
              && (forall k | k in s.required :: k in v.fields || k in environment || s.properties[k].default.Some?)
              && (forall k | k in v.fields && k in s.properties :: RequiredMet(s.properties[k], v.fields[k]))
  {
    var t := Runtime(s, v.fields, environment);
    RuntimeIsValid(s, v.fields, environment);
    SparseRuntime(s, v.fields, environment);
    NormalizeFactors(t, v);
    hide Normalize, Sparse, ValidSchema;
    RequiredOfRuntime(s, v, environment);
  }

  // A process then runs with what is set and, where nothing is set and the environment provides
  // nothing either, with the default; objects are filled in the same way.
  lemma AppliedHolds(s: Schema, v: Json, environment: set<string>, k: string)
    requires ValidSchema(s) && s.kind.Object? && v.Obj? && ResolveApplied(s, v, environment).Some?
    ensures ResolveApplied(s, v, environment).value.Obj?
    ensures var fields := ResolveApplied(s, v, environment).value.fields;
      && (k in fields <==> k in s.properties && (k in v.fields || (k !in environment && s.properties[k].default.Some?)))
      && (k in v.fields ==> k in fields && fields[k] == Fill(s.properties[k], v.fields[k]))
      && (k in fields && k !in v.fields ==> fields[k] == Fill(s.properties[k], s.properties[k].default.value))
  {
    var t := Runtime(s, v.fields, environment);
    RuntimeIsValid(s, v.fields, environment);
    NormalizeFactors(t, v);
    if Normalize(t, v).Some? { NormalizedField(t, v, k); }
    assert v.fields.Keys <= s.properties.Keys;
    hide Normalize, Sparse, ValidSchema;
    if k in s.properties && s.properties[k].kind.Object? { FillIgnoresDefault(s.properties[k], if k in v.fields then v.fields[k] else Null); }
  }

  lemma FillIgnoresDefault(s: Schema, v: Json)
    ensures Fill(s.(default := None), v) == Fill(s, v)
  {}

  lemma RequiredOfRuntime(s: Schema, v: Json, environment: set<string>)
    requires s.kind.Object? && v.Obj? && forall k | k in s.required :: k in s.properties
    ensures RequiredMet(Runtime(s, v.fields, environment), v) <==>
              && (forall k | k in s.required :: k in v.fields || k in environment || s.properties[k].default.Some?)
              && (forall k | k in v.fields && k in s.properties :: RequiredMet(s.properties[k], v.fields[k]))
  {
    var t := Runtime(s, v.fields, environment);
    assert RequiredGiven(t, v.fields) <==>
           forall k | k in s.required :: k in v.fields || k in environment || s.properties[k].default.Some? by {
      forall k | k in s.properties
        ensures (Input(t, v.fields, k).None? ==> k !in t.required) <==>
                (k in s.required ==> k in v.fields || k in environment || s.properties[k].default.Some?) {}
    }
  }

  /* ----- saving ----- */

  // What would be stored: blanks are filled from what is there, the result is checked
  // sparsely, and a process must be able to run with it.
  function Accepted(s: Schema, existing: Json, v: Json, environment: set<string>): Option<Json> {
    var kept := Preserve(s, v, Some(existing));
    if !ValidSchema(s) || Normalize(Sparse(s), kept).None? then None
    else
      var normal := Normalize(Sparse(s), kept).value;
      if ResolveApplied(s, normal, environment).Some? then Some(normal) else None
  }

  // Saving what is displayed of the stored settings leaves them as they are exactly when
  // they fit the current schema, a process can run with them, and only current passwords, or
  // values that are empty anyway, have been blanked.
  lemma SavingTheDisplayIff(s: Schema, v: Json, environment: set<string>, sensitive: set<Path>)
    ensures Accepted(s, v, Redact(s, v, sensitive, []), environment) == Some(v) <==>
              && ValidSchema(s) && Normalize(Sparse(s), v).Some? && ResolveApplied(s, v, environment).Some?
              && NothingElseHidden(s, v, sensitive, [])
  {
    var shown := Redact(s, v, sensitive, []);
    if Accepted(s, v, shown, environment) == Some(v) {
      AcceptedIsRunnable(s, v, shown, environment);
      RoundTripIff(s, v, sensitive, []);
    } else if ValidSchema(s) && Normalize(Sparse(s), v).Some? && ResolveApplied(s, v, environment).Some? {
      SparseIsIdentity(s, v);
      RunnableIsObject(s, v, environment);
      NormalIsShaped(s, v, sensitive, []);
      RoundTripIff(s, v, sensitive, []);
    }
    hide Normalize, Sparse, ValidSchema, Redact, Preserve, ResolveApplied, NothingElseHidden, Shaped;
  }

  lemma RunnableIsObject(s: Schema, v: Json, environment: set<string>)
    requires Normalize(Sparse(s), v).Some? && ResolveApplied(s, v, environment).Some?
    ensures s.kind.Object? && v.Obj?
  {}

  // A value is accepted exactly when the schema is valid and, with blanks filled in from what
  // is stored, accepts it as it is, and a process can run with it; this is then what is stored.
  lemma AcceptedIsRunnable(s: Schema, existing: Json, v: Json, environment: set<string>)
    ensures var kept := Preserve(s, v, Some(existing));
      Accepted(s, existing, v, environment) ==
        if ValidSchema(s) && Normalize(Sparse(s), kept) == Some(kept) && ResolveApplied(s, kept, environment).Some?
        then Some(kept) else None
  {
    var kept := Preserve(s, v, Some(existing));
    if Normalize(Sparse(s), kept).Some? { SparseIsIdentity(s, kept); }
    hide Normalize, Sparse, ValidSchema, Preserve, ResolveApplied;
  }

  // What is stored is, at every path, what was given, but for passwords left blank.
  lemma StoredAsGiven(s: Schema, existing: Json, v: Json, environment: set<string>, q: Path)
    requires Accepted(s, existing, v, environment).Some?
    ensures KeptAt(s, v, Some(existing), Accepted(s, existing, v, environment).value, q)
  {
    AcceptedIsRunnable(s, existing, v, environment);
    RunnableIsObject(s, Preserve(s, v, Some(existing)), environment);
    PreservedAt(s, v, Some(existing), q);
  }

  datatype SettingsFile = Broken | Holds(v: Json)

  datatype PathsFile = BrokenPaths | Paths(paths: set<Path>)

  // Every path with a string at its end.
  function StringPaths(v: Json, path: Path): set<Path> {
    match v
    case Str(_) => {path}
    case Obj(fields) => set k, p | k in fields && p in StringPaths(fields[k], path + [k]) :: p
    case _ => {}
  }

  // The value some names lead to.
  function JsonAt(v: Json, q: Path): Option<Json> {
    if q == [] then Some(v)
    else if v.Obj? && q[0] in v.fields then JsonAt(v.fields[q[0]], q[1..])
    else None
  }

  lemma {:induction false} StringPathsIff(v: Json, path: Path, q: Path)
    ensures path + q in StringPaths(v, path) <==> JsonAt(v, q).Some? && JsonAt(v, q).value.Str?
    decreases |q|
  {
    if q == [] {
      assert path + q == path;
      if v.Obj? && path in StringPaths(v, path) { StringPathsLead(v, path, path); }
    } else if v.Obj? {
      var k, rest := q[0], q[1..];
      assert path + q == (path + [k]) + rest;
      forall j | j in v.fields && path + q in StringPaths(v.fields[j], path + [j]) ensures j == k {
        StringPathsLead(v.fields[j], path + [j], path + q);
        assert (path + q)[|path|] == k && (path + [j])[|path|] == j;
      }
      if k in v.fields { StringPathsIff(v.fields[k], path + [k], rest); }
    } else {
      assert path + q != path by { assert |path + q| > |path|; }
    }
  }

  // Every path goes on from where it started, and further inside an object.
  lemma {:induction false} StringPathsLead(v: Json, path: Path, p: Path)
    requires p in StringPaths(v, path)
    ensures path <= p && (v.Obj? ==> |path| < |p|)
  {
    if v.Obj? {
      var k :| k in v.fields && p in StringPaths(v.fields[k], path + [k]);
      StringPathsLead(v.fields[k], path + [k], p);
      assert path <= path + [k];
    }
  }

  /* ----- the files ----- */

  datatype Files = Files(settings: map<string, SettingsFile>, sensitive: map<string, PathsFile>)
  {
    function Load(plugin: string): Option<Json> {
      if !IsSlug(plugin) then None
      else if plugin !in settings then Some(Obj(map[]))
      else match settings[plugin]
        case Broken => None
        case Holds(v) => if v.Obj? then Some(v) else None
    }

    // The recorded paths; none when there is no file yet.
    function Recorded(plugin: string): Option<set<Path>> {
      if plugin !in sensitive then Some({})
      else match sensitive[plugin]
        case BrokenPaths => None
        case Paths(paths) => Some(paths)
    }

    // What is blanked for display. Settings from before paths were recorded hide all strings.
    function SensitivePaths(plugin: string, s: Schema, v: Json): Option<set<Path>> {
      if !IsSlug(plugin) || Recorded(plugin).None? then None
      else if plugin !in sensitive && plugin in settings then Some(PasswordPaths(s, []) + StringPaths(v, []))
      else Some(Recorded(plugin).value + PasswordPaths(s, []))
    }

    // Everything that is read and checked before anything is written is in order.
    predicate Accepts(plugin: string, s: Schema, v: Json, environment: set<string>) {
      Load(plugin).Some? && Accepted(s, Load(plugin).value, v, environment).Some? && Recorded(plugin).Some?
    }
  }

  datatype Saving = Saving(plugin: string, schema: Schema, v: Json, environment: set<string>, pathsFail: bool, writeFails: bool)

  // A save that goes through.
  predicate Succeeds(f: Files, e: Saving) {
    f.Accepts(e.plugin, e.schema, e.v, e.environment) && !e.pathsFail && !e.writeFails
  }

  // The recorded paths are written first; the settings only when that has worked.
  function Saved(f: Files, e: Saving): Files {
    if !f.Accepts(e.plugin, e.schema, e.v, e.environment) || e.pathsFail then f
    else
      var paths := f.sensitive[e.plugin := Paths(f.Recorded(e.plugin).value + PasswordPaths(e.schema, []))];
      if e.writeFails then f.(sensitive := paths)
      else Files(f.settings[e.plugin := Holds(Accepted(e.schema, f.Load(e.plugin).value, e.v, e.environment).value)], paths)
  }

  function SavedAll(f: Files, es: seq<Saving>): Files
    decreases |es|
  {
    if es == [] then f else SavedAll(Saved(f, es[0]), es[1..])
  }

  // Saving, for whatever plugin and with whatever outcome, never forgets a recorded path.
  lemma {:induction false} PathsOnlyGrow(f: Files, es: seq<Saving>, plugin: string, paths: set<Path>)
    requires plugin in f.sensitive && f.sensitive[plugin].Paths? && paths <= f.sensitive[plugin].paths
    ensures var g := SavedAll(f, es);
      plugin in g.sensitive && g.sensitive[plugin].Paths? && paths <= g.sensitive[plugin].paths
    decreases |es|
  {
    if es != [] {
      hide Files.Load, Accepted, PasswordPaths;
      PathsOnlyGrow(Saved(f, es[0]), es[1..], plugin, paths);
    }
  }

  // What is blanked for display: the passwords of the schema, what has been recorded, and, when
  // nothing has been recorded for stored settings, every string.
  lemma SensitivePathsIff(f: Files, plugin: string, s: Schema, v: Json, q: Path)
    ensures f.SensitivePaths(plugin, s, v).Some? <==> IsSlug(plugin) && (plugin in f.sensitive ==> f.sensitive[plugin].Paths?)
    ensures f.SensitivePaths(plugin, s, v).Some? ==>
              (q in f.SensitivePaths(plugin, s, v).value <==>
                || (q != [] && PropertyAt(s, q).Some? && PropertyAt(s, q).value.IsPassword())
                || (plugin in f.sensitive && q in f.sensitive[plugin].paths)
                || (plugin !in f.sensitive && plugin in f.settings && JsonAt(v, q).Some? && JsonAt(v, q).value.Str?))
  {
    PasswordPathsIff(s, [], q);
    StringPathsIff(v, [], q);
    assert [] + q == q;
    hide PasswordPaths, StringPaths, IsSlug;
  }

  // One more save comes behind the others.
  lemma {:induction false} SavedAllSnoc(f: Files, es: seq<Saving>, e: Saving)
    ensures SavedAll(f, es + [e]) == Saved(SavedAll(f, es), e)
    decreases |es|
  {
    hide Saved;
    if es == [] {
      assert SavedAll(f, [e]) == SavedAll(Saved(f, e), []) by { assert [e][1..] == []; }
    } else {
      assert (es + [e])[1..] == es[1..] + [e];
      SavedAllSnoc(Saved(f, es[0]), es[1..], e);
    }
  }

  lemma PastPathsAreSensitive(f: Files, first: Saving, later: seq<Saving>, s: Schema, v: Json)
    requires Succeeds(f, first)
    ensures var g := SavedAll(Saved(f, first), later);
      && g.SensitivePaths(first.plugin, s, v).Some?
      && PasswordPaths(first.schema, []) <= g.SensitivePaths(first.plugin, s, v).value
  {
    hide Accepted, PasswordPaths, SavedAll, IsSlug;
    PathsOnlyGrow(Saved(f, first), later, first.plugin, PasswordPaths(first.schema, []));
  }

  lemma SensitiveIsBlank(s: Schema, v: Json, sensitive: set<Path>, p: Path)
    requires p in sensitive && p != [] && At(s, Redact(s, v, sensitive, []), p).Some?
    ensures At(s, Redact(s, v, sensitive, []), p).value.1 == BLANK
  {
    hide Redact, At;
    assert [] + p == p;
    DisplayedAt(s, v, sensitive, [], p);
  }

  // What is shown of the settings.
  function Displayed(f: Files, plugin: string, s: Schema, v: Json): Option<Json> {
    match f.SensitivePaths(plugin, s, v)
    case None => None
    case Some(sensitive) => Some(Redact(s, v, sensitive, []))
  }

  // Once a save under a schema has gone through, its passwords are hidden for good: after any
  // later saves, under whatever schema the plugin then has, each of them that is displayed at
  // all is displayed blank.
  lemma PastPasswordsStayHidden(f: Files, first: Saving, later: seq<Saving>, s: Schema, v: Json, p: Path)
    requires Succeeds(f, first) && p in PasswordPaths(first.schema, [])
    ensures var shown := Displayed(SavedAll(Saved(f, first), later), first.plugin, s, v);
      shown.Some? && (At(s, shown.value, p).Some? ==> At(s, shown.value, p).value.1 == BLANK)
  {
    var _ := PasswordPathLeads(first.schema, Null, [], p);
    PastPathsAreSensitive(f, first, later, s, v);
    hide Succeeds, PasswordPaths, SavedAll, Saved, Redact, At, Files.SensitivePaths;
    var g := SavedAll(Saved(f, first), later);
    var shown := Displayed(g, first.plugin, s, v);
    if At(s, shown.value, p).Some? {
      SensitiveIsBlank(s, v, g.SensitivePaths(first.plugin, s, v).value, p);
    }
  }

  /* ----- settings from before paths were recorded ----- */

  function NoteSchema(): Schema {
    Schema(Object, Plain, None, None, None, None,
           map["k" := Schema(Text, Plain, None, None, None, None, map[], [], None)], [], None)
  }

  function Note(): Json {
    Obj(map["k" := Str("x")])
  }

  lemma NoteIsValid()
    ensures ValidSchema(NoteSchema()) && Normalize(NoteSchema(), Note()) == Some(Note())
    ensures Sparse(NoteSchema()) == NoteSchema() && Runtime(NoteSchema(), Note().fields, {}) == NoteSchema()
  {
    NormalizedFrom(NoteSchema(), Note(), Note().fields);
  }

  lemma NotePaths()
    ensures StringPaths(Note(), []) == {["k"]} && PasswordPaths(NoteSchema(), []) == {}
  {
    var root: Path := [];
    assert root + ["k"] == ["k"];
    assert StringPaths(Str("x"), root + ["k"]) == {["k"]};
    assert "k" in Note().fields && Note().fields["k"] == Str("x");
    forall p ensures p in StringPaths(Note(), root) <==> p == ["k"] {}
  }

  lemma NoteIsHidden()
    ensures !NothingElseHidden(NoteSchema(), Note(), {["k"]}, [])
  {
    assert [] + ["k"] == ["k"] && ["k"][1..] == [];
    assert At(NoteSchema(), Note(), ["k"]) == Some((NoteSchema().properties["k"], Str("x")));
  }

  // A plain string that was stored without recorded paths is displayed blank, and saving what
  // is displayed loses it.
  lemma LegacyStringIsLost()
    ensures var s, v := NoteSchema(), Note();
      && ValidSchema(s) && Normalize(Sparse(s), v).Some? && ResolveApplied(s, v, {}).Some?
      && Displayed(Files(map["p" := Holds(v)], map[]), "p", s, v) == Some(Redact(s, v, {["k"]}, []))
      && Accepted(s, v, Redact(s, v, {["k"]}, []), {}) != Some(v)
  {
    NoteIsValid();
    NotePaths();
    NoteIsHidden();
    var f := Files(map["p" := Holds(Note())], map[]);
    assert IsSlug("p");
    hide Redact, Normalize, ValidSchema, Sparse, Accepted, NothingElseHidden, PasswordPaths, StringPaths, NoteSchema, Note, Runtime, IsSlug;
    assert f.SensitivePaths("p", NoteSchema(), Note()) == Some({["k"]}) by { assert {} + {["k"]} == {["k"]}; }
    assert Note().Obj? by { NoteIsObject(); }
    SavingTheDisplayIff(NoteSchema(), Note(), {}, {["k"]}) by { NoteIsObject(); }
  }

  /* ----- settings of an earlier version of a plugin ----- */

  // Settings with a key the schema no longer declares.
  function Stale(): Json {
    Obj(map["old" := Str("x")])
  }

  lemma StaleShown(sensitive: set<Path>)
    ensures Redact(NoteSchema(), Stale(), sensitive, []) == Obj(map[])
    ensures Preserve(NoteSchema(), Obj(map[]), Some(Stale())) == Obj(map[])
    ensures Obj(map[]) != Stale()
  {
    assert "old"[0] != "k"[0];
    assert "old" in Stale().fields;
  }

  lemma StaleHidesNothing(sensitive: set<Path>)
    ensures NothingElseHidden(NoteSchema(), Stale(), sensitive, [])
  {
    assert "old"[0] != "k"[0];
    forall p: Path | p != [] ensures At(NoteSchema(), Stale(), p).None? {}
  }

  lemma NothingIsValid()
    ensures Normalize(NoteSchema(), Obj(map[])) == Some(Obj(map[])) && Runtime(NoteSchema(), map[], {}) == NoteSchema()
  {
    NormalizedFrom(NoteSchema(), Obj(map[]), map[]);
  }

  // The key is not displayed, nothing is blanked, and still saving the display empties the
  // file.
  lemma StaleKeyIsLost(sensitive: set<Path>)
    ensures var s, v := NoteSchema(), Stale();
      && ValidSchema(s) && NothingElseHidden(s, v, sensitive, [])
      && Accepted(s, v, Redact(s, v, sensitive, []), {}) == Some(Obj(map[])) && Obj(map[]) != v
  {
    NoteIsValid();
    NothingIsValid();
    StaleShown(sensitive);
    StaleHidesNothing(sensitive);
    hide Normalize, ValidSchema, Sparse, Redact, Preserve, NothingElseHidden, NoteSchema, Stale, Runtime;
  }

  lemma NoteIsObject()
    ensures Note().Obj? && NoteSchema().kind.Object?
  {}

  class PluginConfigStore {
    var settings: map<string, SettingsFile>
    var sensitive: map<string, PathsFile>

    constructor ()
      ensures State() == Files(map[], map[])
    {
      settings, sensitive := map[], map[];
    }

    function State(): Files
      reads this
    {
      Files(settings, sensitive)
    }

    // Refused, or failing on either file, it leaves the settings as they were. The recorded
    // paths are written first and only ever grow.
    method Save(plugin: string, s: Schema, v: Json, environment: set<string>, pathsFail: bool, writeFails: bool)
      returns (r: Option<Json>)
      modifies this
      ensures State() == Saved(old(State()), Saving(plugin, s, v, environment, pathsFail, writeFails))
      ensures r.Some? <==> Succeeds(old(State()), Saving(plugin, s, v, environment, pathsFail, writeFails))
      ensures r.Some? ==> r == Accepted(s, old(State().Load(plugin)).value, v, environment) && State().Load(plugin) == r
      ensures r.Some? ==> forall q: Path :: KeptAt(s, v, old(State().Load(plugin)), r.value, q)
      // refused for a name that is none, an unreadable file of the plugin, or a value that cannot
      // be accepted
      ensures r.Some? ==> IsSlug(plugin) && (plugin in old(settings) ==> old(settings)[plugin].Holds? && old(settings)[plugin].v.Obj?)
      ensures r.Some? ==> plugin in old(sensitive) ==> old(sensitive)[plugin].Paths?
      ensures r.None? ==>
        || pathsFail || writeFails || !IsSlug(plugin)
        || (plugin in old(settings) && (old(settings)[plugin].Broken? || !old(settings)[plugin].v.Obj?))
        || (plugin in old(sensitive) && old(sensitive)[plugin].BrokenPaths?)
        || Accepted(s, if plugin in old(settings) then old(settings)[plugin].v else Obj(map[]), v, environment).None?
      ensures r.Some? ==> settings == old(settings)[plugin := Holds(r.value)]
      ensures r.Some? ==>
        sensitive == old(sensitive)[plugin := Paths((if plugin in old(sensitive) then old(sensitive)[plugin].paths else {}) + PasswordPaths(s, []))]
      ensures r.None? ==> settings == old(settings) && (!writeFails ==> sensitive == old(sensitive))
    {
      hide Accepted, PasswordPaths, IsSlug, KeptAt;
      var existing := State().Load(plugin);
      if existing.None? { return None; }
      var normal := Accepted(s, existing.value, v, environment);
      if normal.None? { return None; }
      var historical := State().Recorded(plugin);
      if historical.None? || pathsFail { return None; }
      sensitive := sensitive[plugin := Paths(historical.value + PasswordPaths(s, []))];
      if writeFails { return None; }
      AcceptedIsObject(s, existing.value, v, environment);
      forall q: Path ensures KeptAt(s, v, existing, normal.value, q) {
        StoredAsGiven(s, existing.value, v, environment, q);
      }
      settings := settings[plugin := Holds(normal.value)];
      r := normal;
    }

    method Delete(plugin: string) returns (ok: bool)
      modifies this
      ensures ok <==> IsSlug(plugin)
      ensures State() == if ok then Files(old(settings) - {plugin}, old(sensitive) - {plugin}) else old(State())
      ensures ok ==> State().Load(plugin) == Some(Obj(map[]))
    {
      ok := IsSlug(plugin);
      if ok {
        settings := settings - {plugin};
        sensitive := sensitive - {plugin};
      }
    }
  }

  lemma AcceptedIsObject(s: Schema, existing: Json, v: Json, environment: set<string>)
    requires Accepted(s, existing, v, environment).Some?
    ensures Accepted(s, existing, v, environment).value.Obj?
  {}
}
