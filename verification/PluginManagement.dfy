/**
 Switching plugins on and off: the stored list of enabled plugins, the closure of plugins
 it calls for, and the guard that keeps a required plugin from being disabled.
 */
module PluginManagement {
  import opened DependencyGraph
  import opened Outcomes
  import opened PythonStrings
  import opened Sequences

  // The lock record of an installed package. No dependencies when its manifest is unreadable
  // or names another plugin.
  datatype Record = Record(pendingRemove: bool, dependencies: Option<seq<Id>>)

  // extensions.json.
  datatype ConfigFile = Absent | Unreadable | Document(enabled: seq<string>, strictStartup: bool)

  // What the stored file says: nothing when it does not exist, an error when an entry is blank.
  function Read(file: ConfigFile): Option<(seq<Id>, bool)> {
    match file
    case Absent => Some(([], false))
    case Unreadable => None
    case Document(enabled, strict) =>
      if exists x :: x in enabled && Strip(x) == "" then None else Some((Deduplicated(Stripped(enabled)), strict))
  }

  function Edited(enabled: seq<Id>, x: Id, on: bool): seq<Id> {
    if on then if x in enabled then enabled else enabled + [x]
    else Removed(enabled, x)
  }

  // Every id the graph or the list names.
  function Universe(g: Graph, roots: seq<Id>): set<Id> {
    Nodes(g) + set r | r in roots
  }

  /* ----- the closure of what is enabled ----- */

  // Nothing enabled and finished is missing a dependency.
  ghost predicate Finished(g: Graph, enabled: set<Id>, visiting: set<Id>) {
    && visiting <= enabled
    && forall a, b :: a in enabled && a !in visiting && Edge(g, a, b) ==> b in enabled
  }

  lemma SelfReached(g: Graph, x: Id)
    ensures Reaches(g, x, x)
  {}

  lemma DependencyReached(g: Graph, roots: seq<Id>, x: Id, i: nat)
    requires x in g && i < |g[x]|
    ensures g[x][i] in Universe(g, roots) && Edge(g, x, g[x][i])
    ensures forall y | Reaches(g, g[x][i], y) :: Reaches(g, x, y)
  {
    EdgeLeads(g, x, g[x][i]);
    forall y | Reaches(g, g[x][i], y) ensures Reaches(g, x, y) {
      LeadsTransitive(g, x, g[x][i], y);
    }
  }

  method Visit(g: Graph, roots: seq<Id>, x: Id, enabledBefore: set<Id>, visitingBefore: set<Id>)
    returns (enabled: set<Id>, visiting: set<Id>)
    requires x in Universe(g, roots) && enabledBefore <= Universe(g, roots)
    requires Finished(g, enabledBefore, visitingBefore)
    ensures visiting == visitingBefore && enabledBefore + {x} <= enabled <= Universe(g, roots)
    ensures Finished(g, enabled, visiting)
    ensures forall y | y in enabled :: y in enabledBefore || Reaches(g, x, y)
    decreases Universe(g, roots) - enabledBefore
  {
    enabled, visiting := enabledBefore, visitingBefore;
    if x in enabled || x in visiting { return; }
    hide Reaches, Universe;
    visiting := visiting + {x};
    enabled := enabled + {x};
    SelfReached(g, x);
    if x in g {
      for i := 0 to |g[x]|
        invariant visiting == visitingBefore + {x} && enabledBefore + {x} <= enabled <= Universe(g, roots)
        invariant Finished(g, enabled, visiting)
        invariant forall j | 0 <= j < i :: g[x][j] in enabled
        invariant forall y | y in enabled :: y in enabledBefore || Reaches(g, x, y)
      {
        DependencyReached(g, roots, x, i);
        enabled, visiting := Visit(g, roots, g[x][i], enabled, visiting);
      }
    }
    visiting := visiting - {x};
  }

  // The plugins that will be started: everything reachable from the list of enabled ids,
  // whether its manifest can be read or not.
  method DesiredEnabled(g: Graph, roots: seq<Id>) returns (enabled: set<Id>)
    ensures forall x :: x in enabled <==> Reached(g, roots, x)
  {
    var visiting := {};
    enabled := {};
    for i := 0 to |roots|
      invariant visiting == {} && enabled <= Universe(g, roots) && Finished(g, enabled, visiting)
      invariant forall j | 0 <= j < i :: roots[j] in enabled
      invariant forall y | y in enabled :: Reached(g, roots, y)
    {
      enabled, visiting := Visit(g, roots, roots[i], enabled, visiting);
    }
    ReachedIsClosure(g, roots, enabled);
  }

  /* ----- who requires a plugin ----- */

  // The work list holds what is still to be looked at; nothing looked at needs the plugin.
  ghost predicate Searched(g: Graph, root: Id, plugin: Id, seen: set<Id>, pending: seq<Id>) {
    && (root in seen || root in pending)
    && (forall a, b :: a in seen && Edge(g, a, b) ==> b != plugin && (b in seen || b in pending))
    && (forall a | a in seen :: Reaches(g, root, a))
    && (forall a | a in pending :: Reaches(g, root, a))
  }

  lemma NothingNeedsIt(g: Graph, root: Id, plugin: Id, seen: set<Id>)
    requires Searched(g, root, plugin, seen, [])
    ensures !Leads(g, root, plugin)
  {
    if Leads(g, root, plugin) {
      var p :| Path(g, p) && p[0] == root && p[|p| - 1] == plugin;
      PathStaysInside(g, seen, p, |p| - 2);
    }
  }

  lemma FoundNeeds(g: Graph, root: Id, current: Id, plugin: Id)
    requires Reaches(g, root, current) && Edge(g, current, plugin)
    ensures Leads(g, root, plugin)
  {
    EdgeLeads(g, current, plugin);
    LeadsTransitive(g, root, current, plugin);
  }

  // Whether a path of dependencies leads from root to the plugin.
  method Requires(g: Graph, root: Id, plugin: Id) returns (needed: bool)
    ensures needed <==> Leads(g, root, plugin)
  {
    hide Leads, Reaches;
    var seen: set<Id> := {};
    var pending := [root];
    SelfReached(g, root);
    while pending != []
      invariant seen <= Universe(g, [root]) && forall a | a in pending :: a in Universe(g, [root])
      invariant Searched(g, root, plugin, seen, pending)
      decreases Universe(g, [root]) - seen, |pending|
    {
      var current := pending[|pending| - 1];
      assert pending == pending[..|pending| - 1] + [current];
      pending := pending[..|pending| - 1];
      if current !in seen {
        seen := seen + {current};
        if current in g {
          if plugin in g[current] {
            FoundNeeds(g, root, current, plugin);
            return true;
          }
          forall d | d in g[current] ensures d in Universe(g, [root]) && Reaches(g, root, d) {
            EdgeLeads(g, current, d);
            LeadsTransitive(g, root, current, d);
          }
          pending := pending + g[current];
        }
      }
    }
    NothingNeedsIt(g, root, plugin, seen);
    needed := false;
  }

  // The enabled ids, other than the plugin itself, that depend on it.
  method RequiredBy(g: Graph, roots: seq<Id>, plugin: Id) returns (requiredBy: seq<Id>)
    ensures forall e :: e in requiredBy <==> e in roots && e != plugin && Leads(g, e, plugin)
  {
    requiredBy := [];
    for i := 0 to |roots|
      invariant forall e :: e in requiredBy <==> e in roots[..i] && e != plugin && Leads(g, e, plugin)
    {
      assert roots[..i + 1] == roots[..i] + [roots[i]];
      if roots[i] != plugin {
        var needed := Requires(g, roots[i], plugin);
        if needed { requiredBy := requiredBy + [roots[i]]; }
      }
    }
    assert roots[..|roots|] == roots;
  }

  /* ----- the stored list ----- */

  // Distinct ids without surrounding space, as every reading gives.
  ghost predicate Normal(xs: seq<Id>) {
    && NoDuplicates(xs)
    && (forall x | x in xs :: x != "" && Trimmed(x))
  }

  lemma ReadIsNormal(file: ConfigFile)
    requires Read(file).Some?
    ensures Normal(Read(file).value.0)
  {
    if file.Document? {
      hide Deduplicated, Strip;
      DeduplicatedIsDistinct(Stripped(file.enabled));
      forall x | x in Deduplicated(Stripped(file.enabled)) ensures x != "" && Trimmed(x) {
        var i :| 0 <= i < |file.enabled| && x == Strip(file.enabled[i]);
        assert file.enabled[i] in file.enabled;
        StripIsTrimmed(file.enabled[i]);
      }
    }
  }

  // A file that is not there is an empty list; one with a blank entry cannot be read; otherwise
  // the ids are those of the entries without the space around them.
  lemma ReadIs(file: ConfigFile, x: Id)
    ensures file.Absent? ==> Read(file) == Some(([], false))
    ensures Read(file).None? <==> file.Unreadable? || (file.Document? && exists i :: 0 <= i < |file.enabled| && Strip(file.enabled[i]) == "")
    ensures file.Document? && Read(file).Some? ==>
              Read(file).value.1 == file.strictStartup
              && (x in Read(file).value.0 <==> exists i :: 0 <= i < |file.enabled| && Strip(file.enabled[i]) == x)
  {
    hide Strip;
    if file.Document? {
      assert (exists e :: e in file.enabled && Strip(e) == "") <==> exists i :: 0 <= i < |file.enabled| && Strip(file.enabled[i]) == "";
      var xs := Stripped(file.enabled);
      assert |xs| == |file.enabled| && forall i | 0 <= i < |xs| :: xs[i] == Strip(file.enabled[i]);
    }
  }

  // A list in normal form is read back as it was written.
  lemma NormalIsReadBack(xs: seq<Id>, strict: bool)
    requires Normal(xs)
    ensures Read(Document(xs, strict)) == Some((xs, strict))
  {
    hide Strip;
    forall x | x in xs ensures Strip(x) == x {
      StripIsTrimmed(x);
    }
    DistinctIsKept(xs);
    hide Deduplicated;
    assert Stripped(xs) == xs;
  }

  lemma RemovedIsNormal(xs: seq<Id>, p: Id)
    requires Normal(xs)
    ensures Normal(Removed(xs, p))
  {
    RemovedIsDistinct(xs, p);
  }

  lemma EditedIsNormal(xs: seq<Id>, p: Id, on: bool)
    requires Normal(xs) && (on ==> p != "" && Trimmed(p))
    ensures Normal(Edited(xs, p, on))
  {
    RemovedIsNormal(xs, p);
  }

  lemma FewerEdgesReachLess(g: Graph, less: Graph, roots: seq<Id>, x: Id)
    requires forall a, b :: Edge(less, a, b) ==> Edge(g, a, b)
    requires Reached(less, roots, x)
    ensures Reached(g, roots, x)
  {
    var r :| r in roots && Reaches(less, r, x);
    if r != x {
      var p :| Path(less, p) && p[0] == r && p[|p| - 1] == x;
      assert Path(g, p);
    }
    assert Reaches(g, r, x);
  }

  // What is put on record about x under its own name: a package that is neither being
  // removed nor unreadable, or, without a package, the running plugin. A name no plugin may
  // have is not looked up at all.
  predicate OnRecord(records: map<Id, Record>, running: Graph, x: Id) {
    ValidName(x) &&
    if Strip(x) in records then
      Strip(x) == x && !records[x].pendingRemove && records[x].dependencies.Some?
    else x in running
  }

  // The dependencies by which the closure of enabled plugins is taken.
  function DesiredGraph(records: map<Id, Record>, running: Graph): Graph {
    map x | x in records.Keys + running.Keys && OnRecord(records, running, x)
      :: if Strip(x) in records then records[x].dependencies.value else running[x]
  }

  // x has the dependencies of its package, if there is one of this very name that is not being
  // removed and can be read; those of the running plugin, if there is no package; and none when
  // its name is none a package may have.
  lemma DesiredGraphIff(records: map<Id, Record>, running: Graph, a: Id, b: Id)
    ensures Edge(DesiredGraph(records, running), a, b) <==>
              && ValidName(a)
              && (Strip(a) in records ==> a == Strip(a) && !records[a].pendingRemove && records[a].dependencies.Some? && b in records[a].dependencies.value)
              && (Strip(a) !in records ==> a in running && b in running[a])
  {
    hide ValidName, Strip;
  }

  // The list as it is read once p has been switched. A name with space around it is not read
  // as it was written, and a blank one makes the list unreadable.
  function Reread(xs: seq<Id>, p: Id, on: bool): Option<seq<Id>> {
    if !on then Some(Removed(xs, p))
    else if Strip(p) == "" then None
    else Some(Edited(xs, Strip(p), true))
  }

  lemma EditedIsReread(xs: seq<Id>, p: Id, on: bool, strict: bool)
    requires Normal(xs)
    ensures Read(Document(Edited(xs, p, on), strict)) ==
            match Reread(xs, p, on) case None => None case Some(ys) => Some((ys, strict))
  {
    hide Strip, Deduplicated;
    StripIsTrimmed(p);
    if !on || Strip(p) == p != "" {
      EditedIsNormal(xs, p, on);
      NormalIsReadBack(Edited(xs, p, on), strict);
    } else {
      SpacedIsReread(xs, p, strict);
    }
  }

  lemma SpacedIsReread(xs: seq<Id>, p: Id, strict: bool)
    requires Normal(xs) && (Strip(p) != p || p == "")
    ensures p !in xs
    ensures Read(Document(xs + [p], strict)) ==
            match Reread(xs, p, true) case None => None case Some(ys) => Some((ys, strict))
  {
    hide Strip, Deduplicated;
    StripIsTrimmed(p);
    forall x | x in xs ensures Strip(x) == x {
      StripIsTrimmed(x);
    }
    assert p in xs + [p];
    if Strip(p) != "" {
      var q := Strip(p);
      assert Stripped(xs + [p]) == xs + [q];
      OneMoreDeduplicated(xs, q);
    }
  }

  lemma OneMoreDeduplicated(xs: seq<Id>, q: Id)
    requires Normal(xs)
    ensures Deduplicated(xs + [q]) == if q in xs then xs else xs + [q]
  {
    DistinctIsKept(xs);
    assert (xs + [q])[..|xs|] == xs;
  }

  class DesiredState {
    // what the process was started with
    const running: Graph
    const statusIds: set<Id>
    const applied: set<Id>
    const override: Option<seq<Id>>
    const packagesReadOnly: bool

    // what is stored
    var records: map<Id, Record>
    var file: ConfigFile

    function Desired(): Graph
      reads this
    {
      DesiredGraph(records, running)
    }

    // The ids enabled by name; None when the file cannot be read.
    function Explicit(): Option<seq<Id>>
      reads this
    {
      if override.Some? then override
      else match Read(file)
        case Some(content) => Some(content.0)
        case None => None
    }

    predicate Known(p: Id)
      reads this
    {
      p in records || p in statusIds
    }

    // Nothing outside keeps the stored list from being edited.
    predicate Editable()
      reads this
    {
      override.None? && Read(file).Some?
    }

    method IsRequired(p: Id) returns (required: bool)
      requires Explicit().Some?
      ensures required <==> Reached(Desired(), Removed(Explicit().value, p), p)
      ensures override.Some? ==> (required <==> Reached(Desired(), Removed(override.value, p), p))
      ensures override.None? ==> (required <==> Reached(Desired(), Removed(Read(file).value.0, p), p))
    {
      hide Leads, Read;
      var requiredBy := RequiredBy(Desired(), Explicit().value, p);
      required := requiredBy != [];
      if required {
        assert requiredBy[0] in requiredBy;
      }
    }

    // Switching on is refused for unknown plugins only. Switching off is refused exactly
    // when the closure of the list without the plugin would still hold it.
    method SetEnabled(p: Id, on: bool, writeFails: bool) returns (ok: bool)
      modifies this
      ensures ok <==>
        old(Editable()) && old(Known(p)) && !writeFails
        && (on || !Reached(old(Desired()), Removed(old(Explicit()).value, p), p))
      ensures ok ==> file == Document(Edited(old(Explicit()).value, p, on), old(Read(file)).value.1)
      ensures ok ==> Explicit() == Reread(old(Explicit()).value, p, on)
      // a new id goes to the end, any other list stays; the strict flag is kept
      ensures ok ==> file.Document? && file.strictStartup == old(Read(file)).value.1
      ensures ok && on && p !in old(Explicit()).value ==> file.enabled == old(Explicit()).value + [p]
      ensures ok && on && p in old(Explicit()).value ==> file.enabled == old(Explicit()).value
      ensures ok && !on ==> forall x :: x in file.enabled <==> x in old(Explicit()).value && x != p
      // afterwards the plugin is in the closure just when it was switched on
      ensures ok && (!on || Strip(p) == p != "") ==> Explicit().Some? && (Reached(Desired(), Explicit().value, p) <==> on)
      ensures !ok ==> file == old(file)
      // switching on takes a pending removal back, even when the list cannot be written
      ensures records ==
        if override.None? && on && p in old(records) then old(records)[p := old(records)[p].(pendingRemove := false)]
        else old(records)
    {
      hide Reached, Read, Edited, Normal, Strip;
      if override.Some? { return false; }
      if p in records && records[p].pendingRemove && on {
        records := records[p := records[p].(pendingRemove := false)];
      } else if p !in records && p !in statusIds {
        return false;
      }
      assert on && p in old(records) ==> records == old(records)[p := old(records)[p].(pendingRemove := false)];
      var content := Read(file);
      if content.None? { return false; }
      if !on {
        var required := IsRequired(p);
        if required { return false; }
      }
      if writeFails { return false; }
      ReadIsNormal(file);
      EditedIsReread(content.value.0, p, on, content.value.1);
      file := Document(Edited(content.value.0, p, on), content.value.1);
      EditedHolds(Desired(), content.value.0, p, on);
      ok := true;
    }

    // Taking a package off: the list is edited first and put back when the record cannot be
    // marked. Only a failing restoration leaves anything behind. The record is found under
    // the stripped name, the list and the guard go by the name as given.
    method Uninstall(p: Id, writeFails: bool, storeFails: bool, restoreFails: bool) returns (ok: bool)
      modifies this
      ensures ok <==>
        !packagesReadOnly && old(Editable()) && ValidName(p) && Strip(p) in old(records) && !writeFails && !storeFails
        && !Reached(old(Desired()), Removed(old(Explicit()).value, p), p)
      ensures ok ==> records == old(records)[Strip(p) := old(records)[Strip(p)].(pendingRemove := true)]
      ensures ok ==> Explicit() == Some(Removed(old(Explicit()).value, p))
      ensures ok ==> !Reached(Desired(), Explicit().value, p)
      ensures !ok ==> records == old(records)
      ensures !ok && !(storeFails && restoreFails) ==> Read(file) == old(Read(file)) && file.Absent? == old(file.Absent?)
    {
      hide Reached, Read, Removed, Normal, Strip, IsSlug;
      if packagesReadOnly || override.Some? || !ValidName(p) || Strip(p) !in records { return false; }
      var content := Read(file);
      if content.None? { return false; }
      var required := IsRequired(p);
      if required { return false; }
      var existed := !file.Absent?;
      if writeFails { return false; }
      ReadIsNormal(file);
      RemovedIsNormal(content.value.0, p);
      NormalIsReadBack(content.value.0, content.value.1);
      NormalIsReadBack(Removed(content.value.0, p), content.value.1);
      file := Document(Removed(content.value.0, p), content.value.1);
      if storeFails {
        if !restoreFails {
          file := if existed then Document(content.value.0, content.value.1) else Absent;
        }
        return false;
      }
      records := records[Strip(p) := records[Strip(p)].(pendingRemove := true)];
      MarkedReachesLess(old(records), running, Strip(p), p, file.enabled);
      ok := true;
    }

    // Whether a restart would change which plugins are started.
    method RestartRequired(otherChanges: bool) returns (required: bool)
      requires Explicit().Some?
      ensures required <==> otherChanges || !(forall x :: x in applied <==> Reached(Desired(), Explicit().value, x))
      // an override from outside stands in for the stored list
      ensures override.Some? ==> Explicit() == override
      ensures override.None? ==> Explicit() == Some(Read(file).value.0)
    {
      hide Reached;
      var desired := DesiredEnabled(Desired(), Explicit().value);
      required := desired != applied || otherChanges;
    }
  }

  lemma EditedHolds(g: Graph, xs: seq<Id>, p: Id, on: bool)
    requires on || !Reached(g, Removed(xs, p), p)
    ensures Reached(g, Edited(xs, p, on), p) <==> on
    ensures on ==> Edited(xs, p, on) == if p in xs then xs else xs + [p]
    ensures !on ==> forall x :: x in Edited(xs, p, on) <==> x in xs && x != p
  {
    if on {
      assert p in Edited(xs, p, on) && Reaches(g, p, p);
    }
  }

  lemma MarkedReachesLess(records: map<Id, Record>, running: Graph, q: Id, p: Id, roots: seq<Id>)
    requires q in records && !Reached(DesiredGraph(records, running), roots, p)
    ensures !Reached(DesiredGraph(records[q := records[q].(pendingRemove := true)], running), roots, p)
  {
    var g, less := DesiredGraph(records, running), DesiredGraph(records[q := records[q].(pendingRemove := true)], running);
    hide Strip, IsSlug, Reached;
    if Reached(less, roots, p) {
      FewerEdgesReachLess(g, less, roots, p);
      assert false;
    }
  }
}
