/**
 Passwords in plugin settings: blanking them for display, and putting them back when a
 displayed value is saved.
 */
module SettingsSecrets {
  import opened Outcomes
  import opened SettingsSchema

  type Path = seq<string>

  const BLANK := Str("")

  function Redact(s: Schema, v: Json, sensitive: set<Path>, path: Path): Json {
    if !s.kind.Object? || !v.Obj? then Obj(map[])
    else Obj(map k | k in s.properties && k in v.fields ::
               if path + [k] in sensitive || s.properties[k].IsPassword() then BLANK
               else if s.properties[k].kind.Object? then Redact(s.properties[k], v.fields[k], sensitive, path + [k])
               else v.fields[k])
  }

  function Preserve(s: Schema, v: Json, existing: Option<Json>): Json {
    if !s.kind.Object? || !v.Obj? then v
    else
      var stored := if existing.Some? && existing.value.Obj? then existing.value.fields else map[];
      Obj(map k | k in v.fields ::
            if k !in s.properties then v.fields[k]
            else if s.properties[k].IsPassword() && v.fields[k] == BLANK && k in stored then stored[k]
            else if s.properties[k].kind.Object? then
              Preserve(s.properties[k], v.fields[k], if k in stored then Some(stored[k]) else None)
            else v.fields[k])
  }

  function PasswordPaths(s: Schema, path: Path): set<Path> {
    if !s.kind.Object? then {}
    else
      (set k | k in s.properties && s.properties[k].IsPassword() :: path + [k])
      + (set k, p | k in s.properties && !s.properties[k].IsPassword() && p in PasswordPaths(s.properties[k], path + [k]) :: p)
  }

  // The property a path leads to, with its value.
  function At(s: Schema, v: Json, p: Path): Option<(Schema, Json)> {
    if p == [] then Some((s, v))
    else if s.kind.Object? && v.Obj? && p[0] in s.properties && p[0] in v.fields then
      At(s.properties[p[0]], v.fields[p[0]], p[1..])
    else None
  }

  // What is sensitive below a path and not a password of the schema is empty anyway.
  ghost predicate NothingElseHidden(s: Schema, v: Json, sensitive: set<Path>, path: Path) {
    forall p: Path | p != [] && path + p in sensitive && At(s, v, p).Some? ::
      At(s, v, p).value.0.IsPassword() || At(s, v, p).value.1 == BLANK
  }

  // The same, property by property.
  ghost predicate FieldKept(s: Schema, v: Json, sensitive: set<Path>, path: Path, k: string)
    requires s.kind.Object? && v.Obj? && k in s.properties && k in v.fields
  {
    && (path + [k] in sensitive && !s.properties[k].IsPassword() ==> v.fields[k] == BLANK)
    && NothingElseHidden(s.properties[k], v.fields[k], sensitive, path + [k])
  }

  lemma HiddenByField(s: Schema, v: Json, sensitive: set<Path>, path: Path)
    requires s.kind.Object? && v.Obj?
    ensures NothingElseHidden(s, v, sensitive, path) <==>
              forall k | k in s.properties && k in v.fields :: FieldKept(s, v, sensitive, path, k)
  {
    if NothingElseHidden(s, v, sensitive, path) {
      forall k | k in s.properties && k in v.fields ensures FieldKept(s, v, sensitive, path, k) {
        assert At(s, v, [k]) == Some((s.properties[k], v.fields[k]));
        forall q: Path | q != [] && (path + [k]) + q in sensitive && At(s.properties[k], v.fields[k], q).Some?
          ensures At(s.properties[k], v.fields[k], q).value.0.IsPassword() || At(s.properties[k], v.fields[k], q).value.1 == BLANK
        {
          assert (path + [k]) + q == path + ([k] + q);
          assert ([k] + q)[1..] == q;
          assert At(s, v, [k] + q) == At(s.properties[k], v.fields[k], q);
        }
      }
    }
    if forall k | k in s.properties && k in v.fields :: FieldKept(s, v, sensitive, path, k) {
      forall p: Path | p != [] && path + p in sensitive && At(s, v, p).Some?
        ensures At(s, v, p).value.0.IsPassword() || At(s, v, p).value.1 == BLANK
      {
        var k, q := p[0], p[1..];
        assert FieldKept(s, v, sensitive, path, k);
        assert p == [k] + q && path + p == (path + [k]) + q;
        if q == [] { assert path + p == path + [k]; }
      }
    }
  }

  // An object with declared properties only, and so are those of its properties that should
  // be objects and are not blanked as a whole.
  ghost predicate Shaped(s: Schema, v: Json, sensitive: set<Path>, path: Path) {
    if !s.kind.Object? then v == Obj(map[])
    else
      && v.Obj? && v.fields.Keys <= s.properties.Keys
      && forall k | k in s.properties && k in v.fields && s.properties[k].kind.Object? && path + [k] !in sensitive ::
           Shaped(s.properties[k], v.fields[k], sensitive, path + [k])
  }

  // Saving what is displayed of a stored value restores it exactly when the value has the
  // shape of the schema, and nothing but current passwords, and what was empty anyway, has
  // been blanked.
  lemma {:induction false} RoundTripIff(s: Schema, v: Json, sensitive: set<Path>, path: Path)
    ensures Preserve(s, Redact(s, v, sensitive, path), Some(v)) == v <==>
              Shaped(s, v, sensitive, path) && NothingElseHidden(s, v, sensitive, path)
    decreases s
  {
    if !s.kind.Object? {
      LeafHidesNothing(s, v, sensitive, path);
    } else if v.Obj? {
      HiddenByField(s, v, sensitive, path);
      var r := Preserve(s, Redact(s, v, sensitive, path), Some(v));
      assert r.Obj? && r.fields.Keys == v.fields.Keys * s.properties.Keys;
      forall k | k in v.fields && k in s.properties
        ensures r.fields[k] == v.fields[k] <==>
                  FieldKept(s, v, sensitive, path, k) && FieldShaped(s, v, sensitive, path, k)
      {
        RoundTripIff(s.properties[k], v.fields[k], sensitive, path + [k]);
        FieldRoundTrip(s, v, sensitive, path, k);
      }
      hide Preserve, Redact, FieldKept, NothingElseHidden;
      if v.fields.Keys <= s.properties.Keys && forall k | k in v.fields :: r.fields[k] == v.fields[k] {
        assert r.fields == v.fields;
      }
    }
  }

  ghost predicate FieldShaped(s: Schema, v: Json, sensitive: set<Path>, path: Path, k: string)
    requires s.kind.Object? && v.Obj? && k in v.fields && k in s.properties
  {
    s.properties[k].kind.Object? && path + [k] !in sensitive ==>
      Shaped(s.properties[k], v.fields[k], sensitive, path + [k])
  }

  // What comes back of one property.
  lemma FieldReturned(s: Schema, v: Json, sensitive: set<Path>, path: Path, k: string)
    requires s.kind.Object? && v.Obj? && k in v.fields && k in s.properties
    ensures var r, child, x := Preserve(s, Redact(s, v, sensitive, path), Some(v)), s.properties[k], v.fields[k];
      && r.Obj? && k in r.fields
      && r.fields[k] ==
         if child.IsPassword() then x
         else if path + [k] in sensitive then BLANK
         else if child.kind.Object? then Preserve(child, Redact(child, x, sensitive, path + [k]), Some(x))
         else x
  {}

  lemma FieldRoundTrip(s: Schema, v: Json, sensitive: set<Path>, path: Path, k: string)
    requires s.kind.Object? && v.Obj? && k in v.fields && k in s.properties
    requires var child, x := s.properties[k], v.fields[k];
      Preserve(child, Redact(child, x, sensitive, path + [k]), Some(x)) == x <==>
        Shaped(child, x, sensitive, path + [k]) && NothingElseHidden(child, x, sensitive, path + [k])
    ensures var r := Preserve(s, Redact(s, v, sensitive, path), Some(v));
      && r.Obj? && k in r.fields
      && (r.fields[k] == v.fields[k] <==> FieldKept(s, v, sensitive, path, k) && FieldShaped(s, v, sensitive, path, k))
  {
    FieldReturned(s, v, sensitive, path, k);
    var child, x := s.properties[k], v.fields[k];
    if !child.kind.Object? {
      LeafHidesNothing(child, x, sensitive, path + [k]);
    } else if x == BLANK {
      BlankHidesNothing(child, sensitive, path + [k]);
    }
    hide Preserve, Redact, NothingElseHidden, Shaped;
  }

  lemma BlankHidesNothing(s: Schema, sensitive: set<Path>, path: Path)
    ensures NothingElseHidden(s, BLANK, sensitive, path)
  {}

  lemma LeafHidesNothing(s: Schema, v: Json, sensitive: set<Path>, path: Path)
    requires !s.kind.Object?
    ensures NothingElseHidden(s, v, sensitive, path)
  {}

  lemma AtStep(s: Schema, v: Json, k: string, rest: Path)
    ensures At(s, v, [k] + rest) ==
            if s.kind.Object? && v.Obj? && k in s.properties && k in v.fields then At(s.properties[k], v.fields[k], rest) else None
  {
    assert ([k] + rest)[1..] == rest;
  }

  lemma AtEnd(s: Schema, v: Json)
    ensures At(s, v, []) == Some((s, v))
  {}

  lemma PasswordPathStep(s: Schema, path: Path, p: Path) returns (k: string)
    requires p in PasswordPaths(s, path)
    ensures k in s.properties &&
            if s.properties[k].IsPassword() then p == path + [k] else p in PasswordPaths(s.properties[k], path + [k])
  {
    k :| k in s.properties &&
         if s.properties[k].IsPassword() then p == path + [k] else p in PasswordPaths(s.properties[k], path + [k]);
  }

  lemma {:induction false} PasswordPathLeads(s: Schema, v: Json, path: Path, p: Path) returns (q: Path)
    requires p in PasswordPaths(s, path)
    ensures p == path + q && q != []
    ensures At(s, v, q).Some? ==> At(s, v, q).value.0.IsPassword()
    decreases s
  {
    hide At, PasswordPaths;
    var k := PasswordPathStep(s, path, p);
    var child, x := s.properties[k], if v.Obj? && k in v.fields then v.fields[k] else Null;
    if child.IsPassword() {
      q := [k] + [];
      AtStep(s, v, k, []);
      AtEnd(child, x);
    } else {
      var rest := PasswordPathLeads(child, x, path + [k], p);
      q := [k] + rest;
      AtStep(s, v, k, rest);
      assert (path + [k]) + rest == path + q;
    }
  }

  // The property a path of names leads to in a schema.
  function PropertyAt(s: Schema, q: Path): Option<Schema> {
    if q == [] then Some(s)
    else if s.kind.Object? && q[0] in s.properties then PropertyAt(s.properties[q[0]], q[1..])
    else None
  }

  // The password paths are those that lead to a password.
  lemma {:induction false} PasswordPathsIff(s: Schema, path: Path, q: Path)
    ensures path + q in PasswordPaths(s, path) <==> q != [] && PropertyAt(s, q).Some? && PropertyAt(s, q).value.IsPassword()
    decreases |q|
  {
    if q == [] {
      assert path + q == path;
      if path in PasswordPaths(s, path) {
        var r := PasswordPathLeads(s, Null, path, path);
      }
    } else if s.kind.Object? {
      var k, rest := q[0], q[1..];
      assert path + q == (path + [k]) + rest;
      forall j | j in s.properties && !s.properties[j].IsPassword() && path + q in PasswordPaths(s.properties[j], path + [j]) ensures j == k {
        var r := PasswordPathLeads(s.properties[j], Null, path + [j], path + q);
        assert (path + q)[|path|] == k && ((path + [j]) + r)[|path|] == j;
      }
      forall j | j in s.properties && path + q == path + [j] ensures j == k && rest == [] {
        assert (path + q)[|path|] == k && (path + [j])[|path|] == j;
      }
      if k in s.properties {
        PasswordPathsIff(s.properties[k], path + [k], rest);
        if rest == [] { assert q == [k]; }
      }
    }
  }

  // What the schema accepts has its shape.
  lemma {:induction false} NormalIsShaped(s: Schema, v: Json, sensitive: set<Path>, path: Path)
    requires s.kind.Object? && Normalize(Sparse(s), v) == Some(v)
    ensures Shaped(s, v, sensitive, path)
    decreases s
  {
    NormalizedField(Sparse(s), v, "");
    SparseProperties(s);
    forall k | k in v.fields
      ensures k in s.properties && (s.properties[k].kind.Object? ==> Shaped(s.properties[k], v.fields[k], sensitive, path + [k]))
    {
      NormalizedField(Sparse(s), v, k);
      if s.properties[k].kind.Object? { NormalIsShaped(s.properties[k], v.fields[k], sensitive, path + [k]); }
    }
  }

  // With only current password paths blanked, nothing is lost but what has not the shape of
  // the schema; so nothing of a value the schema accepts.
  lemma CurrentPasswordsAreRestored(s: Schema, v: Json, sensitive: set<Path>)
    requires sensitive <= PasswordPaths(s, [])
    ensures Preserve(s, Redact(s, v, sensitive, []), Some(v)) == v <==> Shaped(s, v, sensitive, [])
    ensures s.kind.Object? && Normalize(Sparse(s), v) == Some(v) ==> Preserve(s, Redact(s, v, sensitive, []), Some(v)) == v
  {
    forall p: Path | p != [] && [] + p in sensitive && At(s, v, p).Some? ensures At(s, v, p).value.0.IsPassword() {
      assert [] + p == p;
      var q := PasswordPathLeads(s, v, [], p);
      assert [] + q == q;
    }
    RoundTripIff(s, v, sensitive, []);
    if s.kind.Object? && Normalize(Sparse(s), v) == Some(v) { NormalIsShaped(s, v, sensitive, []); }
  }

  // The stored value at a path, if there is one.
  function StoredAt(s: Schema, existing: Option<Json>, q: Path): Option<Json> {
    if existing.None? then None
    else match At(s, existing.value, q)
      case None => None
      case Some((_, x)) => Some(x)
  }

  // What is kept at one path: the value given there, except that a password given blank
  // stays what is stored at that path, if anything is. An object given keeps its keys.
  ghost predicate KeptAt(s: Schema, v: Json, existing: Option<Json>, kept: Json, q: Path) {
    && (At(s, kept, q).Some? <==> At(s, v, q).Some?)
    && (At(s, v, q).Some? ==>
          var (child, given) := At(s, v, q).value;
          var (child', x) := At(s, kept, q).value;
          && child' == child
          && (child.IsPassword() && given == BLANK && StoredAt(s, existing, q).Some? ==> x == StoredAt(s, existing, q).value)
          && (child.IsPassword() && (given != BLANK || StoredAt(s, existing, q).None?) ==> x == given)
          && (!child.IsPassword() && !(child.kind.Object? && given.Obj?) ==> x == given)
          && (child.kind.Object? && given.Obj? ==>
                x.Obj? && x.fields.Keys == given.fields.Keys
                && forall k | k in given.fields && k !in child.properties :: x.fields[k] == given.fields[k]))
  }

  lemma PreservedField(s: Schema, v: Json, existing: Option<Json>, k: string)
    requires s.kind.Object? && v.Obj? && k in v.fields && k in s.properties
    ensures var r, child := Preserve(s, v, existing), s.properties[k];
      var old' := if existing.Some? && existing.value.Obj? && k in existing.value.fields then Some(existing.value.fields[k]) else None;
      && r.Obj? && k in r.fields
      && r.fields[k] ==
           if child.IsPassword() && v.fields[k] == BLANK && old'.Some? then old'.value
           else if child.kind.Object? then Preserve(child, v.fields[k], old')
           else v.fields[k]
  {}

  lemma AtRoot(s: Schema, v: Json, existing: Option<Json>)
    requires s.kind.Object?
    ensures KeptAt(s, v, existing, Preserve(s, v, existing), [])
  {}

  lemma AtLeaf(child: Schema, x: Json, q: Path)
    requires !child.kind.Object? && q != []
    ensures At(child, x, q).None?
  {}

  // Below a property, paths lead where they lead from its value.
  lemma KeptBelow(s: Schema, v: Json, existing: Option<Json>, kept: Json, k: string, q: Path)
    requires s.kind.Object? && v.Obj? && kept.Obj? && k in v.fields && k in kept.fields && k in s.properties
    requires var old' := if existing.Some? && existing.value.Obj? && k in existing.value.fields then Some(existing.value.fields[k]) else None;
      KeptAt(s.properties[k], v.fields[k], old', kept.fields[k], q)
    ensures KeptAt(s, v, existing, kept, [k] + q)
  {
    AtStep(s, v, k, q);
    AtStep(s, kept, k, q);
    if existing.Some? { AtStep(s, existing.value, k, q); }
    hide At;
  }

  // Filling in blanks from what is stored gives, at every path, what was given there, but for
  // passwords left blank.
  lemma {:induction false} PreservedAt(s: Schema, v: Json, existing: Option<Json>, q: Path)
    requires s.kind.Object?
    ensures KeptAt(s, v, existing, Preserve(s, v, existing), q)
    decreases |q|
  {
    var r := Preserve(s, v, existing);
    if q == [] {
      AtRoot(s, v, existing);
    } else if v.Obj? && q[0] in v.fields && q[0] in s.properties {
      var k, rest := q[0], q[1..];
      var child, x := s.properties[k], v.fields[k];
      var old' := if existing.Some? && existing.value.Obj? && k in existing.value.fields then Some(existing.value.fields[k]) else None;
      PreservedField(s, v, existing, k);
      if child.kind.Object? {
        PreservedAt(child, x, old', rest);
      } else {
        LeafKept(child, x, old', r.fields[k], rest);
      }
      hide At, Preserve;
      KeptBelow(s, v, existing, r, k, rest);
      assert q == [k] + rest;
    }
  }

  lemma LeafKept(child: Schema, x: Json, existing: Option<Json>, kept: Json, q: Path)
    requires !child.kind.Object?
    requires kept == if child.IsPassword() && x == BLANK && existing.Some? then existing.value else x
    ensures KeptAt(child, x, existing, kept, q)
  {
    if q != [] {
      AtLeaf(child, x, q);
      AtLeaf(child, kept, q);
    }
  }

  // Each value displayed is blank when it is sensitive or a password; any other value that is
  // not an object itself is displayed as it is stored.
  lemma {:induction false} DisplayedAt(s: Schema, v: Json, sensitive: set<Path>, path: Path, q: Path)
    requires q != [] && At(s, Redact(s, v, sensitive, path), q).Some?
    ensures At(s, v, q).Some? && At(s, v, q).value.0 == At(s, Redact(s, v, sensitive, path), q).value.0
    ensures var (child, shown) := At(s, Redact(s, v, sensitive, path), q).value;
      if path + q in sensitive || child.IsPassword() then shown == BLANK
      else child.kind.Object? || shown == At(s, v, q).value.1
    decreases s
  {
    var k := q[0];
    var child := s.properties[k];
    assert q == [k] + q[1..];
    if q[1..] == [] {
      assert path + q == path + [k];
    } else {
      assert child.kind.Object? && !(path + [k] in sensitive || child.IsPassword());
      DisplayedAt(child, v.fields[k], sensitive, path + [k], q[1..]);
      assert path + q == (path + [k]) + q[1..];
    }
  }
}
