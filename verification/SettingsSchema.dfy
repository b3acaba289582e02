/**
 Plugin settings as JSON values, their schemas, and the two ways a value is checked against
 a schema: in full, with defaults filled in, and sparsely, as it is stored.
 */
module SettingsSchema {
  import opened Outcomes

  datatype Json =
    | Null
    | Bool(flag: bool)
    | Int(whole: int)
    | Float(fraction: real)
    | Str(text: string)
    | Arr(items: seq<Json>)
    | Obj(fields: map<string, Json>)
  {
    // int or float; bool is not counted as a number here.
    predicate Numeric() {
      Int? || Float?
    }

    function Number(): real
      requires Numeric() || Bool?
    {
      match this
      case Bool(b) => if b then 1.0 else 0.0
      case Int(i) => i as real
      case Float(r) => r
    }
  }

  // Equality of Python: numbers by value, True as 1 and False as 0.
  predicate Equal(a: Json, b: Json) {
    if (a.Numeric() || a.Bool?) && (b.Numeric() || b.Bool?) then a.Number() == b.Number()
    else match (a, b)
      case (Arr(xs), Arr(ys)) => |xs| == |ys| && forall i | 0 <= i < |xs| :: Equal(xs[i], ys[i])
      case (Obj(f), Obj(g)) => f.Keys == g.Keys && forall k | k in f :: Equal(f[k], g[k])
      case _ => a == b
  }

  datatype Kind = Object | Text | Number | Integer | Boolean | Strings

  datatype Format = Plain | Password | Uri | Multiline

  datatype Schema = Schema(
    kind: Kind, format: Format, default: Option<Json>, choices: Option<seq<Json>>,
    minimum: Option<Json>, maximum: Option<Json>,
    properties: map<string, Schema>, required: seq<string>, items: Option<Schema>)
  {
    predicate IsPassword() {
      kind.Text? && format.Password?
    }
  }

  // The text before the first colon is a letter followed by letters, digits, "+", "-", ".".
  predicate HasScheme(s: string) {
    exists i | 0 < i < |s| :: s[i] == ':' && IsLetter(s[0]) && forall j | 0 < j < i :: IsSchemeChar(s[j])
  }

  predicate IsLetter(c: char) {
    'a' <= c <= 'z' || 'A' <= c <= 'Z'
  }

  predicate IsSchemeChar(c: char) {
    IsLetter(c) || '0' <= c <= '9' || c in "+-."
  }

  predicate OfKind(s: Schema, v: Json) {
    match s.kind
    case Object => v.Obj?
    case Text => v.Str? && (s.format.Uri? ==> HasScheme(v.text))
    case Number => v.Numeric()
    case Integer => v.Int?
    case Boolean => v.Bool?
    case Strings => v.Arr? && forall x | x in v.items :: x.Str?
  }

  // Comparing anything but two numbers raises; in particular a bound of null always does.
  predicate AtLeast(v: Json, bound: Json) {
    v.Numeric() && bound.Numeric() && v.Number() >= bound.Number()
  }

  predicate Accepts(s: Schema, v: Json) {
    && OfKind(s, v)
    && (s.choices.Some? ==> exists x :: x in s.choices.value && Equal(v, x))
    && (s.minimum.Some? ==> AtLeast(v, s.minimum.value))
    && (s.maximum.Some? ==> AtLeast(s.maximum.value, v))
  }

  // What a property is checked on: its value, its default when it is missing, or nothing.
  function Input(s: Schema, fields: map<string, Json>, k: string): Option<Json>
    requires k in s.properties
  {
    if k in fields then Some(fields[k]) else s.properties[k].default
  }

  predicate RequiredGiven(s: Schema, fields: map<string, Json>) {
    forall k | k in s.properties && Input(s, fields, k).None? :: k !in s.required
  }

  // The value with defaults filled in, or nothing when it does not fit the schema.
  function Normalize(s: Schema, v: Json): Option<Json> {
    if !s.kind.Object? then
      if Accepts(s, v) then Some(v) else None
    else if !v.Obj? || !(v.fields.Keys <= s.properties.Keys) || !RequiredGiven(s, v.fields) then None
    else if forall k | k in s.properties && Input(s, v.fields, k).Some? ::
              Normalize(s.properties[k], Input(s, v.fields, k).value).Some?
    then Some(Obj(map k | k in s.properties && Input(s, v.fields, k).Some? ::
                    Normalize(s.properties[k], Input(s, v.fields, k).value).value))
    else None
  }

  // The schema settings are stored under: nothing is required and nothing has a default.
  function Sparse(s: Schema): Schema {
    match s.kind
    case Object => s.(default := None, required := [], properties := map k | k in s.properties :: Sparse(s.properties[k]))
    case Strings => s.(default := None, items := if s.items.Some? then Some(Sparse(s.items.value)) else None)
    case _ => s.(default := None)
  }

  predicate ValidBound(s: Schema, bound: Option<Json>) {
    bound.Some? && !bound.value.Null? ==> (s.kind.Number? || s.kind.Integer?) && bound.value.Numeric()
  }

  // The schemas a plugin may ship.
  predicate ValidSchema(s: Schema) {
    && (s.choices.Some? ==> s.choices.value != [])
    && (match s.kind
        case Object => (forall k | k in s.required :: k in s.properties) && forall k | k in s.properties :: ValidSchema(s.properties[k])
        case Strings => s.items.Some? && s.items.value.kind.Text? && ValidSchema(s.items.value)
        case _ => s.properties == map[] && s.required == [] && s.items.None?)
    && ValidBound(s, s.minimum) && ValidBound(s, s.maximum)
    && (s.minimum.Some? && s.maximum.Some? && s.minimum.value.Numeric() && s.maximum.value.Numeric() ==>
          s.minimum.value.Number() <= s.maximum.value.Number())
    && (s.choices.Some? ==> forall x | x in s.choices.value :: Normalize(s.(default := None, choices := None), x).Some?)
    && (s.default.Some? ==> Normalize(s, s.default.value).Some?)
  }

  // The plain values a schema accepts: of its kind, equal to a choice if there are choices, and
  // within its bounds, if these are numbers; a bound of null refuses everything.
  lemma PlainAcceptedIff(s: Schema, v: Json)
    requires !s.kind.Object?
    ensures Normalize(s, v) == Some(v) || Normalize(s, v) == None
    ensures Normalize(s, v).Some? <==>
              && (s.kind.Text? ==> v.Str? && (s.format.Uri? ==> exists scheme, rest :: v.text == scheme + ":" + rest && IsScheme(scheme)))
              && (s.kind.Number? ==> v.Int? || v.Float?) && (s.kind.Integer? ==> v.Int?) && (s.kind.Boolean? ==> v.Bool?)
              && (s.kind.Strings? ==> v.Arr? && forall i | 0 <= i < |v.items| :: v.items[i].Str?)
              && (s.choices.Some? ==> exists i :: 0 <= i < |s.choices.value| && Equal(v, s.choices.value[i]))
              && (s.minimum.Some? ==> (v.Int? || v.Float?) && (s.minimum.value.Int? || s.minimum.value.Float?) && RealOf(s.minimum.value) <= RealOf(v))
              && (s.maximum.Some? ==> (v.Int? || v.Float?) && (s.maximum.value.Int? || s.maximum.value.Float?) && RealOf(v) <= RealOf(s.maximum.value))
  {
    if v.Str? { SchemeIff(v.text); }
    if v.Arr? { assert (forall x | x in v.items :: x.Str?) <==> forall i | 0 <= i < |v.items| :: v.items[i].Str?; }
    if s.choices.Some? {
      var xs := s.choices.value;
      assert (exists x :: x in xs && Equal(v, x)) <==> exists i :: 0 <= i < |xs| && Equal(v, xs[i]);
    }
  }

  function RealOf(v: Json): real
    requires v.Int? || v.Float?
  {
    match v
    case Int(i) => i as real
    case Float(r) => r
  }

  // A letter, then letters, digits, "+", "-" and ".".
  predicate IsScheme(s: string) {
    && s != "" && ('a' <= s[0] <= 'z' || 'A' <= s[0] <= 'Z')
    && forall c | c in s :: 'a' <= c <= 'z' || 'A' <= c <= 'Z' || '0' <= c <= '9' || c == '+' || c == '-' || c == '.'
  }

  lemma SchemeIff(text: string)
    ensures HasScheme(text) <==> exists scheme, rest :: text == scheme + ":" + rest && IsScheme(scheme)
  {
    if HasScheme(text) {
      var i :| 0 < i < |text| && text[i] == ':' && IsLetter(text[0]) && forall j | 0 < j < i :: IsSchemeChar(text[j]);
      assert text == text[..i] + ":" + text[i + 1..];
      assert IsScheme(text[..i]);
    }
    if scheme, rest :| text == scheme + ":" + rest && IsScheme(scheme) {
      assert text[|scheme|] == ':' && forall j | 0 <= j < |scheme| :: text[j] == scheme[j];
      assert forall j | 0 <= j < |scheme| :: scheme[j] in scheme;
    }
  }

  /* ----- what normalising gives ----- */

  lemma {:induction false} EqualIsReflexive(v: Json)
    ensures Equal(v, v)
  {
    match v
    case Arr(xs) => forall i | 0 <= i < |xs| ensures Equal(xs[i], xs[i]) { EqualIsReflexive(xs[i]); }
    case Obj(f) => forall k | k in f ensures Equal(f[k], f[k]) { EqualIsReflexive(f[k]); }
    case _ =>
  }

  // The normal form of one property.
  lemma NormalizedField(s: Schema, v: Json, k: string)
    requires s.kind.Object? && Normalize(s, v).Some?
    ensures v.Obj? && Normalize(s, v).value.Obj?
    ensures k in Normalize(s, v).value.fields <==> k in s.properties && Input(s, v.fields, k).Some?
    ensures k in Normalize(s, v).value.fields ==>
              Normalize(s.properties[k], Input(s, v.fields, k).value) == Some(Normalize(s, v).value.fields[k])
    ensures k in s.properties && Input(s, v.fields, k).None? ==> k !in s.required && k !in v.fields
  {}

  // Built up again from its properties.
  lemma NormalizedFrom(s: Schema, v: Json, w: map<string, Json>)
    requires s.kind.Object? && v.Obj? && v.fields.Keys <= s.properties.Keys && RequiredGiven(s, v.fields)
    requires forall k :: k in w <==> k in s.properties && Input(s, v.fields, k).Some?
    requires forall k | k in w :: Normalize(s.properties[k], Input(s, v.fields, k).value) == Some(w[k])
    ensures Normalize(s, v) == Some(Obj(w))
  {
    var out := map k | k in s.properties && Input(s, v.fields, k).Some? ::
      (assert k in w; Normalize(s.properties[k], Input(s, v.fields, k).value).value);
    assert out == w;
  }

  // Normal values are left alone, so normalising twice is normalising once.
  lemma {:induction false} NormalizeIsIdempotent(s: Schema, v: Json)
    requires Normalize(s, v).Some?
    ensures Normalize(s, Normalize(s, v).value) == Normalize(s, v)
  {
    if s.kind.Object? {
      var w := Normalize(s, v).value;
      NormalizedField(s, v, "");
      forall k | k in s.properties
        ensures k in w.fields ==> Normalize(s.properties[k], w.fields[k]) == Some(w.fields[k])
        ensures k !in w.fields ==> Input(s, w.fields, k).None? && k !in s.required
      {
        NormalizedField(s, v, k);
        if k in w.fields {
          NormalizeIsIdempotent(s.properties[k], Input(s, v.fields, k).value);
        }
      }
      forall k | k in w.fields ensures k in s.properties {
        NormalizedField(s, v, k);
      }
      hide Normalize;
      NormalizedFrom(s, w, w.fields);
    }
  }

  // What the sparse schema accepts it gives back as it is.
  lemma {:induction false} SparseIsIdentity(s: Schema, v: Json)
    requires Normalize(Sparse(s), v).Some?
    ensures Normalize(Sparse(s), v) == Some(v)
  {
    if s.kind.Object? {
      var w := Normalize(Sparse(s), v).value;
      NormalizedField(Sparse(s), v, "");
      forall k ensures k in w.fields <==> k in v.fields
               ensures k in w.fields ==> w.fields[k] == v.fields[k]
      {
        NormalizedField(Sparse(s), v, k);
        if k in w.fields {
          SparseIsIdentity(s.properties[k], v.fields[k]);
        }
      }
      hide Normalize;
      assert w.fields == v.fields;
    }
  }

  /* ----- full checking is sparse checking, required properties, and defaults ----- */

  // Defaults written in, nothing checked.
  function Fill(s: Schema, v: Json): Json {
    if !s.kind.Object? || !v.Obj? then v
    else Obj(map k | k in s.properties && Input(s, v.fields, k).Some? :: Fill(s.properties[k], Input(s, v.fields, k).value))
  }

  // Every required property has a value or a default, here and in the objects given.
  predicate RequiredMet(s: Schema, v: Json) {
    s.kind.Object? && v.Obj? ==>
      && RequiredGiven(s, v.fields)
      && forall k | k in s.properties && k in v.fields :: RequiredMet(s.properties[k], v.fields[k])
  }

  lemma SparseProperties(s: Schema)
    requires s.kind.Object?
    ensures Sparse(s).kind.Object? && Sparse(s).required == [] && Sparse(s).properties.Keys == s.properties.Keys
    ensures forall k | k in s.properties :: Sparse(s).properties[k] == Sparse(s.properties[k]) && Sparse(s.properties[k]).default == None
  {}

  lemma NormalizedIsSparse(s: Schema, v: Json)
    requires s.kind.Object? && v.Obj? && v.fields.Keys <= s.properties.Keys
    ensures Normalize(Sparse(s), v).Some? <==>
              forall k | k in v.fields :: Normalize(Sparse(s.properties[k]), v.fields[k]).Some?
  {
    hide Normalize, Sparse;
    var sp := Sparse(s);
    SparseProperties(s);
    if Normalize(sp, v).Some? {
      forall k | k in v.fields ensures Normalize(Sparse(s.properties[k]), v.fields[k]).Some? {
        NormalizedField(sp, v, k);
      }
    }
    if forall k | k in v.fields :: Normalize(Sparse(s.properties[k]), v.fields[k]).Some? {
      var w := map k | k in v.fields :: Normalize(Sparse(s.properties[k]), v.fields[k]).value;
      NormalizedFrom(sp, v, w);
    }
  }

  // In a valid schema a value is accepted in full exactly when it is accepted sparsely and
  // nothing required is missing, and the result is the value with its defaults filled in.
  lemma {:induction false} NormalizeFactors(s: Schema, v: Json)
    requires ValidSchema(s)
    ensures Normalize(s, v) ==
            if Normalize(Sparse(s), v).Some? && RequiredMet(s, v) then Some(Fill(s, v)) else None
  {
    if s.kind.Object? && v.Obj? && v.fields.Keys <= s.properties.Keys {
      NormalizedIsSparse(s, v);
      forall k | k in s.properties && Input(s, v.fields, k).Some? ensures FieldFactors(s, v.fields, k) {
        NormalizeFactors(s.properties[k], Input(s, v.fields, k).value);
      }
      ObjectFactors(s, v);
    }
  }

  // One property, given or defaulted.
  ghost predicate FieldFactors(s: Schema, fields: map<string, Json>, k: string)
    requires k in s.properties && Input(s, fields, k).Some?
  {
    var child, x := s.properties[k], Input(s, fields, k).value;
    && (k !in fields ==> Normalize(child, x) == Some(Fill(child, x)))
    && Normalize(child, x) == if Normalize(Sparse(child), x).Some? && RequiredMet(child, x) then Some(Fill(child, x)) else None
  }

  lemma ObjectFactors(s: Schema, v: Json)
    requires s.kind.Object? && v.Obj? && v.fields.Keys <= s.properties.Keys
    requires forall k | k in s.properties && Input(s, v.fields, k).Some? :: FieldFactors(s, v.fields, k)
    requires Normalize(Sparse(s), v).Some? <==>
               forall k | k in v.fields :: Normalize(Sparse(s.properties[k]), v.fields[k]).Some?
    ensures Normalize(s, v) ==
            if Normalize(Sparse(s), v).Some? && RequiredMet(s, v) then Some(Fill(s, v)) else None
  {
    if Normalize(Sparse(s), v).Some? && RequiredMet(s, v) {
      forall k | k in s.properties && Input(s, v.fields, k).Some?
        ensures Normalize(s.properties[k], Input(s, v.fields, k).value) == Some(Fill(s.properties[k], Input(s, v.fields, k).value))
      {
        assert FieldFactors(s, v.fields, k);
      }
      NormalizedFrom(s, v, Fill(s, v).fields);
    } else if Normalize(s, v).Some? {
      forall k | k in v.fields
        ensures Normalize(Sparse(s.properties[k]), v.fields[k]).Some? && RequiredMet(s.properties[k], v.fields[k])
      {
        NormalizedField(s, v, k);
        assert FieldFactors(s, v.fields, k);
      }
      assert false;
    }
  }

  // What a valid schema keeps to: choices are not empty, lists hold texts, only objects have
  // properties and require nothing else, only numbers have bounds, which do not cross.
  lemma ValidSchemaRules(s: Schema)
    requires ValidSchema(s)
    ensures s.choices != Some([])
    ensures s.kind.Strings? <==> s.kind.Strings? && s.items.Some? && s.items.value.kind.Text? && ValidSchema(s.items.value)
    ensures s.kind.Object? ==> forall k | k in s.properties.Keys + (set r | r in s.required) :: k in s.properties && ValidSchema(s.properties[k])
    ensures !s.kind.Object? && !s.kind.Strings? ==> s.properties == map[] && s.required == [] && s.items == None
    ensures forall b | (s.minimum == Some(b) || s.maximum == Some(b)) && b != Null ::
              (s.kind.Number? || s.kind.Integer?) && (b.Int? || b.Float?)
    ensures forall a, b | s.minimum == Some(a) && s.maximum == Some(b) && a != Null && b != Null :: RealOf(a) <= RealOf(b)
  {}

  // Numbers are equal by value, and flags equal 1 and 0; nothing else equals a value of another
  // kind.
  lemma EqualPlain(b: bool, i: int, j: int, r: real, t: string, u: string)
    ensures Equal(Bool(b), Int(i)) == Equal(Int(i), Bool(b)) == (i == if b then 1 else 0)
    ensures Equal(Bool(b), Float(r)) == Equal(Float(r), Bool(b)) == (r == if b then 1.0 else 0.0)
    ensures Equal(Int(i), Float(r)) == Equal(Float(r), Int(i)) == (i as real == r)
    ensures Equal(Int(i), Int(j)) <==> i == j
    ensures Equal(Str(t), Str(u)) <==> t == u
    ensures !Equal(Str(t), Int(i)) && !Equal(Str(t), Bool(b)) && !Equal(Null, Int(0)) && !Equal(Null, Bool(false)) && !Equal(Null, Str(""))
  {}

  // A valid schema accepts each of its own choices, and its default, with no more than
  // defaults filled in. What it accepts equals one of the choices, unless it is an object,
  // whose choices decide nothing.
  lemma ChoicesAreWhatIsAccepted(s: Schema, v: Json)
    requires ValidSchema(s) && s.choices.Some?
    ensures v in s.choices.value || s.default == Some(v) ==> Normalize(s, v) == Some(Fill(s, v))
    ensures !s.kind.Object? && Normalize(s, v).Some? ==> exists x :: x in s.choices.value && Equal(v, x)
    ensures s.kind.Object? ==> Normalize(s, v) == Normalize(s.(choices := None), v)
    ensures !s.kind.Object? ==> Fill(s, v) == v
  {
    NormalizeFactors(s, v);
    if s.kind.Object? {
      OnlyProperties(s, s.(choices := None), v);
      OnlyProperties(s, s.(default := None, choices := None), v);
    }
    if v in s.choices.value {
      EqualIsReflexive(v);
      assert Normalize(s.(default := None, choices := None), v).Some?;
    }
  }

  // On an object only the properties matter.
  lemma SameProperties(s: Schema, t: Schema, v: Json)
    requires s.kind.Object? && t.kind.Object? && t.properties == s.properties && t.required == s.required
    requires Normalize(s, v).Some?
    ensures Normalize(t, v) == Normalize(s, v)
  {
    var w := Normalize(s, v).value;
    forall k ensures k in w.fields <==> k in s.properties && Input(s, v.fields, k).Some?
             ensures k in w.fields ==> Normalize(s.properties[k], Input(t, v.fields, k).value) == Some(w.fields[k])
    {
      NormalizedField(s, v, k);
    }
    NormalizedFrom(t, v, w.fields);
  }

  lemma OnlyProperties(s: Schema, t: Schema, v: Json)
    requires s.kind.Object? && t.kind.Object? && t.properties == s.properties && t.required == s.required
    ensures Normalize(t, v) == Normalize(s, v)
  {
    if Normalize(s, v).Some? {
      SameProperties(s, t, v);
    } else if Normalize(t, v).Some? {
      SameProperties(t, s, v);
    }
  }
}
