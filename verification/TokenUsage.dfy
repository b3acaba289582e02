/**
 Reading the token usage of one model call from the two places a response may carry it.
 */
module TokenUsage {
  import opened Outcomes

  // A value as the provider sent it: a boolean, something that reads as a finite decimal
  // number, or anything else.
  datatype Raw = Flag(b: bool) | Decimal(value: real) | Unreadable

  // Only a whole number that is not negative counts.
  function UsageInt(raw: Raw): Option<nat> {
    match raw
    case Decimal(r) => if r >= 0.0 && r == r.Floor as real then Some(r.Floor) else None
    case _ => None
  }

  lemma UsageIntIff(raw: Raw, n: nat)
    ensures UsageInt(raw) == Some(n) <==> raw == Decimal(n as real)
  {
    assert (n as real).Floor == n;
  }

  datatype Field = Prompt | Completion | Total | Cached | Reasoning

  type Source = map<Field, Raw>

  // response_metadata.token_usage, with the details of prompt and completion if these are
  // objects.
  datatype ResponseUsage = ResponseUsage(
    fields: map<string, Raw>, promptDetails: map<string, Raw>, completionDetails: map<string, Raw>)

  // usage_metadata.
  datatype MetadataUsage = MetadataUsage(
    fields: map<string, Raw>, inputDetails: map<string, Raw>, outputDetails: map<string, Raw>)

  function Named(f: Field, fields: map<string, Raw>, name: string): (s: Source)
    ensures s.Keys <= {f}
  {
    if name in fields then map[f := fields[name]] else map[]
  }

  function CachedEntry(u: ResponseUsage): (s: Source)
    ensures s.Keys <= {Cached}
  {
    if "prompt_cache_hit_tokens" in u.fields then Named(Cached, u.fields, "prompt_cache_hit_tokens")
    else if "cached_tokens" in u.promptDetails then Named(Cached, u.promptDetails, "cached_tokens")
    else Named(Cached, u.fields, "cached_tokens")
  }

  function ReasoningEntry(u: ResponseUsage): (s: Source)
    ensures s.Keys <= {Reasoning}
  {
    if "reasoning_tokens" in u.fields then Named(Reasoning, u.fields, "reasoning_tokens")
    else Named(Reasoning, u.completionDetails, "reasoning_tokens")
  }

  function ResponseSource(u: ResponseUsage): Source {
    Named(Prompt, u.fields, "prompt_tokens")
    + Named(Completion, u.fields, "completion_tokens")
    + Named(Total, u.fields, "total_tokens")
    + CachedEntry(u) + ReasoningEntry(u)
  }

  function MetadataSource(u: MetadataUsage): Source {
    Named(Prompt, u.fields, "input_tokens")
    + Named(Completion, u.fields, "output_tokens")
    + Named(Total, u.fields, "total_tokens")
    + Named(Cached, u.inputDetails, "cache_read")
    + Named(Reasoning, u.outputDetails, "reasoning")
  }

  // What one response says about its usage; the two describe the same call.
  function Sources(u: ResponseUsage, m: MetadataUsage): seq<Source> {
    [ResponseSource(u), MetadataSource(m)]
  }

  // The first source with a valid value decides, field by field.
  function UsageField(sources: seq<Source>, f: Field): Option<nat> {
    if sources == [] then None
    else if f in sources[0] && UsageInt(sources[0][f]).Some? then UsageInt(sources[0][f])
    else UsageField(sources[1..], f)
  }

  function OrZero(v: Option<nat>): nat {
    match v case Some(n) => n case None => 0
  }

  datatype Usage = Usage(prompt: nat, completion: nat, total: nat, cached: nat, reasoning: nat, complete: bool)
  {
    // The figures fit together.
    predicate Consistent() {
      total == prompt + completion && cached <= prompt && reasoning <= completion
    }
  }

  function Normalized(sources: seq<Source>): Usage {
    var prompt, completion := UsageField(sources, Prompt), UsageField(sources, Completion);
    var total := UsageField(sources, Total);
    var u := Usage(
      OrZero(prompt), OrZero(completion),
      if total.Some? then total.value else OrZero(prompt) + OrZero(completion),
      OrZero(UsageField(sources, Cached)), OrZero(UsageField(sources, Reasoning)), false);
    u.(complete := prompt.Some? && completion.Some? && u.Consistent())
  }

  // Some source says it in a valid way.
  ghost predicate Given(sources: seq<Source>, f: Field) {
    exists i | 0 <= i < |sources| :: f in sources[i] && UsageInt(sources[i][f]).Some?
  }

  ghost predicate FirstGiven(sources: seq<Source>, f: Field, i: nat)
    requires i < |sources|
  {
    && f in sources[i] && UsageInt(sources[i][f]).Some?
    && forall j | 0 <= j < i :: !(f in sources[j] && UsageInt(sources[j][f]).Some?)
  }

  // The first source with a valid value decides; values are never added up.
  lemma {:induction false} FirstSourceDecides(sources: seq<Source>, f: Field)
    ensures UsageField(sources, f).Some? <==> Given(sources, f)
    ensures forall i: nat | i < |sources| && FirstGiven(sources, f, i) :: UsageField(sources, f) == UsageInt(sources[i][f])
  {
    if sources != [] {
      var rest := sources[1..];
      FirstSourceDecides(rest, f);
      if Given(rest, f) {
        var i :| 0 <= i < |rest| && f in rest[i] && UsageInt(rest[i][f]).Some?;
        assert sources[i + 1] == rest[i];
      }
      if Given(sources, f) && !(f in sources[0] && UsageInt(sources[0][f]).Some?) {
        var i :| 0 <= i < |sources| && f in sources[i] && UsageInt(sources[i][f]).Some?;
        assert rest[i - 1] == sources[i];
      }
      forall i: nat | i < |sources| && FirstGiven(sources, f, i) ensures UsageField(sources, f) == UsageInt(sources[i][f]) {
        if i > 0 {
          assert rest[i - 1] == sources[i];
          assert forall j | 0 <= j < i - 1 :: rest[j] == sources[j + 1];
          assert FirstGiven(rest, f, i - 1);
        }
      }
    }
  }

  /* ----- where a figure comes from ----- */

  // An entry of one of the dictionaries in a response.
  datatype Place = Place(entries: map<string, Raw>, name: string)
  {
    predicate Present() { name in entries }
  }

  // Where each object may say it, the place that goes first at the front.
  function ResponsePlaces(u: ResponseUsage, f: Field): seq<Place> {
    match f
    case Prompt => [Place(u.fields, "prompt_tokens")]
    case Completion => [Place(u.fields, "completion_tokens")]
    case Total => [Place(u.fields, "total_tokens")]
    case Cached => [Place(u.fields, "prompt_cache_hit_tokens"), Place(u.promptDetails, "cached_tokens"), Place(u.fields, "cached_tokens")]
    case Reasoning => [Place(u.fields, "reasoning_tokens"), Place(u.completionDetails, "reasoning_tokens")]
  }

  function MetadataPlaces(m: MetadataUsage, f: Field): seq<Place> {
    match f
    case Prompt => [Place(m.fields, "input_tokens")]
    case Completion => [Place(m.fields, "output_tokens")]
    case Total => [Place(m.fields, "total_tokens")]
    case Cached => [Place(m.inputDetails, "cache_read")]
    case Reasoning => [Place(m.outputDetails, "reasoning")]
  }

  // The first of the places that is there has a valid value. A place further down is not
  // looked at, even when the value of that one is not valid.
  ghost predicate Says(places: seq<Place>, n: nat) {
    exists i: nat | i < |places| && IsFirst(places, i) :: UsageInt(places[i].entries[places[i].name]) == Some(n)
  }

  ghost predicate IsFirst(places: seq<Place>, i: nat)
    requires i < |places|
  {
    places[i].Present() && forall j | 0 <= j < i :: !places[j].Present()
  }

  ghost predicate Silent(places: seq<Place>) {
    forall n: nat :: !Says(places, n)
  }

  // What the source made from the places says about a field is what the places say.
  ghost predicate Follows(source: Source, f: Field, places: seq<Place>) {
    forall n: nat :: Says(places, n) <==> f in source && UsageInt(source[f]) == Some(n)
  }

  // The source holds the entry of the first place that is there, or nothing.
  ghost predicate Holds(source: Source, f: Field, places: seq<Place>) {
    && (forall i: nat | i < |places| && IsFirst(places, i) :: f in source && source[f] == places[i].entries[places[i].name])
    && ((forall i | 0 <= i < |places| :: !places[i].Present()) ==> f !in source)
  }

  lemma SomeIsFirst(places: seq<Place>, k: nat) returns (i: nat)
    requires k < |places| && places[k].Present()
    ensures i < |places| && IsFirst(places, i)
  {
    i := 0;
    while !places[i].Present()
      invariant i <= k && forall j | 0 <= j < i :: !places[j].Present()
      decreases k - i
    {
      i := i + 1;
    }
  }

  lemma HoldsFollows(source: Source, f: Field, places: seq<Place>)
    requires Holds(source, f, places)
    ensures Follows(source, f, places)
  {
    hide UsageInt;
    if k :| 0 <= k < |places| && places[k].Present() {
      var i := SomeIsFirst(places, k);
    }
  }

  lemma CachedHeld(u: ResponseUsage)
    ensures Holds(ResponseSource(u), Cached, ResponsePlaces(u, Cached))
  {
    var places := ResponsePlaces(u, Cached);
    if places[0].Present() {
    } else if places[1].Present() {
    } else if places[2].Present() {
    } else {
      assert Cached !in ResponseSource(u);
    }
  }

  lemma ReasoningHeld(u: ResponseUsage)
    ensures Holds(ResponseSource(u), Reasoning, ResponsePlaces(u, Reasoning))
  {
    var places := ResponsePlaces(u, Reasoning);
    if places[0].Present() {
    } else if places[1].Present() {
    } else {
      assert Reasoning !in ResponseSource(u);
    }
  }

  lemma OnePlaceHeld(source: Source, f: Field, place: Place)
    requires if place.Present() then f in source && source[f] == place.entries[place.name] else f !in source
    ensures Holds(source, f, [place])
  {
    assert [place][0] == place;
  }

  lemma OthersHeld(u: ResponseUsage)
    ensures Holds(ResponseSource(u), Prompt, ResponsePlaces(u, Prompt))
    ensures Holds(ResponseSource(u), Completion, ResponsePlaces(u, Completion))
    ensures Holds(ResponseSource(u), Total, ResponsePlaces(u, Total))
  {
    hide Holds, IsFirst, CachedEntry, ReasoningEntry;
    OnePlaceHeld(ResponseSource(u), Prompt, Place(u.fields, "prompt_tokens"));
    OnePlaceHeld(ResponseSource(u), Completion, Place(u.fields, "completion_tokens"));
    OnePlaceHeld(ResponseSource(u), Total, Place(u.fields, "total_tokens"));
  }

  lemma ResponseFollows(u: ResponseUsage, f: Field)
    ensures Follows(ResponseSource(u), f, ResponsePlaces(u, f))
  {
    hide Holds, Follows, ResponsePlaces, ResponseSource;
    match f {
      case Cached => CachedHeld(u);
      case Reasoning => ReasoningHeld(u);
      case _ => OthersHeld(u);
    }
    HoldsFollows(ResponseSource(u), f, ResponsePlaces(u, f));
  }

  lemma MetadataFollows(m: MetadataUsage, f: Field)
    ensures Follows(MetadataSource(m), f, MetadataPlaces(m, f))
  {
    hide UsageInt, Says, Follows;
    var source, places := MetadataSource(m), MetadataPlaces(m, f);
    assert places[0].Present() || f !in source;
    HoldsFollows(source, f, places);
  }

  function FigureOf(u: Usage, f: Field): nat {
    match f
    case Prompt => u.prompt
    case Completion => u.completion
    case Total => u.total
    case Cached => u.cached
    case Reasoning => u.reasoning
  }

  // Each figure is what token_usage says, else what usage_metadata says; without either a
  // total is the sum of both sides, and any other figure 0.
  lemma FieldIsFirstGiven(u: ResponseUsage, m: MetadataUsage, f: Field)
    ensures var usage := Normalized(Sources(u, m));
      && (forall n: nat | Says(ResponsePlaces(u, f), n) :: FigureOf(usage, f) == n)
      && (forall n: nat | Silent(ResponsePlaces(u, f)) && Says(MetadataPlaces(m, f), n) :: FigureOf(usage, f) == n)
      && (Silent(ResponsePlaces(u, f)) && Silent(MetadataPlaces(m, f)) ==>
            FigureOf(usage, f) == if f.Total? then usage.prompt + usage.completion else 0)
    ensures Given(Sources(u, m), f) <==> !(Silent(ResponsePlaces(u, f)) && Silent(MetadataPlaces(m, f)))
  {
    hide Says, UsageField, ResponseSource, MetadataSource, UsageInt;
    var sources := Sources(u, m);
    ResponseFollows(u, f);
    MetadataFollows(m, f);
    FirstSourceDecides(sources, f);
    if f in sources[0] && UsageInt(sources[0][f]).Some? {
      assert FirstGiven(sources, f, 0);
      assert Says(ResponsePlaces(u, f), UsageInt(sources[0][f]).value);
    } else if f in sources[1] && UsageInt(sources[1][f]).Some? {
      assert FirstGiven(sources, f, 1);
      assert Says(MetadataPlaces(m, f), UsageInt(sources[1][f]).value);
    }
  }

  // A cache figure that is there and not valid hides the other places of the same object,
  // though not the other object.
  lemma InvalidHidesTheOtherPlaces(u: ResponseUsage, m: MetadataUsage)
    requires "prompt_cache_hit_tokens" in u.fields && UsageInt(u.fields["prompt_cache_hit_tokens"]).None?
    ensures Silent(ResponsePlaces(u, Cached))
    ensures Normalized(Sources(u, m)).cached
            == if "cache_read" in m.inputDetails then OrZero(UsageInt(m.inputDetails["cache_read"])) else 0
  {
    InvalidIsSilent(u);
    FieldIsFirstGiven(u, m, Cached);
    MetadataFollows(m, Cached);
    hide Says, IsFirst, UsageInt, ResponsePlaces, MetadataPlaces, Normalized;
    var metadata := MetadataSource(m);
    if Cached in metadata && UsageInt(metadata[Cached]).Some? {
      assert Says(MetadataPlaces(m, Cached), UsageInt(metadata[Cached]).value);
    }
  }

  lemma InvalidIsSilent(u: ResponseUsage)
    requires "prompt_cache_hit_tokens" in u.fields && UsageInt(u.fields["prompt_cache_hit_tokens"]).None?
    ensures Silent(ResponsePlaces(u, Cached))
  {
    hide UsageInt;
    var places := ResponsePlaces(u, Cached);
    assert IsFirst(places, 0);
    assert forall i: nat | i < |places| && IsFirst(places, i) :: i == 0;
  }

  // A call counts as complete exactly when both sides are said by one of the two objects and
  // the figures, a missing total being their sum, fit together.
  lemma CompleteIff(u: ResponseUsage, m: MetadataUsage)
    ensures var usage := Normalized(Sources(u, m));
      usage.complete <==>
        && !(Silent(ResponsePlaces(u, Prompt)) && Silent(MetadataPlaces(m, Prompt)))
        && !(Silent(ResponsePlaces(u, Completion)) && Silent(MetadataPlaces(m, Completion)))
        && (forall n: nat | Says(ResponsePlaces(u, Total), n) || (Silent(ResponsePlaces(u, Total)) && Says(MetadataPlaces(m, Total), n)) ::
              n == usage.prompt + usage.completion)
        && usage.cached <= usage.prompt && usage.reasoning <= usage.completion
    ensures Normalized(Sources(u, m)).complete ==> Normalized(Sources(u, m)).Consistent()
  {
    hide Says;
    var sources := Sources(u, m);
    FieldIsFirstGiven(u, m, Prompt);
    FieldIsFirstGiven(u, m, Completion);
    FieldIsFirstGiven(u, m, Total);
    FirstSourceDecides(sources, Prompt);
    FirstSourceDecides(sources, Completion);
    hide UsageField, ResponseSource, MetadataSource, UsageInt;
  }
}
