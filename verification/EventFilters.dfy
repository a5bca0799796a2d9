/** Event filters: regular expressions are arbitrary predicates on strings. */
module EventFilters {
  import opened Prelude
  import opened Events

  type Regex = string -> bool

  datatype EventFilter = EventFilter(
    sourcePattern: string,
    typePattern: string,
    subjectPattern: string,
    metadataFilters: map<string, string>,
    minPriority: int,
    sourceRegex: Option<Regex>,
    typeRegex: Option<Regex>,
    subjectRegex: Option<Regex>)

  /** What every filter that leaves the constructor satisfies: a pattern is compiled iff it is given. */
  predicate Compiled(f: EventFilter) {
    && (f.sourceRegex.None? <==> f.sourcePattern == "")
    && (f.typeRegex.None? <==> f.typePattern == "")
    && (f.subjectRegex.None? <==> f.subjectPattern == "")
  }

  predicate Bad(compile: string -> Option<Regex>, pattern: string) {
    pattern != "" && compile(pattern).None?
  }

  predicate FirstBad(compile: string -> Option<Regex>, patterns: seq<string>, k: nat)
    requires k < |patterns|
  {
    Bad(compile, patterns[k]) && forall j :: 0 <= j < k ==> !Bad(compile, patterns[j])
  }

  /** The three patterns compile in order and the first that does not is the error. */
  method NewEventFilter(compile: string -> Option<Regex>, sourcePattern: string, typePattern: string,
                        subjectPattern: string, metadataFilters: map<string, string>, minPriority: int)
    returns (r: Result<EventFilter, string>)
    ensures r.Ok? ==> Compiled(r.value) && r.value.metadataFilters == metadataFilters && r.value.minPriority == minPriority
    ensures r.Ok? ==> r.value.sourcePattern == sourcePattern && r.value.typePattern == typePattern
                      && r.value.subjectPattern == subjectPattern
    ensures r.Ok? ==> (sourcePattern != "" ==> r.value.sourceRegex == compile(sourcePattern))
                      && (typePattern != "" ==> r.value.typeRegex == compile(typePattern))
                      && (subjectPattern != "" ==> r.value.subjectRegex == compile(subjectPattern))
    ensures r.Ok? <==> forall p :: p in {sourcePattern, typePattern, subjectPattern} && p != "" ==> compile(p).Some?
    ensures r.Err? ==> exists k :: 0 <= k < 3 && FirstBad(compile, [sourcePattern, typePattern, subjectPattern], k)
                                   && r.error == [sourcePattern, typePattern, subjectPattern][k]
  {
    ghost var patterns := [sourcePattern, typePattern, subjectPattern];
    var source, typ, subject := None, None, None;
    if sourcePattern != "" {
      source := compile(sourcePattern);
      if source.None? {
        assert FirstBad(compile, patterns, 0);
        return Err(sourcePattern);
      }
    }
    if typePattern != "" {
      typ := compile(typePattern);
      if typ.None? {
        assert FirstBad(compile, patterns, 1);
        return Err(typePattern);
      }
    }
    if subjectPattern != "" {
      subject := compile(subjectPattern);
      if subject.None? {
        assert FirstBad(compile, patterns, 2);
        return Err(subjectPattern);
      }
    }
    return Ok(EventFilter(sourcePattern, typePattern, subjectPattern, metadataFilters, minPriority, source, typ, subject));
  }

  predicate Accepts(regex: Option<Regex>, s: string) {
    regex.Some? ==> regex.value(s)
  }

  predicate HasEntry(m: map<string, string>, key: string, value: string) {
    key in m && m[key] == value
  }

  /** What it means to match: every criterion that is set holds of the event. */
  predicate Matches(f: EventFilter, e: Event) {
    && Accepts(f.sourceRegex, e.source)
    && Accepts(f.typeRegex, e.eventType)
    && Accepts(f.subjectRegex, e.subject)
    && f.minPriority <= e.priority
    && (forall k :: k in f.metadataFilters ==> HasEntry(e.metadata, k, f.metadataFilters[k]))
  }

  /** The evaluation by early exits and a loop over the metadata criteria in any order. */
  method Evaluate(f: EventFilter, e: Event) returns (r: bool)
    ensures r == Matches(f, e)
    ensures r <==>
            && (f.sourceRegex.Some? ==> f.sourceRegex.value(e.source))
            && (f.typeRegex.Some? ==> f.typeRegex.value(e.eventType))
            && (f.subjectRegex.Some? ==> f.subjectRegex.value(e.subject))
            && e.priority >= f.minPriority
            && forall k :: k in f.metadataFilters ==> k in e.metadata && e.metadata[k] == f.metadataFilters[k]
  {
    if f.sourceRegex.Some? && !f.sourceRegex.value(e.source) { return false; }
    if f.typeRegex.Some? && !f.typeRegex.value(e.eventType) { return false; }
    if f.subjectRegex.Some? && !f.subjectRegex.value(e.subject) { return false; }
    if e.priority < f.minPriority { return false; }
    var todo := f.metadataFilters.Keys;
    while todo != {}
      invariant todo <= f.metadataFilters.Keys
      invariant forall k :: k in f.metadataFilters && k !in todo ==> HasEntry(e.metadata, k, f.metadataFilters[k])
    {
      var key :| key in todo;
      if key !in e.metadata || e.metadata[key] != f.metadataFilters[key] { return false; }
      todo := todo - {key};
    }
    return true;
  }

  predicate Empty(f: EventFilter) {
    f.sourcePattern == "" && f.typePattern == "" && f.subjectPattern == "" &&
    |f.metadataFilters| == 0 && f.minPriority == PRIORITY_UNSPECIFIED
  }

  function AddMetadataFilter(f: EventFilter, key: string, value: string): (r: EventFilter)
    ensures Compiled(f) ==> Compiled(r)
  {
    f.(metadataFilters := f.metadataFilters[key := value])
  }

  /** Copies every criterion but `key`, one by one, into a fresh map. */
  method RemoveMetadataFilter(f: EventFilter, key: string) returns (r: EventFilter)
    ensures r == Without(f, key)
    ensures Compiled(f) ==> Compiled(r)
  {
    r := f;
    if |f.metadataFilters| > 0 {
      var copied: map<string, string> := map[];
      var todo := f.metadataFilters.Keys;
      while todo != {}
        invariant todo <= f.metadataFilters.Keys
        invariant copied == map k | k in f.metadataFilters && k !in todo && k != key :: f.metadataFilters[k]
      {
        var k :| k in todo;
        if k != key { copied := copied[k := f.metadataFilters[k]]; }
        todo := todo - {k};
      }
      r := f.(metadataFilters := copied);
    }
    assert r.metadataFilters == f.metadataFilters - {key};
  }

  function Without(f: EventFilter, key: string): EventFilter {
    f.(metadataFilters := f.metadataFilters - {key})
  }

  /**
   Adding a criterion replaces whatever was required of that key: the new filter matches exactly
   what matched without the key and has the new entry.
   */
  lemma AddReplaces(f: EventFilter, key: string, value: string, e: Event)
    ensures Matches(AddMetadataFilter(f, key, value), e)
       <==> Matches(Without(f, key), e) && HasEntry(e.metadata, key, value)
    ensures Without(AddMetadataFilter(f, key, value), key) == Without(f, key)
  {
    var added := AddMetadataFilter(f, key, value);
    if Matches(added, e) {
      assert HasEntry(e.metadata, key, added.metadataFilters[key]);
      forall k | k in Without(f, key).metadataFilters
        ensures HasEntry(e.metadata, k, f.metadataFilters[k])
      {
        assert HasEntry(e.metadata, k, added.metadataFilters[k]);
      }
    }
    if Matches(Without(f, key), e) && HasEntry(e.metadata, key, value) {
      forall k | k in added.metadataFilters
        ensures HasEntry(e.metadata, k, added.metadataFilters[k])
      {
        if k != key { assert k in Without(f, key).metadataFilters; }
      }
    }
    assert added.metadataFilters - {key} == f.metadataFilters - {key};
  }

  /** The store's shortcut for empty filters is right for an event iff its priority is not negative. */
  lemma EmptyShortcutIff(f: EventFilter, e: Event)
    requires Compiled(f) && Empty(f)
    ensures Matches(f, e) <==> e.priority >= 0
  {
    assert f.metadataFilters == map[];
  }
}
