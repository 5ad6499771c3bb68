/**
  The timing-record builder of the navigation-timing instrumentation.

  A host performance facility exposes either a modern list of `navigation`
  entries or a legacy singular `timing` object (or neither). The builder copies
  a fixed list of timing-phase names from whichever source is present into a
  fresh record, keeping only the names the source actually has, and then lets an
  optional user callback contribute extra entries that never override the
  standard ones.
 */
module NavigationEntries {

  datatype Option<T> = None | Some(value: T)

  /** A timing value: a high-resolution timestamp, or the page URL under `name`.
      The model only copies and compares values, never computes with them. */
  datatype Value = Number(ms: real) | Text(s: string)

  /** A flat key-value record, both for a source timing object and for the result. */
  type Record = map<string, Value>

  /** The user's `addCustomEntriesCallback`: (raw source object, copy of the record so far) -> extra entries. */
  type Callback = (Record, Record) -> Record

  /** The extra key the modern path copies besides the phase names. */
  const NameKey := "name"

  /** What the host's performance facility offers: the result of
      `getEntriesByType('navigation')` (None when that query does not exist) and
      the legacy `timing` object (None when absent). */
  datatype Performance = Performance(navigationEntries: Option<seq<Record>>, timing: Option<Record>)

  /** The source the builder reads from. */
  datatype TimingSource = NavigationEntry(entry: Record) | LegacyTiming(timing: Record)
  {
    /** The raw source object, as handed to the callback. */
    function Raw(): Record
    {
      match this
      case NavigationEntry(e) => e
      case LegacyTiming(t) => t
    }

    /** The key list copied from this kind of source: the modern path adds `name`. */
    function Keys(phaseNames: seq<string>): seq<string>
    {
      if NavigationEntry? then phaseNames + [NameKey] else phaseNames
    }
  }

  /** The arguments a callback invocation was handed. */
  datatype Invocation = Invocation(source: Record, entriesCopy: Record)

  /** What one run of the builder produces: the record, and the callback
      invocation it made (None when the callback was not called). */
  datatype Collection = Collection(entries: Record, invocation: Option<Invocation>)

  /** The first navigation entry, if the query exists and returned any. */
  function FirstNavigationEntry(perf: Performance): (r: Option<Record>)
    ensures r.Some? <==> perf.navigationEntries.Some? && |perf.navigationEntries.value| > 0
    ensures r.Some? ==> r.value == perf.navigationEntries.value[0]
  {
    match perf.navigationEntries
    case Some(list) => if |list| > 0 then Some(list[0]) else None
    case None => None
  }

  /** The source chosen: the first navigation entry if there is one, else the legacy object. */
  function SelectSource(perf: Performance): (r: Option<TimingSource>)
    ensures FirstNavigationEntry(perf).Some? ==> r == Some(NavigationEntry(FirstNavigationEntry(perf).value))
    ensures FirstNavigationEntry(perf).None? && perf.timing.Some? ==> r == Some(LegacyTiming(perf.timing.value))
    ensures r.None? <==> FirstNavigationEntry(perf).None? && perf.timing.None?
  {
    match FirstNavigationEntry(perf)
    case Some(e) => Some(NavigationEntry(e))
    case None =>
      match perf.timing
      case Some(t) => Some(LegacyTiming(t))
      case None => None
  }

  /** The record the copy loop has built after visiting `keys` in order. */
  ghost function CopyPresent(source: Record, keys: seq<string>): Record
    decreases |keys|
  {
    if keys == [] then map[]
    else
      var entries := CopyPresent(source, keys[..|keys| - 1]);
      var key := keys[|keys| - 1];
      if key in source then entries[key := source[key]] else entries
  }

  /** `entries` holds exactly the keys of `keys` that `source` has, with the source's values. */
  ghost predicate CopiedFrom(entries: Record, source: Record, keys: seq<string>)
  {
    && (forall k :: k in entries <==> k in keys && k in source)
    && (forall k :: k in entries ==> entries[k] == source[k])
  }

  /** The record the builder returns, with the callback invocation it made. */
  ghost function Collected(perf: Performance, phaseNames: seq<string>, callback: Option<Callback>): Collection
  {
    match SelectSource(perf)
    case None => Collection(map[], None)
    case Some(src) =>
      var standard := StandardEntries(src, phaseNames);
      match callback
      case None => Collection(standard, None)
      case Some(cb) => Collection(cb(src.Raw(), standard) + standard, Some(Invocation(src.Raw(), standard)))
  }

  /** The standard copy, before any custom merge. */
  ghost function StandardEntries(src: TimingSource, phaseNames: seq<string>): Record
  {
    CopyPresent(src.Raw(), src.Keys(phaseNames))
  }

  /** One pass of the `keys.forEach(... if (hasKey(source, key)) entries[key] = source[key])` loop. */
  method CopyPresentKeys(source: Record, keys: seq<string>) returns (entries: Record)
    ensures entries == CopyPresent(source, keys)
  {
    entries := map[];
    for i := 0 to |keys|
      invariant entries == CopyPresent(source, keys[..i])
    {
      assert keys[..i + 1][..i] == keys[..i];
      var key := keys[i];
      if key in source {
        entries := entries[key := source[key]];
      }
    }
    assert keys[..|keys|] == keys;
  }

  /** `getPerformanceNavigationEntries`: choose the source, copy the present keys,
      merge the callback's output under the standard entries. */
  method GetPerformanceNavigationEntries(perf: Performance, phaseNames: seq<string>, addCustomEntriesCallback: Option<Callback>)
    returns (entries: Record, invocation: Option<Invocation>)
    ensures Collection(entries, invocation) == Collected(perf, phaseNames, addCustomEntriesCallback)
  {
    entries := map[];
    invocation := None;
    var performanceNavigationTiming := FirstNavigationEntry(perf);
    var keys := phaseNames + [NameKey];
    if performanceNavigationTiming.Some? {
      var source := performanceNavigationTiming.value;
      entries := CopyPresentKeys(source, keys);
      if addCustomEntriesCallback.Some? {
        var entriesCopy := entries;
        var newerEntries := addCustomEntriesCallback.value(source, entriesCopy);
        invocation := Some(Invocation(source, entriesCopy));
        entries := newerEntries + entries;
      }
    } else {
      var performanceTiming := perf.timing;
      if performanceTiming.Some? {
        entries := CopyPresentKeys(performanceTiming.value, phaseNames);
      }
      if performanceTiming.Some? && addCustomEntriesCallback.Some? {
        var entriesCopy := entries;
        var newerEntries := addCustomEntriesCallback.value(performanceTiming.value, entriesCopy);
        invocation := Some(Invocation(performanceTiming.value, entriesCopy));
        entries := newerEntries + entries;
      }
    }
  }

  /** The copy loop inserts exactly the listed keys the source has, with their values. */
  lemma {:induction false} CopyPresentCorrect(source: Record, keys: seq<string>)
    ensures CopiedFrom(CopyPresent(source, keys), source, keys)
  {
    if keys != [] {
      var init := keys[..|keys| - 1];
      CopyPresentCorrect(source, init);
      assert forall k :: k in keys <==> k in init || k == keys[|keys| - 1];
    }
  }

  /** The standard copy of whichever source was chosen holds exactly its listed, present keys. */
  lemma StandardEntriesCorrect(src: TimingSource, phaseNames: seq<string>)
    ensures CopiedFrom(StandardEntries(src, phaseNames), src.Raw(), src.Keys(phaseNames))
  {
    CopyPresentCorrect(src.Raw(), src.Keys(phaseNames));
  }

  /** With a navigation entry, every phase name and `name` the entry has appears
      in the result with the entry's exact value, whatever the callback returns. */
  lemma NavigationEntryValuesCopied(perf: Performance, phaseNames: seq<string>, callback: Option<Callback>)
    requires FirstNavigationEntry(perf).Some?
    ensures var entry := FirstNavigationEntry(perf).value;
            var r := Collected(perf, phaseNames, callback).entries;
            forall k :: (k in phaseNames || k == NameKey) && k in entry ==> k in r && r[k] == entry[k]
  {
    StandardEntriesCorrect(NavigationEntry(FirstNavigationEntry(perf).value), phaseNames);
  }

  /** Without a callback the result's keys are exactly the listed keys the chosen
      source has, each with the source's value; nothing else is inserted. */
  lemma ExactKeysWithoutCallback(perf: Performance, phaseNames: seq<string>)
    requires SelectSource(perf).Some?
    ensures var src := SelectSource(perf).value;
            var r := Collected(perf, phaseNames, None);
            && CopiedFrom(r.entries, src.Raw(), src.Keys(phaseNames))
            && r.invocation.None?
  {
    StandardEntriesCorrect(SelectSource(perf).value, phaseNames);
  }

  /** With a callback, standard keys keep their standard values, non-colliding
      callback keys are added with the callback's values, and nothing else appears. */
  lemma CustomEntriesNeverOverride(perf: Performance, phaseNames: seq<string>, cb: Callback)
    requires SelectSource(perf).Some?
    ensures var src := SelectSource(perf).value;
            var standard := StandardEntries(src, phaseNames);
            var newer := cb(src.Raw(), standard);
            var r := Collected(perf, phaseNames, Some(cb)).entries;
            && (forall k :: k in r <==> (k in src.Keys(phaseNames) && k in src.Raw()) || k in newer)
            && (forall k :: k in src.Keys(phaseNames) && k in src.Raw() ==> r[k] == src.Raw()[k])
            && (forall k :: k in newer && !(k in src.Keys(phaseNames) && k in src.Raw()) ==> r[k] == newer[k])
  {
    StandardEntriesCorrect(SelectSource(perf).value, phaseNames);
  }

  /** The callback is called once, with the raw source object and a copy equal to
      the standard record built so far; without a callback nothing is called. */
  lemma CallbackHandedStandardCopy(perf: Performance, phaseNames: seq<string>, callback: Option<Callback>)
    requires SelectSource(perf).Some?
    ensures var src := SelectSource(perf).value;
            var inv := Collected(perf, phaseNames, callback).invocation;
            && (inv.Some? <==> callback.Some?)
            && (inv.Some? ==> inv.value.source == src.Raw()
                              && CopiedFrom(inv.value.entriesCopy, src.Raw(), src.Keys(phaseNames)))
  {
    StandardEntriesCorrect(SelectSource(perf).value, phaseNames);
  }

  /** In the legacy fallback only phase names are copied: `name` is never taken
      from the legacy object, and any `name` in the result came from the callback. */
  lemma LegacyNeverCopiesName(perf: Performance, phaseNames: seq<string>, callback: Option<Callback>)
    requires FirstNavigationEntry(perf).None? && perf.timing.Some?
    requires NameKey !in phaseNames
    ensures var r := Collected(perf, phaseNames, callback).entries;
            && (callback.None? ==> NameKey !in r)
            && (callback.Some? && NameKey in r ==>
                  var newer := callback.value(perf.timing.value, StandardEntries(LegacyTiming(perf.timing.value), phaseNames));
                  NameKey in newer && r[NameKey] == newer[NameKey])
  {
    StandardEntriesCorrect(LegacyTiming(perf.timing.value), phaseNames);
  }

  /** In the legacy fallback every phase name the legacy object has is copied with its value. */
  lemma LegacyValuesCopied(perf: Performance, phaseNames: seq<string>, callback: Option<Callback>)
    requires FirstNavigationEntry(perf).None? && perf.timing.Some?
    ensures var timing := perf.timing.value;
            var r := Collected(perf, phaseNames, callback).entries;
            forall k :: k in phaseNames && k in timing ==> k in r && r[k] == timing[k]
  {
    StandardEntriesCorrect(LegacyTiming(perf.timing.value), phaseNames);
  }

  /** A navigation entry, when present, is always preferred: the legacy object is not consulted. */
  lemma NavigationEntryPreferred(navigationEntries: Option<seq<Record>>, legacy1: Option<Record>, legacy2: Option<Record>,
                                 phaseNames: seq<string>, callback: Option<Callback>)
    requires FirstNavigationEntry(Performance(navigationEntries, legacy1)).Some?
    ensures Collected(Performance(navigationEntries, legacy1), phaseNames, callback)
         == Collected(Performance(navigationEntries, legacy2), phaseNames, callback)
  {
  }

  /** With neither a navigation entry nor a legacy object the result is empty and
      the callback is not invoked. */
  lemma NoTimingApiGivesEmptyRecord(perf: Performance, phaseNames: seq<string>, callback: Option<Callback>)
    requires FirstNavigationEntry(perf).None? && perf.timing.None?
    ensures Collected(perf, phaseNames, callback) == Collection(map[], None)
  {
  }

  /** Example: a callback returning `{foo: 1, fetchStart: 999}` against an entry
      with `fetchStart: 123` leaves `fetchStart: 123` and adds `foo: 1`. */
  lemma StandardKeyBeatsCustomEntry(phaseNames: seq<string>)
    requires "fetchStart" in phaseNames
    ensures var entry := map["fetchStart" := Number(123.0)];
            var cb: Callback := (source, copy) => map["foo" := Number(1.0), "fetchStart" := Number(999.0)];
            var r := Collected(Performance(Some([entry]), None), phaseNames, Some(cb)).entries;
            && r["fetchStart"] == Number(123.0)
            && r["foo"] == Number(1.0)
            && r.Keys == {"fetchStart", "foo"}
  {
    var entry := map["fetchStart" := Number(123.0)];
    StandardEntriesCorrect(NavigationEntry(entry), phaseNames);
  }

  /** Example: a legacy object with `domComplete: 500` and a `name` gives a record
      with `domComplete: 500` and no `name` key. */
  lemma LegacyDomCompleteExample(phaseNames: seq<string>)
    requires "domComplete" in phaseNames && NameKey !in phaseNames
    ensures var timing := map["domComplete" := Number(500.0), NameKey := Text("legacy")];
            var r := Collected(Performance(None, Some(timing)), phaseNames, None).entries;
            && "domComplete" in r && r["domComplete"] == Number(500.0)
            && NameKey !in r
  {
    var timing := map["domComplete" := Number(500.0), NameKey := Text("legacy")];
    StandardEntriesCorrect(LegacyTiming(timing), phaseNames);
  }
}
