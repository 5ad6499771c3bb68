# Navigation-timing instrumentation, modelled in Dafny

This project models the OpenTelemetry web instrumentation that reports a page's
navigation timing. The class `NavigationTimingInstrumentation` does two things.

- **Builder.** It builds a flat timing record. It reads the first modern
  `navigation` performance entry and falls back to the legacy `performance.timing`
  object. It copies each timing-phase name the chosen source has, plus `name` on
  the modern path only. A user's `addCustomEntriesCallback` can then add entries
  that never override the standard ones.
- **Lifecycle.** It emits that record once, as the event
  `browser.page_navigation_timing`, together with a debug line. The emit happens
  at `enable` when the document is already complete. Otherwise it happens from a
  `load` listener, which `disable` removes.

Files:

- `navigation_entries.dfy` (module `NavigationEntries`) holds the builder.
  - The real code is the method `GetPerformanceNavigationEntries`. It uses the
    copy loop `CopyPresentKeys`.
  - The reference definition is the function `Collected`. It is built from
    `SelectSource` and the recursive copy `CopyPresent`.
  - The lemmas state the properties of `Collected`: key sets, value preservation,
    which source wins, precedence of standard keys over callback keys, what the
    callback is handed, and the empty record.
- `instrumentation.dfy` (module `Instrumentation`) holds the lifecycle.
  - A class keeps the host's ready-state and performance data, the stored
    `_onDocumentLoaded` handle, the set of registered `load` listeners, and the
    logs of emitted events and debug lines.
  - `FireLoad` stands in for the browser dispatching `load`.
  - Small client methods build an instance and show the use cases end to end:
    complete on enable, enable then load, disable before load, disable after
    load, and disable without enable.

Modelling choices:

- The host globals become inputs. `otperformance` is a `Performance` value:
  the optional result of `getEntriesByType('navigation')` and the optional
  `timing` object. `window.document.readyState` is a string field.
- `hasKey` is map membership.
- The values of the `PerformanceTimingNames` enumeration are an abstract
  `seq<string>`, `phaseNames`. Where a property needs `"name"` to be outside that
  list, the lemma takes it as a hypothesis.
- Timing values are a small datatype `Value`: a number (a timestamp) or a
  string (the URL under `name`). The model only copies and compares them.
- The callback is a total Dafny function `(Record, Record) -> Record`.
- The class has two constructors. `AsWritten` keeps what the source does: the
  configuration passed in is lost (see "## Findings"). The unnamed constructor
  keeps the configuration, as the source evidently intends. The rest of the
  model uses the unnamed one.
- The builder returns a second out-parameter, `invocation`. It records the
  arguments the callback was handed, or `None` when the callback was not called.
  This makes "the callback is handed a copy of the standard record" and "the
  callback is not invoked" statable.
- In the source the builder is a private method that reads `this._config` and
  the `otperformance` global. Here it is a module-level method that takes both
  as parameters. The class calls it with its own fields.
- Each `enable` on an incomplete document stores a fresh bound copy of
  `_onDocumentLoaded` (a new `Handler` number) and registers it. `disable`
  removes only the handle currently stored. Handle 0 is the unbound prototype
  method, which is never registered. No property is claimed about calling
  `enable` twice.

## Model

| member | source | states |
|---|---|---|
| NavigationEntries.FirstNavigationEntry | plugins/web/opentelemetry-instrumentation-navigation-timing/src/instrumentation.ts:54-56 | there is an entry exactly when the query exists and returned a non-empty list, and then it is the list's first element |
| NavigationEntries.SelectSource | plugins/web/opentelemetry-instrumentation-navigation-timing/src/instrumentation.ts:54-77 | the first navigation entry is chosen when present; otherwise the legacy timing object when present; no source exactly when both are missing |
| NavigationEntries.CopyPresentKeys | plugins/web/opentelemetry-instrumentation-navigation-timing/src/instrumentation.ts:61-65 | the `forEach` copy loop builds exactly the record `CopyPresent` describes for the visited keys |
| NavigationEntries.GetPerformanceNavigationEntries | plugins/web/opentelemetry-instrumentation-navigation-timing/src/instrumentation.ts:52-95 | the record returned and the callback invocation made (if any) are exactly those of the reference definition `Collected`, on both the modern and the legacy path |
| NavigationEntries.CopyPresentCorrect | plugins/web/opentelemetry-instrumentation-navigation-timing/src/instrumentation.ts:61-65 | after the copy loop, a key is in the record if and only if it is listed and the source has it, and its value is the source's value |
| NavigationEntries.StandardEntriesCorrect | plugins/web/opentelemetry-instrumentation-navigation-timing/src/instrumentation.ts:57-83 | the standard copy of the chosen source holds exactly its listed, present keys with the source's values |
| NavigationEntries.NavigationEntryValuesCopied | plugins/web/opentelemetry-instrumentation-navigation-timing/src/instrumentation.ts:54-70 | with a navigation entry, every phase name and `name` the entry has is in the result with the entry's exact value, whatever the callback returns |
| NavigationEntries.ExactKeysWithoutCallback | plugins/web/opentelemetry-instrumentation-navigation-timing/src/instrumentation.ts:57-83 | with no callback, the result's keys are exactly the listed keys the source has (no absent key inserted, no unlisted key), with the source's values, and no callback is invoked |
| NavigationEntries.CustomEntriesNeverOverride | plugins/web/opentelemetry-instrumentation-navigation-timing/src/instrumentation.ts:66-71 | with a callback, the result's keys are the standard keys plus the callback's keys; standard keys keep the source's values (colliding callback values are discarded); non-colliding callback keys carry the callback's values |
| NavigationEntries.CallbackHandedStandardCopy | plugins/web/opentelemetry-instrumentation-navigation-timing/src/instrumentation.ts:66-90 | when a source exists, the callback is invoked exactly when configured, with the raw source object and a copy equal to the standard record built so far |
| NavigationEntries.LegacyNeverCopiesName | plugins/web/opentelemetry-instrumentation-navigation-timing/src/instrumentation.ts:73-90 | on the legacy path `name` is never copied from the legacy object: absent without a callback, and with a callback present only as the callback's own value |
| NavigationEntries.LegacyValuesCopied | plugins/web/opentelemetry-instrumentation-navigation-timing/src/instrumentation.ts:76-83 | on the legacy path every phase name the legacy object has is in the result with its value |
| NavigationEntries.NavigationEntryPreferred | plugins/web/opentelemetry-instrumentation-navigation-timing/src/instrumentation.ts:60-92 | when a navigation entry exists, the result does not depend on the legacy object at all |
| NavigationEntries.NoTimingApiGivesEmptyRecord | plugins/web/opentelemetry-instrumentation-navigation-timing/src/instrumentation.ts:73-94 | with neither a navigation entry nor a legacy object, the result is the empty record and the callback is not invoked |
| NavigationEntries.StandardKeyBeatsCustomEntry | plugins/web/opentelemetry-instrumentation-navigation-timing/src/instrumentation.ts:66-71 | an entry `{fetchStart: 123}` and a callback returning `{foo: 1, fetchStart: 999}` give exactly `{fetchStart: 123, foo: 1}` |
| NavigationEntries.LegacyDomCompleteExample | plugins/web/opentelemetry-instrumentation-navigation-timing/src/instrumentation.ts:76-83 | a legacy object with `domComplete: 500` and a `name` gives a record with `domComplete: 500` and no `name` |
| Instrumentation.NavigationTimingInstrumentation.AsWritten | plugins/web/opentelemetry-instrumentation-navigation-timing/src/instrumentation.ts:39-48 | as written: the stored configuration is empty, because the `_config = {}` field initializer runs after the base constructor stored the argument; no listener, empty logs, the unbound handle stored |
| Instrumentation.NavigationTimingInstrumentation.constructor | plugins/web/opentelemetry-instrumentation-navigation-timing/src/instrumentation.ts:45-48 | corrected: the configuration passed in is the one the builder reads; no listener, empty logs, the unbound handle stored |
| Instrumentation.NavigationTimingInstrumentation.OnDocumentLoaded | plugins/web/opentelemetry-instrumentation-navigation-timing/src/instrumentation.ts:97-101 | appends exactly one `browser.page_navigation_timing` event carrying the built record, and one `PerformanceNavigationTiming` debug line with the same record; keeps every emitted event correctly named |
| Instrumentation.NavigationTimingInstrumentation.Enable | plugins/web/opentelemetry-instrumentation-navigation-timing/src/instrumentation.ts:103-110 | on a complete document, appends one event with the built record and registers nothing; otherwise emits nothing, stores a fresh bound handle and registers exactly it |
| Instrumentation.NavigationTimingInstrumentation.Disable | plugins/web/opentelemetry-instrumentation-navigation-timing/src/instrumentation.ts:112-114 | removes the stored handle from the load listeners and nothing else; a no-op when it is not registered |
| Instrumentation.NavigationTimingInstrumentation.FireLoad | plugins/web/opentelemetry-instrumentation-navigation-timing/src/instrumentation.ts:106-108 | the load dispatch runs every registered handler once, appending one event per handler with the record built from the data at load time |
| Instrumentation.EnableWhenComplete | plugins/web/opentelemetry-instrumentation-navigation-timing/src/instrumentation.ts:103-105 | enabling on a complete document yields exactly one event with the built record and no registered handler |
| Instrumentation.EnableThenLoad | plugins/web/opentelemetry-instrumentation-navigation-timing/src/instrumentation.ts:106-108 | enabling on an incomplete document emits nothing and registers one handler; the following load emits exactly one event with the record built at load |
| Instrumentation.DisableBeforeLoad | plugins/web/opentelemetry-instrumentation-navigation-timing/src/instrumentation.ts:112-114 | disabling before load removes the handler, so the load emits nothing |
| Instrumentation.DisableAfterLoad | plugins/web/opentelemetry-instrumentation-navigation-timing/src/instrumentation.ts:112-114 | disabling after load leaves the one event already emitted and no listener |
| Instrumentation.DisableWithoutEnable | plugins/web/opentelemetry-instrumentation-navigation-timing/src/instrumentation.ts:112-114 | disabling when never enabled is harmless: a later load emits nothing |
| Instrumentation.AsWrittenIgnoresCallback | plugins/web/opentelemetry-instrumentation-navigation-timing/src/instrumentation.ts:39-48 | as written, whatever callback is configured, the instrumentation holds none, so none is invoked, and the emitted record is the one built without a callback |
| Instrumentation.AsWrittenDropsCustomEntry | plugins/web/opentelemetry-instrumentation-navigation-timing/src/instrumentation.ts:66-71 | as written, an entry `{fetchStart: 123}` and a callback returning `{foo: 1}` emit exactly `{fetchStart: 123}`, without `foo` |
| Instrumentation.CustomEntryReachesEvent | plugins/web/opentelemetry-instrumentation-navigation-timing/src/instrumentation.ts:66-71 | corrected, the same input emits exactly `{fetchStart: 123, foo: 1}` |

## Left out

- The model does not capture browser and host APIs. `otperformance`, `getEntriesByType`, `window.document.readyState` and `add`/`removeEventListener` are foreign calls, so they are inputs or fields.
- `FireLoad` requires an incomplete document, because the host fires `load` once, right when the document completes.
- `hasKey` and the values of `PerformanceTimingNames` come from a package that is not part of this model. `hasKey` is map membership, so a property that holds the value `undefined` is not modelled. The name list is an abstract sequence.
- The model does not capture the event logger and diagnostic logger as objects. They are only appends to the `emitted` and `debugLog` logs. Exceptions either logger throws, and their propagation, are not modelled.
- Exceptions thrown by the user callback are not modelled either.
- The callback's JavaScript parameter types (`Performance` versus `PerformanceLegacy`) are not distinguished. Both are the raw `Record` of the chosen source.
- Host framework plumbing is left out: the `InstrumentationBase` inheritance, `init()` (an empty body), and the package name and version metadata. The base constructor's own actions, such as `setConfig` and any `enable` it performs, are not part of this model.
- Instrumentation.NavigationTimingInstrumentation.constructor: it keeps its `config` argument. That argument stands for the configuration in effect when the record is emitted. The source's own field initializer at line 39 throws the constructor argument away, and `AsWritten` models that. A later `setConfig` call from the base class could restore a configuration; that is not modelled.
- Timestamps are plain `real` numbers that are only copied. No floating-point behaviour is modelled. `Value` has only numbers and strings, so a callback that returns another JavaScript type (a boolean, an object) cannot be expressed.
- Records are maps, so key order is not modelled. In JavaScript, `{...newerEntries, ...entries}` at lines 70 and 89 lists the callback's keys first.
- Object spread copies only own enumerable properties, while `hasKey` tests with `in`. The model treats the callback's result as a plain map. So if a callback returns the raw host timing object, the model adds its keys, but JavaScript does not, because those keys live on the prototype.
- The model claims nothing about calling `enable` twice. Each call that finds the document incomplete binds and registers a fresh handle, and `disable` removes only the latest. The source leaves this unguarded.
- The order in which the host runs several `load` listeners is not modelled. All registered handlers do the same thing, so the order cannot be observed in the logs.

## Findings

| source | as written | input that shows it | evidently intended | confidence | as-written member | corrected member |
|---|---|---|---|---|---|---|
| plugins/web/opentelemetry-instrumentation-navigation-timing/src/instrumentation.ts:39-48 | the subclass field initializer `override _config = {}` runs after `super(PACKAGE_NAME, PACKAGE_VERSION, config)` and replaces the stored configuration with `{}`, so `addCustomEntriesCallback` is never seen at lines 67 and 86 | `config = {addCustomEntriesCallback: () => ({foo: 1})}`, document complete, entry `{fetchStart: 123}`, then `enable()`: the event carries `{fetchStart: 123}` | the constructor's configuration is kept, and the event carries `{fetchStart: 123, foo: 1}` | high, by reading the code; not executed | Instrumentation.NavigationTimingInstrumentation.AsWritten, Instrumentation.AsWrittenIgnoresCallback, Instrumentation.AsWrittenDropsCustomEntry | Instrumentation.NavigationTimingInstrumentation.constructor, Instrumentation.CustomEntryReachesEvent |
