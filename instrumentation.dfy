/**
  The load lifecycle of the navigation-timing instrumentation: `enable` either
  emits the timing record at once (document already complete) or registers a
  `load` handler; `disable` unregisters it; the host's `load` dispatch runs the
  registered handlers, each of which builds the record and emits it.
 */
module Instrumentation {
  import opened NavigationEntries

  /** Name of the emitted event. */
  const PageNavigationTimingEvent := "browser.page_navigation_timing"
  /** Label of the debug diagnostic written beside each emission. */
  const DiagnosticLabel := "PerformanceNavigationTiming"
  /** The document ready-state after which `enable` emits synchronously. */
  const Complete := "complete"

  /** The instrumentation's configuration: the one recognised option. */
  datatype Config = Config(addCustomEntriesCallback: Option<Callback>)

  /** One event handed to the event logger. */
  datatype Event = Event(name: string, data: Record)

  /** One debug line handed to the diagnostic logger. */
  datatype DebugLine = DebugLine(message: string, data: Record)

  /** Identity of a function value registered as a listener. Handle 0 is the
      unbound prototype method; every `bind` yields a new, larger handle. */
  type Handler = nat

  class NavigationTimingInstrumentation {
    const config: Config
    /** The values of the timing-phase name enumeration. */
    const phaseNames: seq<string>

    // Host inputs: the document's ready-state and the performance facility.
    var readyState: string
    var performance: Performance

    /** The `_onDocumentLoaded` field: the handle currently stored there. */
    var onDocumentLoaded: Handler
    /** How many bound copies have been made so far. */
    var bindings: nat
    /** The host's `load` listeners that belong to this instrumentation. */
    var loadListeners: set<Handler>

    // Collaborator logs.
    var emitted: seq<Event>
    var debugLog: seq<DebugLine>

    ghost predicate Valid()
      reads this
    {
      && onDocumentLoaded <= bindings
      && (forall h :: h in loadListeners ==> 1 <= h <= bindings)
      && (forall i :: 0 <= i < |emitted| ==> emitted[i].name == PageNavigationTimingEvent)
      && |debugLog| == |emitted|
    }

    /** The record a handler would build and emit in the current state. */
    ghost function CurrentEntries(): Record
      reads this
    {
      Collected(performance, phaseNames, config.addCustomEntriesCallback).entries
    }

    /** The constructor as evidently intended: the configuration passed in is
        the one `getPerformanceNavigationEntries` reads. */
    constructor (config: Config, phaseNames: seq<string>, readyState: string, performance: Performance)
      ensures Valid()
      ensures this.config == config && this.phaseNames == phaseNames
      ensures this.readyState == readyState && this.performance == performance
      ensures onDocumentLoaded == 0 && bindings == 0 && loadListeners == {}
      ensures emitted == [] && debugLog == []
    {
      this.config := config;
      this.phaseNames := phaseNames;
      this.readyState := readyState;
      this.performance := performance;
      onDocumentLoaded := 0;
      bindings := 0;
      loadListeners := {};
      emitted := [];
      debugLog := [];
    }

    /** The constructor as the source is written: the base constructor stores
        `config`, but the subclass's own field initializer `_config = {}` runs
        after `super(...)` returns and replaces it with an empty configuration. */
    constructor AsWritten(config: Config, phaseNames: seq<string>, readyState: string, performance: Performance)
      ensures Valid()
      ensures this.config == Config(None) && this.phaseNames == phaseNames
      ensures this.readyState == readyState && this.performance == performance
      ensures onDocumentLoaded == 0 && bindings == 0 && loadListeners == {}
      ensures emitted == [] && debugLog == []
    {
      this.config := Config(None);
      this.phaseNames := phaseNames;
      this.readyState := readyState;
      this.performance := performance;
      onDocumentLoaded := 0;
      bindings := 0;
      loadListeners := {};
      emitted := [];
      debugLog := [];
    }

    /** `_onDocumentLoaded`: build the record, emit it as one event, write one debug line. */
    method OnDocumentLoaded()
      requires Valid()
      modifies this`emitted, this`debugLog
      ensures Valid()
      ensures emitted == old(emitted) + [Event(PageNavigationTimingEvent, CurrentEntries())]
      ensures debugLog == old(debugLog) + [DebugLine(DiagnosticLabel, CurrentEntries())]
    {
      var entries, _ := GetPerformanceNavigationEntries(performance, phaseNames, config.addCustomEntriesCallback);
      emitted := emitted + [Event(PageNavigationTimingEvent, entries)];
      debugLog := debugLog + [DebugLine(DiagnosticLabel, entries)];
    }

    /** `enable`: emit now if the document is complete, otherwise bind a fresh
        handler, store it in `_onDocumentLoaded` and register it for `load`. */
    method Enable()
      requires Valid()
      modifies this
      ensures Valid()
      ensures readyState == old(readyState) && performance == old(performance)
      ensures old(readyState) == Complete ==>
                && emitted == old(emitted) + [Event(PageNavigationTimingEvent, CurrentEntries())]
                && debugLog == old(debugLog) + [DebugLine(DiagnosticLabel, CurrentEntries())]
                && loadListeners == old(loadListeners)
                && onDocumentLoaded == old(onDocumentLoaded) && bindings == old(bindings)
      ensures old(readyState) != Complete ==>
                && emitted == old(emitted) && debugLog == old(debugLog)
                && bindings == old(bindings) + 1 && onDocumentLoaded == bindings
                && onDocumentLoaded !in old(loadListeners)
                && loadListeners == old(loadListeners) + {onDocumentLoaded}
    {
      if readyState == Complete {
        OnDocumentLoaded();
      } else {
        bindings := bindings + 1;
        onDocumentLoaded := bindings;
        loadListeners := loadListeners + {onDocumentLoaded};
      }
    }

    /** `disable`: unregister whatever `_onDocumentLoaded` holds; a no-op when it is not registered. */
    method Disable()
      requires Valid()
      modifies this`loadListeners
      ensures Valid()
      ensures loadListeners == old(loadListeners) - {onDocumentLoaded}
    {
      loadListeners := loadListeners - {onDocumentLoaded};
    }

    /** Stand-in for the host: the document completes with `timingAtLoad` as its
        performance data and `load` is dispatched once to every registered handler. */
    method FireLoad(timingAtLoad: Performance)
      requires Valid()
      requires readyState != Complete
      modifies this`readyState, this`performance, this`emitted, this`debugLog
      ensures Valid()
      ensures readyState == Complete && performance == timingAtLoad
      ensures emitted == old(emitted) + Repeat(Event(PageNavigationTimingEvent, CurrentEntries()), |loadListeners|)
      ensures debugLog == old(debugLog) + Repeat(DebugLine(DiagnosticLabel, CurrentEntries()), |loadListeners|)
    {
      readyState := Complete;
      performance := timingAtLoad;
      ghost var event := Event(PageNavigationTimingEvent, CurrentEntries());
      ghost var line := DebugLine(DiagnosticLabel, CurrentEntries());
      var pending := loadListeners;
      while pending != {}
        invariant Valid()
        invariant pending <= loadListeners
        invariant readyState == Complete && performance == timingAtLoad
        invariant emitted == old(emitted) + Repeat(event, |loadListeners| - |pending|)
        invariant debugLog == old(debugLog) + Repeat(line, |loadListeners| - |pending|)
        decreases |pending|
      {
        var h :| h in pending;
        OnDocumentLoaded();
        pending := pending - {h};
      }
    }
  }

  /** `n` copies of `x`. */
  function Repeat<T>(x: T, n: nat): (r: seq<T>)
    ensures |r| == n
    ensures forall i :: 0 <= i < n ==> r[i] == x
  {
    if n == 0 then [] else Repeat(x, n - 1) + [x]
  }

  /** Enabling on a complete document emits exactly one event, carrying the built
      record, and registers no load handler. */
  method EnableWhenComplete(config: Config, phaseNames: seq<string>, perf: Performance)
    returns (events: seq<Event>, listeners: set<Handler>)
    ensures events == [Event(PageNavigationTimingEvent, Collected(perf, phaseNames, config.addCustomEntriesCallback).entries)]
    ensures listeners == {}
  {
    var instrumentation := new NavigationTimingInstrumentation(config, phaseNames, Complete, perf);
    instrumentation.Enable();
    events, listeners := instrumentation.emitted, instrumentation.loadListeners;
  }

  /** Enabling on an incomplete document emits nothing and registers one handler;
      the load that follows emits exactly once, with the data available at load. */
  method EnableThenLoad(config: Config, phaseNames: seq<string>, readyState: string, perf: Performance, timingAtLoad: Performance)
    returns (eventsBeforeLoad: seq<Event>, listeners: set<Handler>, events: seq<Event>)
    requires readyState != Complete
    ensures eventsBeforeLoad == [] && |listeners| == 1
    ensures events == [Event(PageNavigationTimingEvent, Collected(timingAtLoad, phaseNames, config.addCustomEntriesCallback).entries)]
  {
    var instrumentation := new NavigationTimingInstrumentation(config, phaseNames, readyState, perf);
    instrumentation.Enable();
    eventsBeforeLoad, listeners := instrumentation.emitted, instrumentation.loadListeners;
    instrumentation.FireLoad(timingAtLoad);
    events := instrumentation.emitted;
  }

  /** Disabling before load removes the handler, so the load emits nothing. */
  method DisableBeforeLoad(config: Config, phaseNames: seq<string>, readyState: string, perf: Performance, timingAtLoad: Performance)
    returns (events: seq<Event>, listeners: set<Handler>)
    requires readyState != Complete
    ensures events == [] && listeners == {}
  {
    var instrumentation := new NavigationTimingInstrumentation(config, phaseNames, readyState, perf);
    instrumentation.Enable();
    instrumentation.Disable();
    instrumentation.FireLoad(timingAtLoad);
    events, listeners := instrumentation.emitted, instrumentation.loadListeners;
  }

  /** Disabling after load does not undo the emission that already happened. */
  method DisableAfterLoad(config: Config, phaseNames: seq<string>, readyState: string, perf: Performance, timingAtLoad: Performance)
    returns (events: seq<Event>, listeners: set<Handler>)
    requires readyState != Complete
    ensures events == [Event(PageNavigationTimingEvent, Collected(timingAtLoad, phaseNames, config.addCustomEntriesCallback).entries)]
    ensures listeners == {}
  {
    var instrumentation := new NavigationTimingInstrumentation(config, phaseNames, readyState, perf);
    instrumentation.Enable();
    instrumentation.FireLoad(timingAtLoad);
    instrumentation.Disable();
    events, listeners := instrumentation.emitted, instrumentation.loadListeners;
  }

  /** Disabling an instrumentation that was never enabled is harmless: the load emits nothing. */
  method DisableWithoutEnable(config: Config, phaseNames: seq<string>, readyState: string, perf: Performance, timingAtLoad: Performance)
    returns (events: seq<Event>)
    requires readyState != Complete
    ensures events == []
  {
    var instrumentation := new NavigationTimingInstrumentation(config, phaseNames, readyState, perf);
    instrumentation.Disable();
    instrumentation.FireLoad(timingAtLoad);
    events := instrumentation.emitted;
  }

  /** As written, a configured callback never takes effect: the instrumentation
      holds no callback, so none is ever invoked, and enabling on a complete
      document emits the record built as if no callback were set. */
  method AsWrittenIgnoresCallback(config: Config, phaseNames: seq<string>, perf: Performance)
    returns (events: seq<Event>, storedCallback: Option<Callback>)
    ensures events == [Event(PageNavigationTimingEvent, Collected(perf, phaseNames, None).entries)]
    ensures storedCallback.None?
    ensures Collected(perf, phaseNames, storedCallback).invocation.None?
  {
    var instrumentation := new NavigationTimingInstrumentation.AsWritten(config, phaseNames, Complete, perf);
    instrumentation.Enable();
    events := instrumentation.emitted;
    storedCallback := instrumentation.config.addCustomEntriesCallback;
  }

  /** An entry `{fetchStart: 123}` and a callback returning `{foo: 1}`. */
  function FooCallbackConfig(): Config
  {
    Config(Some((source: Record, copy: Record) => map["foo" := Number(1.0)]))
  }

  function FetchStartOnly(): Performance
  {
    Performance(Some([map["fetchStart" := Number(123.0)]]), None)
  }

  /** Counterexample: as written, the callback's `foo` entry is missing from the emitted event. */
  method AsWrittenDropsCustomEntry() returns (events: seq<Event>)
    ensures |events| == 1 && "foo" !in events[0].data
    ensures events[0].data == map["fetchStart" := Number(123.0)]
  {
    var instrumentation := new NavigationTimingInstrumentation.AsWritten(FooCallbackConfig(), ["fetchStart"], Complete, FetchStartOnly());
    instrumentation.Enable();
    events := instrumentation.emitted;
    StandardEntriesCorrect(NavigationEntry(map["fetchStart" := Number(123.0)]), ["fetchStart"]);
  }

  /** Corrected: the same input puts the callback's `foo` entry into the emitted event. */
  method CustomEntryReachesEvent() returns (events: seq<Event>)
    ensures |events| == 1
    ensures events[0].data == map["fetchStart" := Number(123.0), "foo" := Number(1.0)]
  {
    var instrumentation := new NavigationTimingInstrumentation(FooCallbackConfig(), ["fetchStart"], Complete, FetchStartOnly());
    instrumentation.Enable();
    events := instrumentation.emitted;
    StandardEntriesCorrect(NavigationEntry(map["fetchStart" := Number(123.0)]), ["fetchStart"]);
  }
}
