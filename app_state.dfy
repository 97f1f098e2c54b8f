/**
 * The stateful part of the browser page: the results surface of a strategy
 * tab, the API-call executor with its three validators, the lookup maps that
 * the events and records tables fill for the JSON viewer, and the selection
 * of the current memory.
 *
 * The surface is an abstract state value instead of HTML: each write of
 * `container.innerHTML` becomes a write of a `SurfaceState`, and a ghost log
 * keeps the order of writes, producer calls and display calls.
 */
module AppState {
  import opened Wrappers
  import opened JsonValue
  import opened JsStrings
  import opened Preview
  import opened Entities
  import opened Namespaces

  // ---------------------------------------------------------------------
  // Lookup maps
  // ---------------------------------------------------------------------

  /**
   * The map that `items.forEach(x => map[key(x)] = x)` builds from an empty
   * map, skipping items without a key: a later item overwrites an earlier
   * one with the same key.
   */
  function IndexBy<T>(items: seq<T>, key: T -> Option<string>): (m: map<string, T>)
    ensures forall k :: k in m ==> key(m[k]) == Some(k)
    decreases |items|
  {
    if items == [] then map[]
    else
      var rest := IndexBy(items[..|items| - 1], key);
      var last := items[|items| - 1];
      match key(last)
      case Some(k) => rest[k := last]
      case None => rest
  }

  /** An index of `items` whose key is `k` and after which no item has key `k`. */
  ghost predicate LastWithKey<T>(items: seq<T>, key: T -> Option<string>, k: string, i: int)
  {
    0 <= i < |items| && key(items[i]) == Some(k) &&
    forall j :: i < j < |items| ==> key(items[j]) != Some(k)
  }

  /**
   * The map holds exactly the keys some item carries, and each key maps to
   * the last item that carries it.
   */
  lemma {:induction false} IndexByLookup<T>(items: seq<T>, key: T -> Option<string>, k: string)
    ensures k in IndexBy(items, key) <==> exists i :: 0 <= i < |items| && key(items[i]) == Some(k)
    ensures k in IndexBy(items, key) ==>
      exists i :: LastWithKey(items, key, k, i) && IndexBy(items, key)[k] == items[i]
    decreases |items|
  {
    if items != [] {
      var n := |items| - 1;
      var init := items[..n];
      var whole, rest := IndexBy(items, key), IndexBy(init, key);
      IndexByLookup(init, key, k);
      if key(items[n]) == Some(k) {
        assert whole == rest[k := items[n]];
        assert LastWithKey(items, key, k, n);
      } else {
        assert k in whole <==> k in rest;
        assert k in whole ==> whole[k] == rest[k];
        if k in rest {
          var i :| LastWithKey(init, key, k, i) && rest[k] == init[i];
          assert init[i] == items[i];
          assert LastWithKey(items, key, k, i);
        }
        if exists i :: 0 <= i < |items| && key(items[i]) == Some(k) {
          var i :| 0 <= i < |items| && key(items[i]) == Some(k);
          assert key(init[i]) == Some(k);
        }
      }
    }
  }

  /** The key of an event in the events map: its id. */
  function EventKey(e: EventItem): Option<string>
  {
    Some(e.eventId)
  }

  /**
   * The key of a record in the records map: `recordId || memoryRecordId`,
   * and no key at all when both are missing or empty.
   */
  function RecordKey(r: RecordItem): (k: Option<string>)
    ensures k.Some? ==> k.value != "" && (k == r.recordId || k == r.memoryRecordId)
    ensures r.recordId.Some? && r.recordId.value != "" ==> k == r.recordId
    ensures (r.recordId.None? || r.recordId.value == "") && r.memoryRecordId.Some? && r.memoryRecordId.value != "" ==> k == r.memoryRecordId
    ensures k.None? <==>
      (r.recordId.None? || r.recordId.value == "") &&
      (r.memoryRecordId.None? || r.memoryRecordId.value == "")
  {
    var id := OrElse(r.recordId, r.memoryRecordId);
    if id.Some? && id.value != "" then id else None
  }

  // ---------------------------------------------------------------------
  // The results surface
  // ---------------------------------------------------------------------

  /** One row of the events table. */
  datatype EventRow = EventRow(eventId: string, eventType: string, preview: Preview)

  /** One row of the records table; `recordId` is also the id its JSON button looks up. */
  datatype RecordRow = RecordRow(recordId: string, strategyId: string, preview: Preview)

  /** What a results container shows. */
  datatype SurfaceState =
    | Blank
    | Warning(message: string)
    | Loading(message: string)
    | Failure(message: string)
    | NoEventsFound
    | EventsTable(eventRows: seq<EventRow>)
    | NoRecordsFound(namespace: string)
    | RecordsTable(title: string, shownNamespace: string, recordRows: seq<RecordRow>)

  /** One observable step of a results container's history. */
  datatype Step = Wrote(state: SurfaceState) | ProducerCalled | DisplayCalled

  /** The state shown after a history: the last one written. */
  function LastWritten(log: seq<Step>): SurfaceState
    decreases |log|
  {
    if log == [] then Blank
    else if log[|log| - 1].Wrote? then log[|log| - 1].state
    else LastWritten(log[..|log| - 1])
  }

  lemma LastWrittenSkips(log: seq<Step>, step: Step)
    requires !step.Wrote?
    ensures LastWritten(log + [step]) == LastWritten(log)
  {
    assert (log + [step])[..|log|] == log;
  }

  /** A results container of one strategy tab. */
  class Panel {
    var content: SurfaceState
    ghost var log: seq<Step>

    ghost predicate Valid()
      reads this
    {
      content == LastWritten(log)
    }

    constructor ()
      ensures Valid() && content == Blank && log == []
    {
      content := Blank;
      log := [];
    }

    /** Overwrites what the container shows. */
    method Write(s: SurfaceState)
      requires Valid()
      modifies this
      ensures Valid()
      ensures content == s && log == old(log) + [Wrote(s)]
    {
      content := s;
      log := log + [Wrote(s)];
    }

    /** Records a step that does not write the container. */
    ghost method Note(step: Step)
      requires Valid() && !step.Wrote?
      modifies this
      ensures Valid()
      ensures content == old(content) && log == old(log) + [step]
    {
      LastWrittenSkips(log, step);
      log := log + [step];
    }
  }

  /**
   * The row of one event: its id, its type or "N/A", and the preview of its data and
   * metadata. No cell is ever blank.
   */
  function EventRowOf(e: EventItem): (row: EventRow)
    ensures row.eventId == e.eventId
    ensures row.eventType != ""
    ensures e.eventType.Some? && e.eventType.value != "" ==> row.eventType == e.eventType.value
    ensures !(e.eventType.Some? && e.eventType.value != "") ==> row.eventType == "N/A"
    ensures row.preview == NoContent <==> !Present(e.data) && !Present(e.metadata)
  {
    EventRow(e.eventId, OrDefault(e.eventType, "N/A"), GenerateContentPreview(e.data, e.metadata))
  }

  /**
   * The row of one record: the id its JSON button carries is the record's key in the
   * records map, or "N/A" for a record without one; the strategy cell is never blank.
   */
  function RecordRowOf(rec: RecordItem): (row: RecordRow)
    ensures RecordKey(rec).Some? ==> row.recordId == RecordKey(rec).value
    ensures RecordKey(rec).None? ==> row.recordId == "N/A"
    ensures row.strategyId != ""
    ensures row.preview == NoContent <==> !Present(rec.content) && !Present(rec.metadata)
  {
    RecordRow(OrDefault(OrElse(rec.recordId, rec.memoryRecordId), "N/A"),
              OrDefault(rec.memoryStrategyId, "N/A"),
              GenerateContentPreview(rec.content, rec.metadata))
  }

  function EventRows(events: seq<EventItem>): seq<EventRow>
  {
    seq(|events|, i requires 0 <= i < |events| => EventRowOf(events[i]))
  }

  function RecordRows(records: seq<RecordItem>): seq<RecordRow>
  {
    seq(|records|, i requires 0 <= i < |records| => RecordRowOf(records[i]))
  }

  /** True when a result list is missing or empty, the early-return case of both tables. */
  predicate NothingFound<T>(items: Option<seq<T>>)
  {
    items.None? || items.value == []
  }

  /** What `displayEvents` shows for a result's `events`: one row per event, in order. */
  function EventsView(events: Option<seq<EventItem>>): (v: SurfaceState)
    ensures v == NoEventsFound <==> NothingFound(events)
    ensures v.EventsTable? ==> |v.eventRows| == |events.value|
    ensures v.EventsTable? ==> forall i :: 0 <= i < |events.value| ==> v.eventRows[i] == EventRowOf(events.value[i])
  {
    if NothingFound(events) then NoEventsFound else EventsTable(EventRows(events.value))
  }

  /**
   * What `displayRecords` shows for a result's `records`: the namespace alone when there are
   * none, otherwise the title, the namespace and one row per record, in order.
   */
  function RecordsView(records: Option<seq<RecordItem>>, namespace: string, title: string): (v: SurfaceState)
    ensures NothingFound(records) ==> v == NoRecordsFound(namespace)
    ensures !NothingFound(records) ==> v.RecordsTable? && v.title == title && v.shownNamespace == namespace
    ensures v.RecordsTable? ==> |v.recordRows| == |records.value|
    ensures v.RecordsTable? ==> forall i :: 0 <= i < |records.value| ==> v.recordRows[i] == RecordRowOf(records.value[i])
  {
    if NothingFound(records) then NoRecordsFound(namespace)
    else RecordsTable(title, namespace, RecordRows(records.value))
  }

  /** Every JSON button of an events table finds an event with that id in the rebuilt map. */
  lemma EventButtonsResolve(events: seq<EventItem>, i: int)
    requires 0 <= i < |events|
    ensures EventsView(Some(events)) == EventsTable(EventRows(events))
    ensures var id := EventRows(events)[i].eventId;
      id == events[i].eventId && id in IndexBy(events, EventKey) &&
      IndexBy(events, EventKey)[id].eventId == id
  {
    var id := events[i].eventId;
    assert EventKey(events[i]) == Some(id);
    IndexByLookup(events, EventKey, id);
  }

  /**
   * A record with an id shows that id on its JSON button, and the rebuilt map
   * holds a record with the same id under it; a record without one shows
   * "N/A", which finds only a record whose id is literally "N/A".
   */
  lemma RecordButtonsResolve(records: seq<RecordItem>, i: int)
    requires 0 <= i < |records|
    ensures RecordKey(records[i]).Some? ==>
      var id := RecordKey(records[i]).value;
      RecordRows(records)[i].recordId == id && id in IndexBy(records, RecordKey) &&
      RecordKey(IndexBy(records, RecordKey)[id]) == Some(id)
    ensures RecordKey(records[i]).None? ==> RecordRows(records)[i].recordId == "N/A"
  {
    var k := RecordKey(records[i]);
    if k.Some? {
      IndexByLookup(records, RecordKey, k.value);
    }
  }

  // ---------------------------------------------------------------------
  // Validators
  // ---------------------------------------------------------------------

  const EventsWarning := "Please enter both Session ID and Actor ID."
  const RecordsWarning := "Please enter a namespace."
  const RetrieveWarning := "Please enter both search query and namespace."

  /** Every required field is non-empty after trimming. */
  predicate Filled(fields: seq<string>)
  {
    forall i :: 0 <= i < |fields| ==> Trim(fields[i]) != ""
  }

  /** The field holds a character that is not whitespace. */
  predicate HasVisibleChar(s: string)
  {
    exists j :: 0 <= j < |s| && !IsJsWhitespace(s[j])
  }

  /** The fields count as filled iff each holds a character that is not whitespace. */
  lemma FilledIffNonBlank(fields: seq<string>)
    ensures Filled(fields) <==> forall i :: 0 <= i < |fields| ==> HasVisibleChar(fields[i])
  {
    forall i | 0 <= i < |fields|
      ensures Trim(fields[i]) != "" <==> HasVisibleChar(fields[i])
    {
      TrimIsEmptyIff(fields[i]);
    }
  }

  /**
   * The validator of one form: true iff every field is filled; otherwise it
   * shows `warning` in the container.
   */
  method ValidateRequired(panel: Panel, fields: seq<string>, warning: string) returns (ok: bool)
    requires panel.Valid()
    modifies panel
    ensures panel.Valid()
    ensures ok <==> Filled(fields)
    ensures ok ==> panel.content == old(panel.content) && panel.log == old(panel.log)
    ensures !ok ==> panel.content == Warning(warning) && panel.log == old(panel.log) + [Wrote(Warning(warning))]
  {
    ok := forall i | 0 <= i < |fields| :: Trim(fields[i]) != "";
    if !ok {
      panel.Write(Warning(warning));
    }
  }

  // ---------------------------------------------------------------------
  // The API-call executor
  // ---------------------------------------------------------------------

  /** The JSON a producer returns, with the two result lists the displays read. */
  datatype Payload = Payload(events: Option<seq<EventItem>>, records: Option<seq<RecordItem>>)

  /** The display function handed to the executor. */
  datatype Display =
    | ShowEvents
    | ShowRecords(namespace: string, title: string)

  /** What a display function shows for a payload. */
  function Rendered(display: Display, p: Payload): SurfaceState
  {
    match display
    case ShowEvents => EventsView(p.events)
    case ShowRecords(ns, title) => RecordsView(p.records, ns, title)
  }

  /**
   * The steps of a call whose validation passed: the loading message, the producer call,
   * and then either the display call and its rendering or the prefixed error.
   */
  function CallSteps(loadingMessage: string, errorPrefix: string, display: Display,
                     outcome: Result<Payload, string>): (steps: seq<Step>)
    ensures |steps| == if outcome.Ok? then 4 else 3
    ensures steps[0] == Wrote(Loading(loadingMessage)) && steps[1] == ProducerCalled
    ensures outcome.Ok? ==> steps[2] == DisplayCalled
    ensures steps[|steps| - 1] ==
      Wrote(if outcome.Ok? then Rendered(display, outcome.value) else Failure(errorPrefix + ": " + outcome.error))
  {
    [Wrote(Loading(loadingMessage)), ProducerCalled] +
    match outcome
    case Ok(p) => [DisplayCalled, Wrote(Rendered(display, p))]
    case Err(message) => [Wrote(Failure(errorPrefix + ": " + message))]
  }

  /**
   * A call that passed validation shows the loading message before the
   * producer runs, calls the producer once, calls the display once exactly
   * when the producer succeeded, and leaves the container showing either the
   * rendered result or the prefixed error.
   */
  lemma CallOrder(log: seq<Step>, loadingMessage: string, errorPrefix: string, display: Display,
                  outcome: Result<Payload, string>)
    ensures var steps := CallSteps(loadingMessage, errorPrefix, display, outcome);
      steps[0] == Wrote(Loading(loadingMessage)) && steps[1] == ProducerCalled &&
      multiset(steps)[ProducerCalled] == 1 &&
      multiset(steps)[DisplayCalled] == (if outcome.Ok? then 1 else 0) &&
      LastWritten(log + steps) ==
        (if outcome.Ok? then Rendered(display, outcome.value)
         else Failure(errorPrefix + ": " + outcome.error))
  {
    var steps := CallSteps(loadingMessage, errorPrefix, display, outcome);
    assert steps[|steps| - 1].Wrote?;
    assert (log + steps)[|log + steps| - 1] == steps[|steps| - 1];
  }

  /** What the JSON viewer is showing: a title and the item. */
  datatype Inspected = InspectedEvent(event: EventItem) | InspectedRecord(record: RecordItem)
  datatype Inspection = Inspection(title: string, item: Inspected)

  /** The page's global state. */
  class Browser {
    var currentMemory: Option<MemoryView>
    var eventsById: map<string, EventItem>
    var recordsById: map<string, RecordItem>
    var inspected: Option<Inspection>

    constructor ()
      ensures currentMemory.None? && eventsById == map[] && recordsById == map[] && inspected.None?
    {
      currentMemory := None;
      eventsById := map[];
      recordsById := map[];
      inspected := None;
    }

    /** The strategy at `index` of the current memory, if there is one. */
    function StrategyAt(index: int): (r: Option<Strategy>)
      reads this
      ensures r.Some? <==> currentMemory.Some? && 0 <= index < |currentMemory.value.strategies|
      ensures r.Some? ==> r.value == currentMemory.value.strategies[index]
    {
      if currentMemory.Some? && 0 <= index < |currentMemory.value.strategies|
      then Some(currentMemory.value.strategies[index])
      else None
    }

    /** A successful details fetch becomes the current memory; a failed one changes nothing. */
    method LoadMemoryDetails(outcome: Result<MemoryView, string>)
      modifies this`currentMemory
      ensures outcome.Ok? ==> currentMemory == Some(outcome.value)
      ensures outcome.Err? ==> currentMemory == old(currentMemory)
    {
      if outcome.Ok? {
        currentMemory := Some(outcome.value);
      }
    }

    /** Refreshing clears the selection. */
    method RefreshData()
      modifies this`currentMemory
      ensures currentMemory.None?
    {
      currentMemory := None;
    }

    /**
     * Opening the list-records or retrieve form of a strategy prepopulates
     * its namespace input when that is empty; an unknown strategy changes
     * nothing.
     */
    method OpenNamespaceForm(index: int, input: NamespaceInput?)
      modifies input
      ensures StrategyAt(index).None? && input != null ==> input.value == old(input.value)
      ensures StrategyAt(index).Some? && input != null ==>
        input.value == PrefilledValue(old(input.value), StrategyAt(index).value)
    {
      var s := StrategyAt(index);
      if s.Some? {
        Prepopulate(input, s.value);
      }
    }

    /**
     * `displayEvents`: a non-empty list replaces the events map with one built
     * from it and shows the table; a missing or empty list keeps the old map.
     */
    method DisplayEvents(panel: Panel, events: Option<seq<EventItem>>)
      requires panel.Valid()
      modifies this`eventsById, panel
      ensures panel.Valid()
      ensures panel.content == EventsView(events) && panel.log == old(panel.log) + [Wrote(EventsView(events))]
      ensures NothingFound(events) ==> eventsById == old(eventsById)
      ensures !NothingFound(events) ==> eventsById == IndexBy(events.value, EventKey)
    {
      if NothingFound(events) {
        panel.Write(NoEventsFound);
        return;
      }
      var es := events.value;
      eventsById := map[];
      var i := 0;
      while i < |es|
        modifies this`eventsById
        invariant 0 <= i <= |es|
        invariant eventsById == IndexBy(es[..i], EventKey)
      {
        assert es[..i + 1][..i] == es[..i];
        eventsById := eventsById[es[i].eventId := es[i]];
        i := i + 1;
      }
      assert es[..|es|] == es;
      panel.Write(EventsTable(EventRows(es)));
    }

    /**
     * `displayRecords`: a non-empty list replaces the records map with its
     * records that have an id, and shows the table; a missing or empty list
     * keeps the old map.
     */
    method DisplayRecords(panel: Panel, records: Option<seq<RecordItem>>, namespace: string,
                          title: string := "Memory Records")
      requires panel.Valid()
      modifies this`recordsById, panel
      ensures panel.Valid()
      ensures panel.content == RecordsView(records, namespace, title)
      ensures panel.log == old(panel.log) + [Wrote(RecordsView(records, namespace, title))]
      ensures NothingFound(records) ==> recordsById == old(recordsById)
      ensures !NothingFound(records) ==> recordsById == IndexBy(records.value, RecordKey)
    {
      if NothingFound(records) {
        panel.Write(NoRecordsFound(namespace));
        return;
      }
      var rs := records.value;
      recordsById := map[];
      var i := 0;
      while i < |rs|
        modifies this`recordsById
        invariant 0 <= i <= |rs|
        invariant recordsById == IndexBy(rs[..i], RecordKey)
      {
        assert rs[..i + 1][..i] == rs[..i];
        var id := OrElse(rs[i].recordId, rs[i].memoryRecordId);
        if id.Some? && id.value != "" {
          recordsById := recordsById[id.value := rs[i]];
        }
        i := i + 1;
      }
      assert rs[..|rs|] == rs;
      panel.Write(RecordsTable(title, namespace, RecordRows(rs)));
    }

    /**
     * `executeApiCall`: nothing happens when validation failed; otherwise
     * the loading message is shown, the producer runs, and either the display
     * renders its result or the container shows the prefixed error.
     */
    method ExecuteApiCall(panel: Panel, valid: bool, outcome: Result<Payload, string>, display: Display,
                          loadingMessage: string := "Loading...", errorPrefix: string := "Error")
      requires panel.Valid()
      modifies this`eventsById, this`recordsById, panel
      ensures panel.Valid()
      ensures !valid ==>
        panel.content == old(panel.content) && panel.log == old(panel.log) &&
        eventsById == old(eventsById) && recordsById == old(recordsById)
      ensures valid ==>
        panel.log == old(panel.log) + CallSteps(loadingMessage, errorPrefix, display, outcome)
      ensures valid && outcome.Err? ==>
        panel.content == Failure(errorPrefix + ": " + outcome.error) &&
        eventsById == old(eventsById) && recordsById == old(recordsById)
      ensures valid && outcome.Ok? ==> panel.content == Rendered(display, outcome.value)
      ensures valid && outcome.Ok? && display.ShowEvents? ==>
        recordsById == old(recordsById) &&
        eventsById == (if NothingFound(outcome.value.events) then old(eventsById)
                       else IndexBy(outcome.value.events.value, EventKey))
      ensures valid && outcome.Ok? && display.ShowRecords? ==>
        eventsById == old(eventsById) &&
        recordsById == (if NothingFound(outcome.value.records) then old(recordsById)
                        else IndexBy(outcome.value.records.value, RecordKey))
    {
      if !valid {
        return;
      }
      panel.Write(Loading(loadingMessage));
      panel.Note(ProducerCalled);
      match outcome {
        case Ok(p) =>
          panel.Note(DisplayCalled);
          match display {
            case ShowEvents => DisplayEvents(panel, p.events);
            case ShowRecords(ns, title) => DisplayRecords(panel, p.records, ns, title);
          }
        case Err(message) =>
          panel.Write(Failure(errorPrefix + ": " + message));
      }
    }

    /** `executeListEvents` on the session and actor ids typed into the form. */
    method ExecuteListEvents(index: int, panel: Panel, sessionId: string, actorId: string,
                             outcome: Result<Payload, string>)
      requires panel.Valid()
      modifies this`eventsById, this`recordsById, panel
      ensures panel.Valid()
      ensures recordsById == old(recordsById)
      ensures StrategyAt(index).None? ==>
        panel.log == old(panel.log) && eventsById == old(eventsById)
      ensures StrategyAt(index).Some? && !Filled([sessionId, actorId]) ==>
        panel.log == old(panel.log) + [Wrote(Warning(EventsWarning))] && eventsById == old(eventsById)
      ensures StrategyAt(index).Some? && Filled([sessionId, actorId]) ==>
        panel.log == old(panel.log) +
          CallSteps("Loading events...", "Error loading events", ShowEvents, outcome)
      ensures StrategyAt(index).Some? && Filled([sessionId, actorId]) ==>
        eventsById == (if outcome.Ok? && !NothingFound(outcome.value.events)
                       then IndexBy(outcome.value.events.value, EventKey) else old(eventsById))
    {
      if StrategyAt(index).None? {
        return;
      }
      var ok := ValidateRequired(panel, [sessionId, actorId], EventsWarning);
      ExecuteApiCall(panel, ok, outcome, ShowEvents, "Loading events...", "Error loading events");
    }

    /** `executeListMemoryRecords` on the namespace typed into the form. */
    method ExecuteListMemoryRecords(index: int, panel: Panel, namespace: string,
                                    outcome: Result<Payload, string>)
      requires panel.Valid()
      modifies this`eventsById, this`recordsById, panel
      ensures panel.Valid()
      ensures eventsById == old(eventsById)
      ensures StrategyAt(index).None? ==>
        panel.log == old(panel.log) && recordsById == old(recordsById)
      ensures StrategyAt(index).Some? && !Filled([namespace]) ==>
        panel.log == old(panel.log) + [Wrote(Warning(RecordsWarning))] && recordsById == old(recordsById)
      ensures StrategyAt(index).Some? && Filled([namespace]) ==>
        panel.log == old(panel.log) +
          CallSteps("Loading memory records...", "Error loading memory records",
                    ShowRecords(Trim(namespace), "Memory Records"), outcome)
      ensures StrategyAt(index).Some? && Filled([namespace]) ==>
        recordsById == (if outcome.Ok? && !NothingFound(outcome.value.records)
                        then IndexBy(outcome.value.records.value, RecordKey) else old(recordsById))
    {
      if StrategyAt(index).None? {
        return;
      }
      var ok := ValidateRequired(panel, [namespace], RecordsWarning);
      ExecuteApiCall(panel, ok, outcome, ShowRecords(Trim(namespace), "Memory Records"),
                     "Loading memory records...", "Error loading memory records");
    }

    /** `executeRetrieveMemoryRecords` on the query and namespace typed into the form. */
    method ExecuteRetrieveMemoryRecords(index: int, panel: Panel, query: string, namespace: string,
                                        outcome: Result<Payload, string>)
      requires panel.Valid()
      modifies this`eventsById, this`recordsById, panel
      ensures panel.Valid()
      ensures eventsById == old(eventsById)
      ensures StrategyAt(index).None? ==>
        panel.log == old(panel.log) && recordsById == old(recordsById)
      ensures StrategyAt(index).Some? && !Filled([query, namespace]) ==>
        panel.log == old(panel.log) + [Wrote(Warning(RetrieveWarning))] && recordsById == old(recordsById)
      ensures StrategyAt(index).Some? && Filled([query, namespace]) ==>
        panel.log == old(panel.log) +
          CallSteps("Retrieving memory records...", "Error retrieving memory records",
                    ShowRecords(Trim(namespace), "Search results for \"" + Trim(query) + "\""), outcome)
      ensures StrategyAt(index).Some? && Filled([query, namespace]) ==>
        recordsById == (if outcome.Ok? && !NothingFound(outcome.value.records)
                        then IndexBy(outcome.value.records.value, RecordKey) else old(recordsById))
    {
      if StrategyAt(index).None? {
        return;
      }
      var ok := ValidateRequired(panel, [query, namespace], RetrieveWarning);
      ExecuteApiCall(panel, ok, outcome,
                     ShowRecords(Trim(namespace), "Search results for \"" + Trim(query) + "\""),
                     "Retrieving memory records...", "Error retrieving memory records");
    }

    /** `showEventJson`: opens the viewer on a known event; an unknown id changes nothing. */
    method ShowEventJson(eventId: string)
      modifies this`inspected
      ensures eventId in eventsById ==>
        inspected == Some(Inspection("Event: " + eventId, InspectedEvent(eventsById[eventId])))
      ensures eventId !in eventsById ==> inspected == old(inspected)
    {
      if eventId in eventsById {
        inspected := Some(Inspection("Event: " + eventId, InspectedEvent(eventsById[eventId])));
      }
    }

    /** `showRecordJson`: opens the viewer on a known record; an unknown id changes nothing. */
    method ShowRecordJson(recordId: string)
      modifies this`inspected
      ensures recordId in recordsById ==>
        inspected == Some(Inspection("Memory Record: " + recordId, InspectedRecord(recordsById[recordId])))
      ensures recordId !in recordsById ==> inspected == old(inspected)
    {
      if recordId in recordsById {
        inspected := Some(Inspection("Memory Record: " + recordId, InspectedRecord(recordsById[recordId])));
      }
    }

    /** `handleJsonViewClick`: dispatches on the button's item type; any other type does nothing. */
    method HandleJsonViewClick(itemType: string, itemId: string)
      modifies this`inspected
      ensures itemType == "event" && itemId in eventsById ==>
        inspected == Some(Inspection("Event: " + itemId, InspectedEvent(eventsById[itemId])))
      ensures itemType == "record" && itemId in recordsById ==>
        inspected == Some(Inspection("Memory Record: " + itemId, InspectedRecord(recordsById[itemId])))
      ensures itemType == "event" && itemId !in eventsById ==> inspected == old(inspected)
      ensures itemType == "record" && itemId !in recordsById ==> inspected == old(inspected)
      ensures itemType != "event" && itemType != "record" ==> inspected == old(inspected)
    {
      if itemType == "event" {
        ShowEventJson(itemId);
      } else if itemType == "record" {
        ShowRecordJson(itemId);
      }
    }
  }
}
