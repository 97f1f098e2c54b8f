/**
 * The browser's view of the entities it receives from the backend. Only the fields the
 * browser logic reads are kept; timestamps, ARNs and descriptions only feed display text.
 */
module Entities {
  import opened Wrappers
  import opened JsonValue

  /** A strategy nested in a memory; `namespaces` are path templates. */
  datatype Strategy = Strategy(
    strategyId: string,
    name: string,
    status: Option<string>,
    namespaces: Option<seq<string>>)

  /** A memory as returned by the detail endpoint. */
  datatype MemoryView = MemoryView(
    id: string,
    name: Option<string>,
    status: Option<string>,
    strategies: seq<Strategy>)

  /** An event row of a list-events result. */
  datatype EventItem = EventItem(
    eventId: string,
    eventType: Option<string>,
    data: Option<Json>,
    metadata: Option<Json>)

  /** A memory record of a list or retrieve result; it may carry its id under either name. */
  datatype RecordItem = RecordItem(
    recordId: Option<string>,
    memoryRecordId: Option<string>,
    memoryStrategyId: Option<string>,
    content: Option<Json>,
    metadata: Option<Json>)

  /** `s || fallback` for an optional string: a missing or empty string gives way. */
  function OrElse(s: Option<string>, fallback: Option<string>): (r: Option<string>)
    ensures r.Some? && r.value != "" ==> r == s || r == fallback
    ensures s.Some? && s.value != "" ==> r == s
    ensures !(s.Some? && s.value != "") ==> r == fallback
  {
    if s.Some? && s.value != "" then s else fallback
  }

  /** `s || fallback` where the fallback is a literal: what a table cell shows. */
  function OrDefault(s: Option<string>, fallback: string): (r: string)
    ensures s.Some? && s.value != "" ==> r == s.value
    ensures s.None? || s.value == "" ==> r == fallback
  {
    if s.Some? && s.value != "" then s.value else fallback
  }
}
