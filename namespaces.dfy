/**
 * Namespace templates: the first template of a strategy, with its strategy-id placeholder
 * filled in, seeds the namespace inputs of the records and retrieve forms without ever
 * overwriting what the user typed.
 */
module Namespaces {
  import opened Wrappers
  import opened JsStrings
  import opened Entities

  const Placeholder := "{memoryStrategyId}"
  const DefaultNamespace := "/default/"

  /**
   * `getSimplifiedNamespace(strategy)`: "/default/" without templates; otherwise the first
   * template with its first placeholder replaced by the strategy id (`String.replace`).
   */
  function GetSimplifiedNamespace(s: Strategy): (r: string)
    ensures s.namespaces.None? || s.namespaces.value == [] ==> r == DefaultNamespace
    ensures s.namespaces.Some? && s.namespaces.value != [] && !Includes(s.namespaces.value[0], Placeholder) ==>
      r == s.namespaces.value[0]
  {
    if s.namespaces.None? || |s.namespaces.value| == 0 then DefaultNamespace
    else
      var ns := s.namespaces.value[0];
      if Includes(ns, Placeholder) then ReplaceFirst(ns, Placeholder, s.strategyId) else ns
  }

  /**
   * When the first template is `before + Placeholder + after` and the placeholder does not
   * occur earlier, the result is `before + strategyId + after`: later placeholders in
   * `after` stay as they are. A strategy id containing `$` would go through the
   * replacement-pattern rules of `String.replace` instead.
   */
  lemma ResolvesFirstPlaceholderOnly(s: Strategy, before: string, after: string)
    requires s.namespaces.Some? && s.namespaces.value != []
    requires s.namespaces.value[0] == before + Placeholder + after
    requires forall j :: 0 <= j < |before| ==> !OccursAt(s.namespaces.value[0], Placeholder, j)
    requires '$' !in s.strategyId
    ensures GetSimplifiedNamespace(s) == before + s.strategyId + after
  {
    var ns := s.namespaces.value[0];
    assert OccursAt(ns, Placeholder, |before|) by {
      assert ns[|before|..|before| + |Placeholder|] == Placeholder;
    }
    var i := IndexOf(ns, Placeholder);
    assert i == Some(|before|);
    ReplaceFirstLiteral(ns, Placeholder, s.strategyId);
    assert ns[..|before|] == before && ns[|before| + |Placeholder|..] == after;
  }

  /** Worked example: the template "/{memoryStrategyId}/prefs/" becomes "/" + id + "/prefs/". */
  lemma ResolveExample(id: string)
    requires '$' !in id
    ensures GetSimplifiedNamespace(Strategy(id, "prefs", None, Some(["/{memoryStrategyId}/prefs/"])))
      == "/" + id + "/prefs/"
  {
    var ns := "/{memoryStrategyId}/prefs/";
    assert ns == "/" + Placeholder + "/prefs/";
    assert !OccursAt(ns, Placeholder, 0) by {
      assert ns[0] != Placeholder[0];
    }
    ResolvesFirstPlaceholderOnly(Strategy(id, "prefs", None, Some([ns])), "/", "/prefs/");
  }

  /** Worked example: of two placeholders only the first is replaced. */
  lemma ResolveOnlyFirstExample(id: string)
    requires '$' !in id
    ensures GetSimplifiedNamespace(Strategy(id, "twice", None, Some(["{memoryStrategyId}/{memoryStrategyId}"])))
      == id + "/{memoryStrategyId}"
  {
    var twice := "{memoryStrategyId}/{memoryStrategyId}";
    assert twice == "" + Placeholder + "/{memoryStrategyId}";
    ResolvesFirstPlaceholderOnly(Strategy(id, "twice", None, Some([twice])), "", "/{memoryStrategyId}");
  }

  /** The value an input holds after prepopulation: an empty input gets the resolved namespace. */
  function PrefilledValue(current: string, s: Strategy): (r: string)
    ensures current != "" ==> r == current
    ensures current == "" ==> r == GetSimplifiedNamespace(s)
  {
    if current == "" then GetSimplifiedNamespace(s) else current
  }

  /** Prepopulating an input a second time changes nothing. */
  lemma PrefillIdempotent(current: string, s: Strategy)
    ensures PrefilledValue(PrefilledValue(current, s), s) == PrefilledValue(current, s)
  {
  }

  /** A text input of a sub-query form; its value is edited in place. */
  class NamespaceInput {
    var value: string

    constructor (value: string)
      ensures this.value == value
    {
      this.value := value;
    }
  }

  /** `if (input && !input.value) input.value = getSimplifiedNamespace(strategy)`. */
  method Prepopulate(input: NamespaceInput?, s: Strategy)
    modifies input
    ensures input != null ==> input.value == PrefilledValue(old(input.value), s)
  {
    if input != null && input.value == "" {
      input.value := GetSimplifiedNamespace(s);
    }
  }

  /**
   * `initializeStrategyNamespaces`: prepopulates the records-form and the retrieve-form
   * inputs of one strategy. Should both be one element, the second write is a no-op.
   */
  method InitializeStrategyNamespaces(s: Strategy, recordsInput: NamespaceInput?, retrieveInput: NamespaceInput?)
    modifies recordsInput, retrieveInput
    ensures recordsInput != null ==> recordsInput.value == PrefilledValue(old(recordsInput.value), s)
    ensures retrieveInput != null ==> retrieveInput.value == PrefilledValue(old(retrieveInput.value), s)
  {
    Prepopulate(recordsInput, s);
    if recordsInput != null { PrefillIdempotent(old(recordsInput.value), s); }
    Prepopulate(retrieveInput, s);
  }
}
