/**
 * Helpers of the assistant ("Max") scene (frontend/src/scenes/max/utils.ts):
 * type guards over the union of assistant chat messages, and the casts that
 * carry an assistant-flavoured insight query over to the general query types.
 */
module AssistantUtils {
  import opened Wrappers

  /**
   * The `type` tag of a message. The message schema is not part of this
   * model; `Unlisted` stands for any tag other than the five the guards test.
   */
  datatype AssistantMessageType = Reasoning | Visualization | Human | Assistant | Failure | Unlisted

  /** A chat message; only its tag takes part in the guards. */
  datatype RootAssistantMessage = RootAssistantMessage(messageType: AssistantMessageType, content: string)

  /** A TypeScript value of type `T | undefined | null`. */
  datatype Nullable<+T> = Undefined | Null | Present(value: T)

  /** `message?.type`: the tag, or undefined when there is no message. */
  function TagOf(message: Nullable<RootAssistantMessage>): (tag: Option<AssistantMessageType>)
    ensures tag.None? <==> !message.Present?
    ensures message.Present? ==> tag.value == message.value.messageType
  {
    match message
    case Present(m) => Some(m.messageType)
    case _ => None
  }

  /** utils.ts:19-21 */
  function IsReasoningMessage(message: Nullable<RootAssistantMessage>): (r: bool)
    ensures r <==> message.Present? && message.value.messageType == Reasoning
  {
    TagOf(message) == Some(Reasoning)
  }

  /** utils.ts:23-27 */
  function IsVisualizationMessage(message: Nullable<RootAssistantMessage>): (r: bool)
    ensures r <==> message.Present? && message.value.messageType == Visualization
  {
    TagOf(message) == Some(Visualization)
  }

  /** utils.ts:29-31 */
  function IsHumanMessage(message: Nullable<RootAssistantMessage>): (r: bool)
    ensures r <==> message.Present? && message.value.messageType == Human
  {
    TagOf(message) == Some(Human)
  }

  /** utils.ts:33-35 */
  function IsAssistantMessage(message: Nullable<RootAssistantMessage>): (r: bool)
    ensures r <==> message.Present? && message.value.messageType == Assistant
  {
    TagOf(message) == Some(Assistant)
  }

  /** utils.ts:37-39 */
  function IsFailureMessage(message: Nullable<RootAssistantMessage>): (r: bool)
    ensures r <==> message.Present? && message.value.messageType == Failure
  {
    TagOf(message) == Some(Failure)
  }

  /** How many of the five guards accept a value. */
  function GuardsAccepting(message: Nullable<RootAssistantMessage>): nat {
    (if IsReasoningMessage(message) then 1 else 0) +
    (if IsVisualizationMessage(message) then 1 else 0) +
    (if IsHumanMessage(message) then 1 else 0) +
    (if IsAssistantMessage(message) then 1 else 0) +
    (if IsFailureMessage(message) then 1 else 0)
  }

  /**
   * Lemma: no guard accepts null or undefined, at most one guard accepts any
   * message, and exactly one accepts each message carrying one of the five tags.
   */
  lemma GuardsAreExclusive(message: Nullable<RootAssistantMessage>)
    ensures GuardsAccepting(message) <= 1
    ensures !message.Present? ==> GuardsAccepting(message) == 0
    ensures GuardsAccepting(message) == 1 <==> message.Present? && message.value.messageType != Unlisted
  {
  }

  /** The `kind` values tested by isTrendsQuery, isFunnelsQuery, isRetentionQuery and isHogQLQuery. */
  const TrendsQueryKind := "TrendsQuery"
  const FunnelsQueryKind := "FunnelsQuery"
  const RetentionQueryKind := "RetentionQuery"
  const HogQLQueryKind := "HogQLQuery"

  const UnsupportedQueryPrefix := "Unsupported query type: "

  /** An insight query: its `kind` discriminator and its other fields, opaque here. */
  datatype Query = Query(kind: string, fields: map<string, string>)

  predicate IsTrendsQuery(query: Query) { query.kind == TrendsQueryKind }
  predicate IsFunnelsQuery(query: Query) { query.kind == FunnelsQueryKind }
  predicate IsRetentionQuery(query: Query) { query.kind == RetentionQueryKind }
  predicate IsHogQLQuery(query: Query) { query.kind == HogQLQueryKind }

  /** The general query types each cast returns. */
  type TrendsQuery = q: Query | IsTrendsQuery(q) witness Query(TrendsQueryKind, map[])
  type FunnelsQuery = q: Query | IsFunnelsQuery(q) witness Query(FunnelsQueryKind, map[])
  type RetentionQuery = q: Query | IsRetentionQuery(q) witness Query(RetentionQueryKind, map[])
  type HogQLQuery = q: Query | IsHogQLQuery(q) witness Query(HogQLQueryKind, map[])

  /**
   * The casts of utils.ts:43-54: each takes a query of the assistant type
   * (a query of its kind) and returns the same value as the general type.
   */
  function CastAssistantTrendsQuery(query: Query): (r: TrendsQuery)
    requires IsTrendsQuery(query)
    ensures r == query
  {
    query
  }

  function CastAssistantFunnelsQuery(query: Query): (r: FunnelsQuery)
    requires IsFunnelsQuery(query)
    ensures r == query
  {
    query
  }

  function CastAssistantRetentionQuery(query: Query): (r: RetentionQuery)
    requires IsRetentionQuery(query)
    ensures r == query
  {
    query
  }

  function CastAssistantHogQLQuery(query: Query): (r: HogQLQuery)
    requires IsHogQLQuery(query)
    ensures r == query
  {
    query
  }

  /** The kinds castAssistantQuery accepts. */
  predicate IsSupportedKind(kind: string) {
    kind == TrendsQueryKind || kind == FunnelsQueryKind || kind == RetentionQueryKind || kind == HogQLQueryKind
  }

  /**
   * castAssistantQuery (utils.ts:55-68): the input itself for the four
   * supported kinds, otherwise the error "Unsupported query type: <kind>".
   */
  function CastAssistantQuery(query: Query): (r: Result<Query, string>)
    ensures r.Ok? <==> IsSupportedKind(query.kind)
    ensures r.Ok? ==> r.value == query
    ensures r.Err? ==> r.error == UnsupportedQueryPrefix + query.kind
  {
    if IsTrendsQuery(query) then Ok(CastAssistantTrendsQuery(query))
    else if IsFunnelsQuery(query) then Ok(CastAssistantFunnelsQuery(query))
    else if IsRetentionQuery(query) then Ok(CastAssistantRetentionQuery(query))
    else if IsHogQLQuery(query) then Ok(CastAssistantHogQLQuery(query))
    else Err(UnsupportedQueryPrefix + query.kind)
  }

  /**
   * Lemma: the four kind tests are mutually exclusive, so the fixed order in
   * which castAssistantQuery tries them never lets an earlier test shadow a
   * later one.
   */
  lemma KindTestsAreExclusive(query: Query)
    ensures IsTrendsQuery(query) ==> !IsFunnelsQuery(query) && !IsRetentionQuery(query) && !IsHogQLQuery(query)
    ensures IsFunnelsQuery(query) ==> !IsRetentionQuery(query) && !IsHogQLQuery(query)
    ensures IsRetentionQuery(query) ==> !IsHogQLQuery(query)
  {
  }
}
