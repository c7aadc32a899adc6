/**
 * The livestream Kafka consumer (livestream/kafka.go): every message read from
 * the topic is normalised into a PostHogEvent, which is then handed once to the
 * outgoing stream and once to the stats stream.
 *
 * JSON decoding (encoding/json) and the GeoIP lookup are foreign code: the
 * consumer receives them as functions fixed at construction.
 */
module Livestream {
  import opened Wrappers

  type Bytes = seq<bv8>

  /** A value held in an event's `properties` map (Go: interface{} from encoding/json). */
  datatype JsonValue =
    | JString(str: string)
    | JNumber(num: real)
    | JBool(b: bool)
    | JNull
    | JArray(items: seq<JsonValue>)
    | JObject(fields: map<string, JsonValue>)

  type Properties = map<string, JsonValue>

  /** The envelope written to the topic by the capture service. */
  datatype PostHogEventWrapper = PostHogEventWrapper(
    uuid: string, distinctId: string, ip: string, data: string, token: string)

  /** The event forwarded to livestream clients. */
  datatype PostHogEvent = PostHogEvent(
    token: string, event: string, properties: Properties, timestamp: string,
    uuid: string, distinctId: string, lat: real, lng: real)

  /**
   * What json.Unmarshal stored into a PostHogEventWrapper: the fields the
   * document set, and whether it reported an error. A syntax error sets no
   * field; a type error sets the fields that did decode.
   */
  datatype WrapperDecoding = WrapperDecoding(
    uuid: Option<string>, distinctId: Option<string>, ip: Option<string>,
    data: Option<string>, token: Option<string>, failed: bool)

  /**
   * What json.Unmarshal stored into the pre-filled PostHogEvent: `api_key`,
   * `event`, `properties`, `timestamp`, and the untagged fields Uuid,
   * DistinctId, Lat and Lng, which encoding/json matches by name.
   */
  datatype EventDecoding = EventDecoding(
    apiKey: Option<string>, event: Option<string>, properties: Option<Properties>,
    timestamp: Option<string>, uuid: Option<string>, distinctId: Option<string>,
    lat: Option<real>, lng: Option<real>, failed: bool)

  /** The three results of GeoLocator.Lookup. */
  datatype GeoResult = GeoResult(lat: real, lng: real, err: Option<string>)

  /** Why ReadMessage returned no message. */
  datatype ReadError = Timeout | Transport | OtherKafkaError(code: int) | NonKafkaError

  /**
   * One call of ReadMessage: a message value together with the clock reading
   * (already formatted) taken while it is processed, or an error.
   */
  datatype ReadOutcome = Delivered(value: Bytes, now: string) | ReadFailed(err: ReadError)

  /**
   * The wrapper struct after decoding into its zero value (kafka.go:100-105):
   * a field the document set holds its value, every other field stays "".
   */
  function DecodedWrapper(d: WrapperDecoding): (w: PostHogEventWrapper)
    ensures d.uuid.None? ==> w.uuid == ""
    ensures d.distinctId.None? ==> w.distinctId == ""
    ensures d.ip.None? ==> w.ip == ""
    ensures d.data.None? ==> w.data == ""
    ensures d.token.None? ==> w.token == ""
    ensures d.uuid.Some? ==> w.uuid == d.uuid.value
    ensures d.distinctId.Some? ==> w.distinctId == d.distinctId.value
    ensures d.ip.Some? ==> w.ip == d.ip.value
    ensures d.data.Some? ==> w.data == d.data.value
    ensures d.token.Some? ==> w.token == d.token.value
  {
    PostHogEventWrapper(d.uuid.GetOr(""), d.distinctId.GetOr(""), d.ip.GetOr(""),
                        d.data.GetOr(""), d.token.GetOr(""))
  }

  /**
   * The event after decoding into the pre-filled struct (kafka.go:107-120):
   * Token and Event start empty, Properties an empty map, Timestamp the clock
   * reading, and every other field its zero value; a field the payload sets
   * replaces the starting value, a field it does not set keeps it.
   */
  function DecodedEvent(d: EventDecoding, now: string): (e: PostHogEvent)
    ensures d.apiKey.None? ==> e.token == ""
    ensures d.event.None? ==> e.event == ""
    ensures d.properties.None? ==> e.properties == map[]
    ensures d.timestamp.None? ==> e.timestamp == now
    ensures d.lat.None? ==> e.lat == 0.0
    ensures d.lng.None? ==> e.lng == 0.0
    ensures d.apiKey.Some? ==> e.token == d.apiKey.value
    ensures d.event.Some? ==> e.event == d.event.value
    ensures d.properties.Some? ==> e.properties == d.properties.value
    ensures d.timestamp.Some? ==> e.timestamp == d.timestamp.value
    ensures d.lat.Some? ==> e.lat == d.lat.value
    ensures d.lng.Some? ==> e.lng == d.lng.value
    ensures d.uuid.None? ==> e.uuid == ""
    ensures d.distinctId.None? ==> e.distinctId == ""
    ensures d.uuid.Some? ==> e.uuid == d.uuid.value
    ensures d.distinctId.Some? ==> e.distinctId == d.distinctId.value
  {
    PostHogEvent(d.apiKey.GetOr(""), d.event.GetOr(""), d.properties.GetOr(map[]),
                 d.timestamp.GetOr(now), d.uuid.GetOr(""), d.distinctId.GetOr(""),
                 d.lat.GetOr(0.0), d.lng.GetOr(0.0))
  }

  /**
   * Lemma: a reported decoding error changes neither decoded record, so the
   * message goes on to be normalised and sent like any other (kafka.go:101-105,
   * 116-120 only log the error).
   */
  lemma DecodeErrorIsOnlyLogged(w: WrapperDecoding, e: EventDecoding, now: string)
    ensures DecodedWrapper(w.(failed := true)) == DecodedWrapper(w.(failed := false))
    ensures DecodedEvent(e.(failed := true), now) == DecodedEvent(e.(failed := false), now)
  {
  }

  /** The string under `key` when that property is present and is a JSON string, else "". */
  function PropertyString(props: Properties, key: string): string {
    if key in props && props[key].JString? then props[key].str else ""
  }

  /** The first non-empty candidate, or "" when all are empty. */
  function FirstNonEmpty(candidates: seq<string>): (r: string)
    ensures r == "" <==> forall i :: 0 <= i < |candidates| ==> candidates[i] == ""
    ensures r != "" ==> exists i :: 0 <= i < |candidates| && candidates[i] == r &&
                                    forall j :: 0 <= j < i ==> candidates[j] == ""
  {
    if candidates == [] then ""
    else if candidates[0] != "" then candidates[0]
    else FirstNonEmpty(candidates[1..])
  }

  /**
   * Token precedence (kafka.go:125-133): the wrapper's token, else the
   * payload's `api_key`, else the string property `token`, else "".
   */
  function ChosenToken(wrapperToken: string, payloadToken: string, props: Properties): (r: string)
    ensures wrapperToken != "" ==> r == wrapperToken
    ensures wrapperToken == "" && payloadToken != "" ==> r == payloadToken
    ensures (wrapperToken == "" && payloadToken == "" && "token" in props && props["token"].JString?)
              ==> r == props["token"].str
    ensures (wrapperToken == "" && payloadToken == "" && !("token" in props && props["token"].JString?))
              ==> r == ""
  {
    var candidates := [wrapperToken, payloadToken, PropertyString(props, "token")];
    assert candidates[0] == wrapperToken && candidates[1] == payloadToken;
    assert candidates[2] == PropertyString(props, "token");
    FirstNonEmpty(candidates)
  }

  /**
   * IP selection (kafka.go:135-146): a `$ip` property, when its key is present,
   * alone decides the address; the wrapper's IP is used only when it is absent.
   */
  function ChosenIp(props: Properties, wrapperIp: string): (ip: string)
    ensures "$ip" in props && props["$ip"].JString? ==> ip == props["$ip"].str
    ensures "$ip" in props && !props["$ip"].JString? ==> ip == ""
    ensures "$ip" !in props ==> ip == wrapperIp
  {
    if "$ip" in props then PropertyString(props, "$ip") else wrapperIp
  }

  /** The consumer: its foreign collaborators and the two streams it feeds. */
  class PostHogKafkaConsumer {
    /** The topic subscribed to; the subscription itself is not modelled. */
    const topic: string
    /** GeoLocator.Lookup */
    const geolocate: string -> GeoResult
    /** json.Unmarshal of a message value into a PostHogEventWrapper */
    const decodeWrapper: Bytes -> WrapperDecoding
    /** json.Unmarshal of the wrapper's data into a PostHogEvent */
    const decodeEvent: string -> EventDecoding

    /** Every event sent on outgoingChan, oldest first. */
    var outgoing: seq<PostHogEvent>
    /** Every event sent on statsChan, oldest first. */
    var stats: seq<PostHogEvent>

    constructor (topic: string, geolocate: string -> GeoResult,
                 decodeWrapper: Bytes -> WrapperDecoding, decodeEvent: string -> EventDecoding)
      ensures this.topic == topic && this.geolocate == geolocate
      ensures this.decodeWrapper == decodeWrapper && this.decodeEvent == decodeEvent
      ensures outgoing == [] && stats == []
    {
      this.topic := topic;
      this.geolocate := geolocate;
      this.decodeWrapper := decodeWrapper;
      this.decodeEvent := decodeEvent;
      outgoing := [];
      stats := [];
    }

    /** The wrapper decoded from a message value. */
    function WrapperOf(value: Bytes): PostHogEventWrapper {
      DecodedWrapper(decodeWrapper(value))
    }

    /** The event decoded from the wrapper's data, before normalisation. */
    function PayloadOf(value: Bytes, now: string): PostHogEvent {
      DecodedEvent(decodeEvent(WrapperOf(value).data), now)
    }

    /**
     * The normalised event for one message value (kafka.go:98-153): identity
     * fields from the wrapper, the chosen token, and coordinates looked up for
     * a non-empty chosen IP.
     */
    function Normalized(value: Bytes, now: string): (e: PostHogEvent)
      ensures e.uuid == WrapperOf(value).uuid && e.distinctId == WrapperOf(value).distinctId
      ensures e.token == ChosenToken(WrapperOf(value).token, PayloadOf(value, now).token,
                                     PayloadOf(value, now).properties)
      ensures e.event == PayloadOf(value, now).event
      ensures e.properties == PayloadOf(value, now).properties
      ensures e.timestamp == PayloadOf(value, now).timestamp
      ensures var ip := ChosenIp(PayloadOf(value, now).properties, WrapperOf(value).ip);
              if ip != "" then e.lat == geolocate(ip).lat && e.lng == geolocate(ip).lng
              else e.lat == PayloadOf(value, now).lat && e.lng == PayloadOf(value, now).lng
    {
      var w := WrapperOf(value);
      var p := PayloadOf(value, now);
      var ip := ChosenIp(p.properties, w.ip);
      var geo := if ip != "" then geolocate(ip) else GeoResult(p.lat, p.lng, None);
      p.(uuid := w.uuid, distinctId := w.distinctId,
         token := ChosenToken(w.token, p.token, p.properties),
         lat := geo.lat, lng := geo.lng)
    }

    /**
     * The body of the consume loop for one message read successfully
     * (kafka.go:98-153), building the event step by step.
     */
    method Normalize(value: Bytes, now: string) returns (phEvent: PostHogEvent)
      ensures phEvent == Normalized(value, now)
    {
      // A decoding error is only logged: decoding goes on with what was set.
      var wrapperMessage := DecodedWrapper(decodeWrapper(value));
      phEvent := DecodedEvent(decodeEvent(wrapperMessage.data), now);
      assert wrapperMessage == WrapperOf(value) && phEvent == PayloadOf(value, now);
      ghost var payload := phEvent;

      phEvent := phEvent.(uuid := wrapperMessage.uuid);
      phEvent := phEvent.(distinctId := wrapperMessage.distinctId);

      if wrapperMessage.token != "" {
        phEvent := phEvent.(token := wrapperMessage.token);
      } else if phEvent.token == "" {
        if "token" in phEvent.properties && phEvent.properties["token"].JString? {
          phEvent := phEvent.(token := phEvent.properties["token"].str);
        }
      }

      assert phEvent == payload.(uuid := wrapperMessage.uuid, distinctId := wrapperMessage.distinctId,
                                 token := ChosenToken(wrapperMessage.token, payload.token, payload.properties));

      var ipStr := "";
      if "$ip" in phEvent.properties {
        var ipValue := phEvent.properties["$ip"];
        if ipValue.JString? {
          if ipValue.str != "" {
            ipStr := ipValue.str;
          }
        }
      } else {
        if wrapperMessage.ip != "" {
          ipStr := wrapperMessage.ip;
        }
      }

      assert ipStr == ChosenIp(payload.properties, wrapperMessage.ip);

      if ipStr != "" {
        // The coordinates are taken whatever error the lookup reports.
        var geo := geolocate(ipStr);
        phEvent := phEvent.(lat := geo.lat, lng := geo.lng);
      }
    }

    /** The events one read outcome sends on each stream. */
    function EmittedBy(read: ReadOutcome): (events: seq<PostHogEvent>)
      ensures read.ReadFailed? ==> events == []
      ensures read.Delivered? ==> events == [Normalized(read.value, read.now)]
    {
      match read
      case Delivered(value, now) => [Normalized(value, now)]
      case ReadFailed(_) => []
    }

    /** The events a run of reads sends on each stream, in order. */
    function Emitted(outcomes: seq<ReadOutcome>): (events: seq<PostHogEvent>)
      ensures |events| == DeliveredCount(outcomes)
    {
      if outcomes == [] then []
      else Emitted(outcomes[..|outcomes| - 1]) + EmittedBy(outcomes[|outcomes| - 1])
    }

    /** Lemma: the events of two runs of reads are those of the first followed by those of the second. */
    lemma {:induction false} EmittedAppend(a: seq<ReadOutcome>, b: seq<ReadOutcome>)
      ensures Emitted(a + b) == Emitted(a) + Emitted(b)
      decreases |b|
    {
      if b == [] {
        assert a + b == a;
      } else {
        var last := |b| - 1;
        assert (a + b)[..|a + b| - 1] == a + b[..last];
        EmittedAppend(a, b[..last]);
      }
    }

    /** Lemma: a failed read, wherever it falls, emits nothing and changes nothing around it. */
    lemma FailedReadEmitsNothing(before: seq<ReadOutcome>, err: ReadError, after: seq<ReadOutcome>)
      ensures Emitted(before + [ReadFailed(err)] + after) == Emitted(before + after)
    {
      var failed := [ReadFailed(err)];
      assert failed[..0] == [];
      assert Emitted(failed) == [];
      EmittedAppend(before + failed, after);
      EmittedAppend(before, failed);
      EmittedAppend(before, after);
      calc {
        Emitted(before + failed + after);
        Emitted(before + failed) + Emitted(after);
        Emitted(before) + Emitted(failed) + Emitted(after);
        Emitted(before) + Emitted(after);
        Emitted(before + after);
      }
    }

    /**
     * Lemma: a successful read emits exactly one event, the normalised one,
     * in its place among the others, whatever its decoding reported.
     */
    lemma DeliveryEmitsOnce(before: seq<ReadOutcome>, value: Bytes, now: string, after: seq<ReadOutcome>)
      ensures Emitted(before + [Delivered(value, now)] + after)
              == Emitted(before) + [Normalized(value, now)] + Emitted(after)
    {
      EmittedAppend(before + [Delivered(value, now)], after);
      EmittedAppend(before, [Delivered(value, now)]);
      assert [Delivered(value, now)][..0] == [];
    }

    /**
     * The consume loop over a run of reads (kafka.go:81-157): a failed read
     * (timeout, transport or other error) is skipped, every other message is
     * normalised and its event appended first to the outgoing stream, then to
     * the stats stream.
     */
    method Consume(outcomes: seq<ReadOutcome>)
      modifies this`outgoing, this`stats
      ensures outgoing == old(outgoing) + Emitted(outcomes)
      ensures stats == old(stats) + Emitted(outcomes)
    {
      var i := 0;
      while i < |outcomes|
        invariant 0 <= i <= |outcomes|
        invariant outgoing == old(outgoing) + Emitted(outcomes[..i])
        invariant stats == old(stats) + Emitted(outcomes[..i])
      {
        assert outcomes[..i + 1][..i] == outcomes[..i];
        match outcomes[i] {
          case ReadFailed(_) =>
          case Delivered(value, now) =>
            var phEvent := Normalize(value, now);
            outgoing := outgoing + [phEvent];
            stats := stats + [phEvent];
        }
        i := i + 1;
      }
      assert outcomes[..|outcomes|] == outcomes;
    }
  }

  /** How many outcomes delivered a message. */
  function DeliveredCount(outcomes: seq<ReadOutcome>): nat {
    if outcomes == [] then 0
    else DeliveredCount(outcomes[..|outcomes| - 1]) + (if outcomes[|outcomes| - 1].Delivered? then 1 else 0)
  }
}
