/**
 Dead letters from the publisher to the replay tool: what the publisher writes, how the producer
 wraps it, and what the tool then reads.
 */
module DeadLetters {
  import opened JsonValues
  import opened Prelude
  import Replay = DlqReplay

  /** A message that could not be processed; `position` stands for its partition, offset and times. */
  datatype Message = Message(topic: string, key: Json, value: Json, headers: Json, position: Json)

  /** The record the publisher builds for a failed message. */
  function DlqEvent(m: Message, failure: Json, replay: Json): Json {
    Obj(map[
      "dlq_metadata" := Obj(map["original_topic" := Str(m.topic), "original_offset" := m.position]),
      "failure_info" := failure,
      "original_message" := Obj(map["key" := Str(TextOf(m.key)), "value" := m.value, "headers" := m.headers]),
      "replay_metadata" := replay])
  }

  /** The fields of an event envelope other than its data. */
  datatype Header = Header(id: Json, correlationId: Json, traceId: Json, broker: Json, kind: Json, ts: Json, key: Json,
                           source: Json)

  function Envelope(h: Header, data: Json): Json {
    Obj(map[
      "id" := h.id, "correlation_id" := h.correlationId, "causation_id" := Null, "trace_id" := h.traceId,
      "parent_trace_id" := Null, "broker" := h.broker, "type" := h.kind, "ts" := h.ts, "key" := h.key,
      "source" := h.source, "version" := Other("1", true), "data" := data])
  }

  /** The producer wraps everything that does not look like an envelope already. */
  function Produced(h: Header, data: Json): Json {
    if data.Obj? && "id" in data.fields then data else Envelope(h, data)
  }

  function OrEmpty(f: Option<Json>): Json {
    if f.None? then Obj(map[]) else f.value
  }

  function NotNull(f: Option<Json>): Option<Json> {
    if f == Some(Null) then None else f
  }

  /** How the replay tool reads a record; looking a field up in anything but a dictionary raises. */
  function ReadEntry(record: Json): Replay.Entry {
    if Truthy(record) && !record.Obj? then Replay.Unreadable
    else
      var top := if Truthy(record) then record.fields else map[];
      var meta, original := OrEmpty(Field(top, "dlq_metadata")), OrEmpty(Field(top, "original_message"));
      if !meta.Obj? || !original.Obj? then Replay.Unreadable
      else
        var topic, data := NotNull(Field(meta.fields, "original_topic")), NotNull(Field(original.fields, "value"));
        var key := Field(original.fields, "key");
        if topic.None? || !Truthy(topic.value) then Replay.Entry(None, key, data)
        else if topic.value.Str? then Replay.Entry(Some(topic.value.s), key, data)
        else if data.None? then Replay.Entry(None, key, data)
        else Replay.Unreadable
  }

  /** Read back as it was built, a dead letter gives back topic, key text and value of its message,
      and is well formed exactly when there is a topic and a value to give back. */
  lemma BareDeadLetterRoundTrips(m: Message, failure: Json, replay: Json)
    ensures var e := ReadEntry(DlqEvent(m, failure, replay));
      && (Replay.WellFormed(e) <==> m.topic != "" && m.value != Null)
      && (Replay.WellFormed(e) ==> forall src ::
            Replay.Republish(src, e) == Replay.Publication(src, m.topic, TextOf(m.key), m.value))
  {
  }

  /** A record that names something other than text as its topic is skipped if it has no value, and else ends
      the run: sending to it raises. */
  lemma NonTextTopic(fields: map<string, Json>, topic: Json, original: map<string, Json>)
    requires "dlq_metadata" in fields && fields["dlq_metadata"] == Obj(map["original_topic" := topic])
    requires "original_message" in fields && fields["original_message"] == Obj(original)
    requires Truthy(topic) && !topic.Str?
    ensures var e := ReadEntry(Obj(fields));
      if "value" in original && original["value"] != Null then e == Replay.Unreadable else Replay.Skippable(e)
  {
    assert fields != map[] && "original_topic" in map["original_topic" := topic];
  }

  /** But it is never on the topic as it was built: the producer's envelope hides every field the
      tool looks for, so what the publisher sends is read as malformed and skipped. */
  lemma PublishedDeadLetterIsSkipped(h: Header, m: Message, failure: Json, replay: Json)
    ensures Replay.Skippable(ReadEntry(Produced(h, DlqEvent(m, failure, replay))))
  {
    var data := DlqEvent(m, failure, replay);
    assert "id" !in data.fields;
    assert "dlq_metadata" !in Envelope(h, data).fields && "original_message" !in Envelope(h, data).fields;
  }

  /** In general the tool replays exactly the readable records that carry an id of their own. */
  lemma ReplayableIff(h: Header, data: Json)
    ensures Replay.WellFormed(ReadEntry(Produced(h, data))) <==>
            data.Obj? && "id" in data.fields && Replay.WellFormed(ReadEntry(data))
  {
    if !(data.Obj? && "id" in data.fields) {
      assert "dlq_metadata" !in Envelope(h, data).fields;
    }
  }

  /** An entry as the publisher leaves it on a dead-letter topic. */
  ghost predicate FromPublisher(e: Replay.Entry) {
    exists h, m, failure, replay :: e == ReadEntry(Produced(h, DlqEvent(m, failure, replay)))
  }

  ghost predicate AllFromPublisher(dlq: seq<seq<Replay.Entry>>) {
    forall p, o :: 0 <= p < |dlq| && 0 <= o < |dlq[p]| ==> FromPublisher(dlq[p][o])
  }

  lemma {:induction false} StaysFromPublisher(dlq: seq<seq<Replay.Entry>>, events: seq<Replay.Event>)
    requires AllFromPublisher(dlq)
    requires forall i :: 0 <= i < |events| && events[i].Arrive? ==> FromPublisher(events[i].entry)
    ensures AllFromPublisher(Replay.Run(Replay.Init(dlq), events).dlq)
  {
    if events != [] {
      StaysFromPublisher(dlq, events[..|events| - 1]);
      StepStaysFromPublisher(Replay.Run(Replay.Init(dlq), events[..|events| - 1]), events[|events| - 1]);
    }
  }

  lemma {:induction false} StepStaysFromPublisher(s: Replay.State, e: Replay.Event)
    requires Replay.Shaped(s) && AllFromPublisher(s.dlq) && (e.Arrive? ==> FromPublisher(e.entry))
    ensures AllFromPublisher(Replay.Step(s, e).dlq)
  {
  }

  /** So over every run of the tool on topics that only the publisher writes, nothing is replayed. */
  lemma {:induction false} NothingIsReplayed(dlq: seq<seq<Replay.Entry>>, events: seq<Replay.Event>)
    requires AllFromPublisher(dlq)
    requires forall i :: 0 <= i < |events| && events[i].Arrive? ==> FromPublisher(events[i].entry)
    ensures Replay.Run(Replay.Init(dlq), events).published == []
  {
    var s := Replay.Run(Replay.Init(dlq), events);
    StaysFromPublisher(dlq, events);
    Replay.ReplayGuarantee(dlq, events);
    if s.published != [] {
      var pub := s.published[0];
      var e := s.dlq[pub.src.part][pub.src.off];
      assert pub in s.published && FromPublisher(e);
      var h, m, failure, replay :| e == ReadEntry(Produced(h, DlqEvent(m, failure, replay)));
      PublishedDeadLetterIsSkipped(h, m, failure, replay);
    }
  }
}
