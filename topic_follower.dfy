/** The topic-only follower (follower/follower_with_topics.py): one log file
    per topic under `data_logs/`, and once promoted a per-topic HWM kept in the
    `topic_hwm` hash. */
module TopicFollower {
  import opened Json
  import opened Reading
  import opened Store
  import opened Election
  import opened Routing
  import Lease

  datatype ReplicateResult =
    | RefusedAsLeader            // 400
    | NoData                     // 400
    | WriteFailed                // 500: an exception caught by the handler
    | Ack

  datatype ProduceResult =
    | NoLeader                   // 503
    | NotLeader(leaderId: string)  // 400
    | EmptyProduce               // 400
    | Failed                     // 500: an exception caught by the handler
    | Committed(topic: Json, offset: int, leaderId: string)

  datatype ConsumeResult =
    | ConsumeNotLeader           // 400
    | MissingTopic               // 400
    | InvalidOffset              // 400
    | Messages(messages: seq<Delivered>, latestOffset: int)

  /** The topic `write_to_topic_log` files a message under: its `topic` entry
      when it is an object that has one (whatever its value), else "default". */
  function TopicFor(message: Json): (t: Json)
    ensures message.JObj? && "topic" in message.fields ==> t == message.fields["topic"]
    ensures !(message.JObj? && "topic" in message.fields) ==> t == JStr("default")
  {
    if message.JObj? && "topic" in message.fields then message.fields["topic"] else JStr("default")
  }

  /** A value `HINCRBY` accepts as a hash field, as the client encodes it:
      strings as they are, integers in decimal; None, booleans, lists and
      objects are refused with an error. */
  function HashField(t: Json): (f: Option<string>)
    ensures f.Some? <==> t.JStr? || t.JInt?
    ensures t.JStr? ==> f == Some(t.s)
    ensures t.JInt? ==> f == Some(IntString(t.i))
  {
    match t
    case JStr(s) => Some(s)
    case JInt(i) => Some(IntString(i))
    case _ => None
  }

  /** A string topic names the same file and the same hash field. */
  lemma StringTopicFileMatchesField(topic: string)
    ensures HashField(JStr(topic)) == Some(topic)
    ensures TopicLogPath(Render(JStr(topic))) == TopicLogPath(topic)
  {
  }

  class TopicFollower {
    const id: string
    const role: MonitoredLeadership
    /** The files under `data_logs/` (or elsewhere, for absolute names), by path. */
    var logs: map<string, seq<Line>>

    ghost predicate Valid()
      reads this, role
    {
      role.id == id && role.Valid()
    }

    /** `main`: start as a follower, monitoring the lease. */
    constructor (id: string)
      requires id != ""
      ensures Valid() && this.id == id && !role.isLeader && fresh(role) && logs == map[]
    {
      this.id := id;
      role := new MonitoredLeadership(id);
      logs := map[];
    }

    /** `write_to_topic_log`: append the message as one line to its topic's
        file and report the topic and the path. Other topics' files are
        untouched, since distinct topics have distinct paths. */
    method WriteToTopicLog(message: Json) returns (topic: Json, path: string)
      modifies this`logs
      ensures topic == TopicFor(message) && path == TopicLogPath(Render(topic))
      ensures logs == old(logs)[path := LogOf(old(logs), path) + [Entry(message)]]
      ensures forall t :: t != Render(topic) ==> LogOf(logs, TopicLogPath(t)) == LogOf(old(logs), TopicLogPath(t))
    {
      topic := TopicFor(message);
      path := TopicLogPath(Render(topic));
      logs := logs[path := LogOf(logs, path) + [Entry(message)]];
      forall t | t != Render(topic)
        ensures LogOf(logs, TopicLogPath(t)) == LogOf(old(logs), TopicLogPath(t))
      {
        if TopicLogPath(t) == path {
          TopicLogPathInjective(t, Render(topic));
        }
      }
    }

    /** `handle_replicate`: refused while leader; otherwise `data['data']` is
        filed under its topic, a missing `data` (None) under "default". */
    method HandleReplicate(body: Json) returns (r: ReplicateResult)
      requires Valid()
      modifies this`logs
      ensures Valid()
      ensures role.isLeader ==> r == RefusedAsLeader
      ensures !role.isLeader && !Truthy(body) ==> r == NoData
      ensures !role.isLeader && Truthy(body) && !body.JObj? ==> r == WriteFailed
      ensures r != Ack ==> logs == old(logs)
      ensures r == Ack <==> !role.isLeader && Truthy(body) && body.JObj?
      ensures r == Ack ==>
        var message := GetOr(body, "data", JNull);
        var path := TopicLogPath(Render(TopicFor(message)));
        logs == old(logs)[path := LogOf(old(logs), path) + [Entry(message)]]
    {
      if role.isLeader {
        return RefusedAsLeader;
      }
      if !Truthy(body) {
        return NoData;
      }
      if !body.JObj? {
        return WriteFailed;
      }
      var topic, path := WriteToTopicLog(GetOr(body, "data", JNull));
      return Ack;
    }

    /** `handle_produce`: a follower answers with the lease holder; a promoted
        leader files `data['data']` under its topic and commits it with
        `HINCRBY topic_hwm topic 1`, which no other topic's HWM feels. A topic
        the hash refuses fails after its line was written. */
    method HandleProduce(store: Redis, body: Json) returns (r: ProduceResult)
      requires Valid()
      modifies this`logs, store`topicHwm
      ensures Valid()
      ensures !role.isLeader ==>
        r == (match Lease.Holder(store.lease) case None => NoLeader case Some(h) => NotLeader(h))
      ensures role.isLeader && !Truthy(body) ==> r == EmptyProduce
      ensures role.isLeader && Truthy(body) && !body.JObj? ==> r == Failed
      ensures !(role.isLeader && Truthy(body) && body.JObj?) ==>
        logs == old(logs) && store.topicHwm == old(store.topicHwm)
      ensures role.isLeader && Truthy(body) && body.JObj? ==>
        var message := GetOr(body, "data", JNull);
        var topic := TopicFor(message);
        var path := TopicLogPath(Render(topic));
        logs == old(logs)[path := LogOf(old(logs), path) + [Entry(message)]] &&
        match HashField(topic)
        case None => r == Failed && store.topicHwm == old(store.topicHwm)
        case Some(field) =>
          r == Committed(topic, old(store.TopicCount(field)) + 1, id) &&
          store.topicHwm == old(store.topicHwm)[field := r.offset]
    {
      if !role.isLeader {
        var holder := Lease.Holder(store.lease);
        if holder.None? {
          return NoLeader;
        }
        return NotLeader(holder.value);
      }
      if !Truthy(body) {
        return EmptyProduce;
      }
      if !body.JObj? {
        return Failed;
      }
      var topic, path := WriteToTopicLog(GetOr(body, "data", JNull));
      var field := HashField(topic);
      if field.None? {
        return Failed;
      }
      var hwm := store.HIncrBy(field.value, 1);
      return Committed(topic, hwm, id);
    }

    /** `handle_consume`: a topic is required; the lines of its file strictly
        after `offset` up to `topic_hwm[topic]`, which is also reported. */
    method HandleConsume(store: Redis, topicArg: Option<string>, offsetArg: IntArg) returns (r: ConsumeResult)
      ensures !role.isLeader ==> r == ConsumeNotLeader
      ensures role.isLeader && (topicArg.None? || topicArg.value == "") ==> r == MissingTopic
      ensures role.isLeader && topicArg.Some? && topicArg.value != "" && offsetArg.NotAnInt? ==> r == InvalidOffset
      ensures role.isLeader && topicArg.Some? && topicArg.value != "" && !offsetArg.NotAnInt? ==>
        var topic := topicArg.value;
        var hwm := store.TopicCount(topic);
        var path := TopicLogPath(topic);
        r == Messages(if path in logs then Window(logs[path], IntArgOr(offsetArg, 0).value + 1, hwm) else [], hwm)
    {
      if !role.isLeader {
        return ConsumeNotLeader;
      }
      if topicArg.None? || topicArg.value == "" {
        return MissingTopic;
      }
      var parsed := IntArgOr(offsetArg, 0);
      if parsed.None? {
        return InvalidOffset;
      }
      var topic := topicArg.value;
      var hwm := store.TopicCount(topic);
      var path := TopicLogPath(topic);
      if path !in logs {
        return Messages([], hwm);
      }
      var messages := ReadCommitted(logs[path], parsed.value + 1, hwm);
      return Messages(messages, hwm);
    }
  }
}
