/** The subscription web server (consumer/consumer_server.py): a table of
    subscriptions with counter-based ids, the set of ids whose polling thread
    runs, and the per-subscription message buffer its poll loop fills. */
module ConsumerServer {
  import opened Json
  import opened Reading

  /** A subscription keeps at most this many messages. */
  const BufferCap: nat := 100
  /** `get_messages` shows at most this many. */
  const ViewSize: nat := 50

  /** An entry of `subscriptions`; `createdAt` is the `time.time()` value. */
  datatype Subscription = Subscription(topic: Json, partition: Json, offset: int, messages: seq<Delivered>, createdAt: Json)

  /** `f"sub_{subscription_counter}"`. */
  function SubscriptionId(n: nat): string
  {
    "sub_" + DecimalString(n)
  }

  /** Distinct counter values give distinct ids. */
  lemma SubscriptionIdInjective(a: nat, b: nat)
    requires SubscriptionId(a) == SubscriptionId(b)
    ensures a == b
  {
    assert SubscriptionId(a)[4..] == DecimalString(a);
    assert SubscriptionId(b)[4..] == DecimalString(b);
    DecimalStringInjective(a, b);
  }

  /** `s[-n:]`: the last `n` elements, or all of them when there are fewer. */
  function KeepLast<T>(s: seq<T>, n: nat): (r: seq<T>)
    ensures |r| == if |s| > n then n else |s|
    ensures r == s[|s| - |r|..]
  {
    if |s| > n then s[|s| - n..] else s
  }

  /** Trimming the buffer to 100 never changes the 50 messages shown. */
  lemma KeepLastOfKeepLast<T>(s: seq<T>, m: nat, n: nat)
    requires n <= m
    ensures KeepLast(KeepLast(s, m), n) == KeepLast(s, n)
  {
    var t := KeepLast(s, m);
    if |t| > n {
      assert t[|t| - n..] == s[|s| - n..];
    }
  }

  /** The offset a subscription keeps after a batch, as written: the offset of
      the batch's last message (the offset it sends on the next poll). */
  function OffsetAfterBatch(offset: int, batch: seq<Delivered>): (o: int)
    ensures batch == [] ==> o == offset
    ensures batch != [] ==> o == batch[|batch| - 1].offset
  {
    if batch == [] then offset else batch[|batch| - 1].offset
  }

  /** The corrected rule, as the deduplicating consumer has it: one past the
      last message. */
  function CorrectedOffsetAfterBatch(offset: int, batch: seq<Delivered>): (o: int)
    ensures batch == [] ==> o == offset
    ensures batch != [] ==> o == batch[|batch| - 1].offset + 1
  {
    if batch == [] then offset else batch[|batch| - 1].offset + 1
  }

  /** The partitioned broker serves every position at or above the requested
      offset. With the offset as written, polling again with no new commit
      serves the batch's last message a second time. */
  lemma AsWrittenRepollRedeliversLast(log: seq<Line>, offset: int, hwm: int)
    requires Window(log, offset, hwm) != []
    ensures var w := Window(log, offset, hwm);
      w[|w| - 1] in Window(log, OffsetAfterBatch(offset, w), hwm)
  {
    var w := Window(log, offset, hwm);
    var last := w[|w| - 1];
    WindowComplete(log, last.offset, hwm, last.offset);
  }

  /** Every decodable line in range is served, stated as an implication. */
  lemma ServedIfEntry(log: seq<Line>, from: int, hwm: int, p: int)
    ensures 1 <= p <= |log| && from <= p <= hwm && log[p - 1].Entry? ==> Delivered(p, log[p - 1].value) in Window(log, from, hwm)
  {
    if 1 <= p <= |log| && from <= p <= hwm && log[p - 1].Entry? {
      WindowComplete(log, from, hwm, p);
    }
  }

  /** A window over a range holding no decodable line is empty. */
  lemma {:induction false} WindowOfCorruptRange(log: seq<Line>, from: int, hwm: int)
    requires forall i :: from <= i + 1 <= hwm && 0 <= i < |log| ==> log[i].Corrupt?
    ensures Window(log, from, hwm) == []
    decreases |log|
  {
    if log != [] {
      var init := log[..|log| - 1];
      assert forall i :: 0 <= i < |init| ==> init[i] == log[i];
      WindowOfCorruptRange(init, from, hwm);
    }
  }

  /** With the corrected offset, polling again with no new commit serves
      nothing: every message was delivered exactly once. */
  lemma CorrectedRepollIsEmpty(log: seq<Line>, offset: int, hwm: int)
    requires Window(log, offset, hwm) != []
    ensures var w := Window(log, offset, hwm);
      Window(log, CorrectedOffsetAfterBatch(offset, w), hwm) == []
  {
    var w := Window(log, offset, hwm);
    var next := w[|w| - 1].offset + 1;
    forall i | next <= i + 1 <= hwm && 0 <= i < |log|
      ensures log[i].Corrupt?
    {
      ServedIfEntry(log, offset, hwm, i + 1);
    }
    WindowOfCorruptRange(log, next, hwm);
  }

  datatype SubscribeResult =
    | SubscribeFailed          // 500: the body is not an object (`data.get` raises)
    | TopicRequired            // 400
    | Subscribed(id: string, topic: Json, partition: Json)

  datatype UnsubscribeResult = UnsubscribeNotFound | Unsubscribed

  datatype MessagesResult =
    | MessagesNotFound         // 404
    | MessagesView(id: string, topic: Json, partition: Json, offset: int, messages: seq<Delivered>)

  /** An entry of `get_subscriptions`. */
  datatype SubscriptionInfo = SubscriptionInfo(id: string, topic: Json, partition: Json, offset: int, messageCount: nat, active: bool)

  /** The answer of a poll's `/consume` call, or a network error. */
  datatype PollReply = PollAnswered(status: int, messages: seq<Delivered>) | PollUnreachable

  /** The ids a listing names. */
  function Ids(infos: seq<SubscriptionInfo>): set<string>
  {
    if infos == [] then {} else Ids(infos[..|infos| - 1]) + {infos[|infos| - 1].id}
  }

  /** An id is in a listing's ids exactly when some entry of it carries that id. */
  lemma {:induction false} IdsListed(infos: seq<SubscriptionInfo>, id: string)
    ensures id in Ids(infos) <==> exists i :: 0 <= i < |infos| && infos[i].id == id
  {
    if infos != [] {
      var init := infos[..|infos| - 1];
      IdsListed(init, id);
      if id in Ids(init) {
        var i :| 0 <= i < |init| && init[i].id == id;
        assert infos[i].id == id;
      }
      if exists i :: 0 <= i < |infos| && infos[i].id == id {
        var i :| 0 <= i < |infos| && infos[i].id == id;
        if i < |init| {
          assert init[i].id == id;
        }
      }
    }
  }

  /** The `get_subscriptions` entry of a subscription. */
  function Info(id: string, s: Subscription, active: bool): (info: SubscriptionInfo)
    ensures info.id == id && info.active == active
    ensures info.topic == s.topic && info.partition == s.partition
    ensures info.messageCount == |s.messages| && info.offset == s.offset
  {
    SubscriptionInfo(id, s.topic, s.partition, s.offset, |s.messages|, active)
  }

  /** `info` is the entry of a subscription in the table. */
  predicate Lists(info: SubscriptionInfo, subscriptions: map<string, Subscription>, running: set<string>)
  {
    info.id in subscriptions && info == Info(info.id, subscriptions[info.id], info.id in running)
  }

  /** Listing one more entry adds its id to the listed ids. */
  lemma IdsAppend(listed: seq<SubscriptionInfo>, info: SubscriptionInfo)
    ensures Ids(listed + [info]) == Ids(listed) + {info.id}
  {
    assert (listed + [info])[..|listed|] == listed;
  }

  /** One pass of the listing loop keeps its invariant. */
  lemma ListingStep(subscriptions: map<string, Subscription>, running: set<string>,
                    listed: seq<SubscriptionInfo>, remaining: set<string>, id: string)
    requires id in remaining && remaining <= subscriptions.Keys
    requires Ids(listed) == subscriptions.Keys - remaining
    requires forall i :: 0 <= i < |listed| ==> Lists(listed[i], subscriptions, running) && listed[i].id !in remaining
    requires forall i, j :: 0 <= i < j < |listed| ==> listed[i].id != listed[j].id
    ensures var infos := listed + [Info(id, subscriptions[id], id in running)];
      var left := remaining - {id};
      Ids(infos) == subscriptions.Keys - left &&
      (forall i :: 0 <= i < |infos| ==> Lists(infos[i], subscriptions, running) && infos[i].id !in left) &&
      (forall i, j :: 0 <= i < j < |infos| ==> infos[i].id != infos[j].id)
  {
    var info := Info(id, subscriptions[id], id in running);
    var infos := listed + [info];
    IdsAppend(listed, info);
    assert forall i :: 0 <= i < |listed| ==> infos[i] == listed[i];
    assert infos[|listed|] == info;
  }

  /** The loop of `get_subscriptions` over the subscription table, in some
      order: one entry per subscription, none listed twice. */
  method Listing(subscriptions: map<string, Subscription>, running: set<string>) returns (infos: seq<SubscriptionInfo>)
    ensures |infos| == |subscriptions| && Ids(infos) == subscriptions.Keys
    ensures forall i :: 0 <= i < |infos| ==> Lists(infos[i], subscriptions, running)
    ensures forall i, j :: 0 <= i < j < |infos| ==> infos[i].id != infos[j].id
  {
    infos := [];
    var remaining := subscriptions.Keys;
    while remaining != {}
      invariant remaining <= subscriptions.Keys
      invariant |infos| + |remaining| == |subscriptions|
      invariant Ids(infos) == subscriptions.Keys - remaining
      invariant forall i :: 0 <= i < |infos| ==> Lists(infos[i], subscriptions, running) && infos[i].id !in remaining
      invariant forall i, j :: 0 <= i < j < |infos| ==> infos[i].id != infos[j].id
      decreases |remaining|
    {
      var id :| id in remaining;
      ListingStep(subscriptions, running, infos, remaining, id);
      infos := infos + [Info(id, subscriptions[id], id in running)];
      remaining := remaining - {id};
    }
  }

  class SubscriptionServer {
    var subscriptions: map<string, Subscription>
    /** The keys of `running_subscriptions`: the ids whose poll thread runs. */
    var running: set<string>
    var counter: nat

    /** Every id was issued by the counter, a subscription runs exactly while it
        exists, and its buffer never holds more than 100 messages. */
    ghost predicate Valid()
      reads this
    {
      (forall id :: id in subscriptions ==> exists k :: 0 <= k < counter && id == SubscriptionId(k)) &&
      running == subscriptions.Keys &&
      (forall id :: id in subscriptions ==> |subscriptions[id].messages| <= BufferCap)
    }

    constructor ()
      ensures Valid() && subscriptions == map[] && running == {} && counter == 0
    {
      subscriptions := map[];
      running := {};
      counter := 0;
    }

    /** `subscribe`: a topic is required; a new subscription gets the next id,
        offset 0, an empty buffer and a running poll thread. The new id is
        never one already in use. */
    method Subscribe(body: Json, stamp: Json) returns (r: SubscribeResult)
      requires Valid()
      modifies this
      ensures Valid()
      ensures !(body.JObj? && Truthy(GetOr(body, "topic", JNull))) ==>
        r == (if body.JObj? then TopicRequired else SubscribeFailed) &&
        subscriptions == old(subscriptions) && running == old(running) && counter == old(counter)
      ensures body.JObj? && Truthy(GetOr(body, "topic", JNull)) ==>
        var topic := GetOr(body, "topic", JNull);
        var partition := GetOr(body, "partition", JInt(0));
        r == Subscribed(SubscriptionId(old(counter)), topic, partition) &&
        r.id !in old(subscriptions) &&
        counter == old(counter) + 1 &&
        subscriptions == old(subscriptions)[r.id := Subscription(topic, partition, 0, [], stamp)] &&
        running == old(running) + {r.id}
    {
      if !body.JObj? {
        return SubscribeFailed;
      }
      var topic := GetOr(body, "topic", JNull);
      var partition := GetOr(body, "partition", JInt(0));
      if !Truthy(topic) {
        return TopicRequired;
      }
      var id := SubscriptionId(counter);
      if id in subscriptions {
        var k :| 0 <= k < counter && id == SubscriptionId(k);
        SubscriptionIdInjective(k, counter);
      }
      counter := counter + 1;
      subscriptions := subscriptions[id := Subscription(topic, partition, 0, [], stamp)];
      running := running + {id};
      return Subscribed(id, topic, partition);
    }

    /** `unsubscribe`: an unknown id is 404; a known one stops its thread and
        is removed. */
    method Unsubscribe(id: string) returns (r: UnsubscribeResult)
      requires Valid()
      modifies this`subscriptions, this`running
      ensures Valid()
      ensures id !in old(subscriptions) ==>
        r == UnsubscribeNotFound && subscriptions == old(subscriptions) && running == old(running)
      ensures id in old(subscriptions) ==>
        r == Unsubscribed && subscriptions == old(subscriptions) - {id} && running == old(running) - {id}
    {
      if id !in subscriptions {
        return UnsubscribeNotFound;
      }
      if id in running {
        running := running - {id};
      }
      subscriptions := subscriptions - {id};
      return Unsubscribed;
    }

    /** `get_messages`: the subscription's last 50 buffered messages, or 404. */
    method GetMessages(id: string) returns (r: MessagesResult)
      ensures id !in subscriptions <==> r == MessagesNotFound
      ensures id in subscriptions ==>
        var s := subscriptions[id];
        r == MessagesView(id, s.topic, s.partition, s.offset, r.messages) &&
        |r.messages| == (if |s.messages| > ViewSize then ViewSize else |s.messages|) &&
        s.messages == s.messages[..|s.messages| - |r.messages|] + r.messages
    {
      if id !in subscriptions {
        return MessagesNotFound;
      }
      var s := subscriptions[id];
      var view := KeepLast(s.messages, ViewSize);
      assert s.messages == s.messages[..|s.messages| - |view|] + view;
      return MessagesView(id, s.topic, s.partition, s.offset, view);
    }

    /** `get_subscriptions`: one entry per subscription, each listed once, and
        every one active, since a subscription runs exactly while it exists. */
    method GetSubscriptions() returns (infos: seq<SubscriptionInfo>)
      requires Valid()
      ensures |infos| == |subscriptions| && Ids(infos) == subscriptions.Keys
      ensures forall i :: 0 <= i < |infos| ==>
        infos[i].id in subscriptions && infos[i] == Info(infos[i].id, subscriptions[infos[i].id], true)
      ensures forall i, j :: 0 <= i < j < |infos| ==> infos[i].id != infos[j].id
    {
      infos := Listing(subscriptions, running);
    }

    /** One pass of `poll_messages` for a live subscription: a 200 answer with
        messages appends them, moves the offset, and trims the buffer to its
        last 100; anything else leaves the subscription as it is (a 400 or a
        network error only triggers leader discovery). */
    method PollStep(id: string, reply: PollReply)
      requires Valid() && id in subscriptions
      modifies this`subscriptions
      ensures Valid()
      ensures reply.PollAnswered? && reply.status == 200 ==>
        var s := old(subscriptions)[id];
        subscriptions == old(subscriptions)[id := s.(messages := KeepLast(s.messages + reply.messages, BufferCap),
                                                     offset := OffsetAfterBatch(s.offset, reply.messages))]
      ensures !(reply.PollAnswered? && reply.status == 200) ==> subscriptions == old(subscriptions)
    {
      if !(reply.PollAnswered? && reply.status == 200) {
        return;
      }
      var batch := reply.messages;
      if batch == [] {
        assert KeepLast(subscriptions[id].messages + batch, BufferCap) == subscriptions[id].messages;
        assert subscriptions == subscriptions[id := subscriptions[id]];
        return;
      }
      var s := subscriptions[id];
      var i := 0;
      while i < |batch|
        invariant 0 <= i <= |batch|
        invariant s.topic == old(subscriptions)[id].topic && s.partition == old(subscriptions)[id].partition
        invariant s.createdAt == old(subscriptions)[id].createdAt
        invariant s.messages == old(subscriptions)[id].messages + batch[..i]
        invariant s.offset == OffsetAfterBatch(old(subscriptions)[id].offset, batch[..i])
      {
        s := s.(messages := s.messages + [batch[i]], offset := batch[i].offset);
        assert batch[..i + 1] == batch[..i] + [batch[i]];
        i := i + 1;
      }
      assert batch[..i] == batch;
      if |s.messages| > BufferCap {
        s := s.(messages := s.messages[|s.messages| - BufferCap..]);
      }
      subscriptions := subscriptions[id := s];
    }
  }
}
