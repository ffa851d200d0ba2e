/** The topic bus: a bounded replay history and a live broadcast per topic. */
module LogBus {
  import opened Util
  import opened Events

  /** Eviction happens before the push, so even capacity zero keeps one message. */
  function Kept(capacity: nat): nat {
    if capacity == 0 then 1 else capacity
  }

  function PushHistory<T>(history: seq<T>, capacity: nat, x: T): seq<T> {
    (if |history| >= capacity && history != [] then history[1..] else history) + [x]
  }

  lemma PushKeepsTail<T>(log: seq<T>, capacity: nat, x: T)
    ensures PushHistory(LastN(log, Kept(capacity)), capacity, x) == LastN(log + [x], Kept(capacity))
  {
    var n := Kept(capacity);
    if |log| >= n { assert LastN(log + [x], n) == (log + [x])[|log| + 1 - n..]; }
  }

  /** The histories under the mutex. `logs` records what was published since the last clear. */
  class Bus {
    var topics: map<Text, seq<Text>>
    const capacity: nat
    ghost var logs: map<Text, seq<Text>>

    ghost predicate Valid()
      reads this
    {
      && topics.Keys == logs.Keys
      && forall topic | topic in topics :: topics[topic] == LastN(logs[topic], Kept(capacity))
    }

    constructor (capacity: nat)
      ensures Valid() && topics == map[] && this.capacity == capacity
    {
      topics, logs := map[], map[];
      this.capacity := capacity;
    }

    /** The part of `publish` under the lock; the message is sent to the receivers afterwards. */
    method Publish(topic: Text, data: Text)
      requires Valid()
      modifies this
      ensures Valid()
      ensures topic in topics
      ensures logs == old(logs)[topic := (if topic in old(logs) then old(logs)[topic] else []) + [data]]
    {
      var history := if topic in topics then topics[topic] else [];
      ghost var log := if topic in logs then logs[topic] else [];
      PushKeepsTail(log, capacity, data);
      if |history| >= capacity && |history| > 0 { history := history[1..]; }
      history := history + [data];
      topics := topics[topic := history];
      logs := logs[topic := log + [data]];
    }

    /** Creates the topic when it is new; the snapshot is what a late subscriber replays. */
    method Subscribe(topic: Text) returns (snapshot: seq<Text>)
      requires Valid()
      modifies this
      ensures Valid() && topic in topics
      ensures snapshot == LastN(if topic in old(logs) then old(logs)[topic] else [], Kept(capacity))
      ensures logs == if topic in old(logs) then old(logs) else old(logs)[topic := []]
    {
      if topic !in topics {
        topics := topics[topic := []];
        logs := logs[topic := []];
      }
      snapshot := topics[topic];
    }

    method ClearHistory(topic: Text)
      requires Valid()
      modifies this
      ensures Valid()
      ensures logs == if topic in old(logs) then old(logs)[topic := []] else old(logs)
    {
      if topic in topics {
        topics := topics[topic := []];
        logs := logs[topic := []];
      }
    }
  }

  // ----- one topic, any number of publishers, one subscriber ----------------------------

  /** Messages are named by the order of their push. `floor` is the first one since the last clear.
      A publish is two steps: the push under the lock and, later, the send. */
  datatype Topic = Topic(pushed: nat, floor: nat, history: seq<nat>, sent: seq<nat>, sub: Option<Subscriber>)

  /** `live` is what the receiver has yielded. `from`, `at` and `before` say how far clears, pushes
      and sends had come when it subscribed. */
  datatype Subscriber = Subscriber(snapshot: seq<nat>, live: seq<nat>, from: nat, at: nat, before: nat)

  datatype Action = Push | Send(msg: nat) | Subscribe | Clear

  const START := Topic(0, 0, [], [], None)

  /** A send reaches the receivers there are. */
  function Received(sub: Option<Subscriber>, msg: nat): Option<Subscriber> {
    match sub
    case None => None
    case Some(s) => Some(s.(live := s.live + [msg]))
  }

  function Step(t: Topic, capacity: nat, a: Action): Topic {
    match a
    case Push => t.(pushed := t.pushed + 1, history := PushHistory(t.history, capacity, t.pushed))
    case Send(msg) =>
      if msg < t.pushed && msg !in t.sent then t.(sent := t.sent + [msg], sub := Received(t.sub, msg)) else t
    case Subscribe =>
      if t.sub.None? then t.(sub := Some(Subscriber(t.history, [], t.floor, t.pushed, |t.sent|))) else t
    case Clear => t.(history := [], floor := t.pushed)
  }

  function Run(capacity: nat, actions: seq<Action>): Topic {
    if actions == [] then START
    else Step(Run(capacity, actions[..|actions| - 1]), capacity, actions[|actions| - 1])
  }

  function Range(lo: nat, hi: nat): (r: seq<nat>)
    requires lo <= hi
    ensures |r| == hi - lo && forall k | 0 <= k < |r| :: r[k] == lo + k
  {
    seq(hi - lo, k requires 0 <= k < hi - lo => lo + k)
  }

  predicate TopicOk(t: Topic, capacity: nat) {
    && t.floor <= t.pushed
    && t.history == LastN(Range(t.floor, t.pushed), Kept(capacity))
    && NoDup(t.sent) && (forall k | 0 <= k < |t.sent| :: t.sent[k] < t.pushed)
    && (t.sub.Some? ==> SubOk(t, t.sub.value, capacity))
  }

  predicate SubOk(t: Topic, s: Subscriber, capacity: nat) {
    && s.from <= s.at <= t.pushed && s.before <= |t.sent| && s.live == t.sent[s.before..]
    && s.snapshot == LastN(Range(s.from, s.at), Kept(capacity))
    && forall k | 0 <= k < s.before :: t.sent[k] < s.at
  }

  lemma StepOk(t: Topic, capacity: nat, a: Action)
    requires TopicOk(t, capacity)
    ensures TopicOk(Step(t, capacity, a), capacity)
  {
    match a
    case Push =>
      PushKeepsTail(Range(t.floor, t.pushed), capacity, t.pushed);
      assert Range(t.floor, t.pushed) + [t.pushed] == Range(t.floor, t.pushed + 1);
    case Send(msg) =>
      if msg < t.pushed && msg !in t.sent { NoDupAppend(t.sent, msg); }
    case Subscribe =>
    case Clear =>
  }

  lemma {:induction false} RunOk(capacity: nat, actions: seq<Action>)
    ensures TopicOk(Run(capacity, actions), capacity)
  {
    if actions != [] {
      RunOk(capacity, actions[..|actions| - 1]);
      StepOk(Run(capacity, actions[..|actions| - 1]), capacity, actions[|actions| - 1]);
    }
  }

  predicate SentBefore(t: Topic, s: Subscriber, msg: nat)
    requires s.before <= |t.sent|
  {
    msg in t.sent[..s.before]
  }

  /** For every interleaving of split publishes, clears and one subscribe, and every message:
      the snapshot holds the newest pushed since the last clear; a message pushed after the
      subscribe arrives live once sent, and never in the snapshot; it comes twice exactly when it
      is in the snapshot and its send followed the subscribe; a sent message is missed exactly
      when its send came before and the history had already let it go. */
  lemma SnapshotPlusLive(capacity: nat, actions: seq<Action>, msg: nat)
    requires Run(capacity, actions).sub.Some?
    requires msg < Run(capacity, actions).pushed
    ensures var t := Run(capacity, actions); var s := t.sub.value;
            && TopicOk(t, capacity)
            && (msg in s.snapshot <==> s.from <= msg < s.at && s.at <= msg + Kept(capacity))
            && (msg >= s.at ==> msg !in s.snapshot && !SentBefore(t, s, msg))
            && (msg >= s.at && msg in t.sent ==> msg in s.live)
            && NoDup(s.snapshot) && NoDup(s.live)
            && (msg in s.live <==> msg in t.sent && !SentBefore(t, s, msg))
            && (msg in t.sent && msg !in s.snapshot && msg !in s.live
                <==> SentBefore(t, s, msg) && (msg < s.from || msg + Kept(capacity) < s.at))
  {
    RunOk(capacity, actions);
    var t := Run(capacity, actions);
    var s := t.sub.value;
    InTail(s.from, s.at, Kept(capacity), msg);
    assert t.sent == t.sent[..s.before] + t.sent[s.before..];
    if SentBefore(t, s, msg) {
      var k :| 0 <= k < s.before && t.sent[..s.before][k] == msg;
      assert t.sent[k] == msg;
    }
  }

  lemma InTail(lo: nat, hi: nat, n: nat, msg: nat)
    requires lo <= hi
    ensures msg in LastN(Range(lo, hi), n) <==> lo <= msg < hi && hi <= msg + n
  {
    var tail := LastN(Range(lo, hi), n);
    var start := hi - |tail|;
    if lo <= msg < hi && hi <= msg + n { assert tail[msg - start] == msg; }
  }

  /** When no publish overtakes another, replay followed by live is one unbroken run of messages
      exactly when none was caught between its push and its send as the subscriber joined, or
      nothing has come live yet. */
  lemma ReplayThenLiveIsSeamlessIff(capacity: nat, actions: seq<Action>)
    requires Run(capacity, actions).sub.Some?
    requires Run(capacity, actions).sent == Range(0, |Run(capacity, actions).sent|)
    ensures var t := Run(capacity, actions); var s := t.sub.value; var first := s.at - |s.snapshot|;
            && first >= 0
            && (s.snapshot + s.live == Range(first, s.at + |s.live|) <==> s.before == s.at || s.live == [])
  {
    RunOk(capacity, actions);
    var t := Run(capacity, actions);
    var s := t.sub.value;
    if s.before > 0 { assert t.sent[s.before - 1] < s.at; }
    Seamless(s.snapshot, s.live, s.from, s.at, s.before, |t.sent|, Kept(capacity));
  }

  lemma Seamless(snapshot: seq<nat>, live: seq<nat>, from: nat, at: nat, before: nat, sent: nat, n: nat)
    requires from <= at && before <= sent && before <= at
    requires snapshot == LastN(Range(from, at), n) && live == Range(0, sent)[before..]
    ensures |snapshot| <= at
    ensures snapshot + live == Range(at - |snapshot|, at + |live|) <==> before == at || live == []
  {
    var whole := Range(at - |snapshot|, at + |live|);
    assert snapshot == Range(at - |snapshot|, at);
    if live != [] {
      assert (snapshot + live)[|snapshot|] == before;
      assert whole[|snapshot|] == at;
    }
  }
}
