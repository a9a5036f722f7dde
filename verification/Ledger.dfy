/**
 What a single producer's calls amount to, told from outside: when a call began and with which
 value, and whether it ended with the value published or refused.
 */
module Ledger {
  import opened Wrappers

  datatype Event<V> = Called(v: V) | Published | Refused | Quiet

  /** The call that is open after these events, by its place among them. */
  function Open<V>(events: seq<Event<V>>): (r: Option<nat>)
    ensures r.Some? ==> r.value < |events| && events[r.value].Called?
  {
    if events == [] then None
    else
      match events[|events| - 1]
      case Called(_) => Some(|events| - 1)
      case Quiet => Open(events[..|events| - 1])
      case _ => None
  }

  /** The calls that published, in order. */
  function Sent<V>(events: seq<Event<V>>): seq<nat> {
    if events == [] then []
    else
      var before := events[..|events| - 1];
      Sent(before) + if events[|events| - 1].Published? && Open(before).Some? then [Open(before).value] else []
  }

  /** These are calls among the events, in the order in which they were made, all before place n. */
  ghost predicate Ordered<V>(events: seq<Event<V>>, at: seq<nat>, n: nat) {
    && (forall k | 0 <= k < |at| :: at[k] < |events| && at[k] < n && events[at[k]].Called?)
    && (forall k, l | 0 <= k < l < |at| :: at[k] < at[l])
  }

  /** No call publishes twice, and none that is open has published. */
  lemma {:induction false} SentOrdered<V>(events: seq<Event<V>>)
    ensures Ordered(events, Sent(events), if Open(events).Some? then Open(events).value else |events|)
  {
    if events != [] { SentOrdered(events[..|events| - 1]); }
  }

  /** The values of the calls that published, in order. */
  function Values<V>(events: seq<Event<V>>): seq<V> {
    if events == [] then []
    else
      var before := events[..|events| - 1];
      Values(before) +
        if events[|events| - 1].Published? && Open(before).Some? then [events[Open(before).value].v] else []
  }

  lemma {:induction false} ValuesSent<V>(events: seq<Event<V>>)
    ensures |Values(events)| == |Sent(events)|
    ensures forall k | 0 <= k < |Sent(events)| ::
      Sent(events)[k] < |events| && events[Sent(events)[k]] == Called(Values(events)[k])
  {
    if events != [] { ValuesSent(events[..|events| - 1]); }
  }

  /** The value of the call that is open. */
  function InHand<V>(events: seq<Event<V>>): Option<V> {
    if Open(events).Some? then Some(events[Open(events).value].v) else None
  }

  /** One more event. */
  lemma Then<V>(events: seq<Event<V>>, e: Event<V>)
    ensures var more := events + [e];
      match e
      case Called(v) => Values(more) == Values(events) && InHand(more) == Some(v)
      case Quiet => Values(more) == Values(events) && InHand(more) == InHand(events)
      case Refused => Values(more) == Values(events) && InHand(more) == None
      case Published =>
        && InHand(more) == None
        && Values(more) == Values(events) + if InHand(events).Some? then [InHand(events).value] else []
  {
    assert (events + [e])[..|events|] == events;
  }
}
