/** The channels that connect a receive loop to the tasks it serves. */
module Channels {
  import opened Text
  import opened PortTask
  import opened Session

  /** A bounded channel; `queue` is what was sent and not taken yet. */
  class Channel {
    const capacity: nat
    var queue: seq<PortMessage>
    var dropped: bool          // its receiver is gone

    constructor (capacity: nat)
      ensures this.capacity == capacity && queue == [] && !dropped
    {
      this.capacity := capacity;
      queue, dropped := [], false;
    }

    /** Sends unless the receiver is gone; a full channel makes the sender wait. */
    method Send(m: PortMessage) returns (gone: bool, full: bool)
      modifies this`queue
      ensures gone == dropped && full == (!dropped && |old(queue)| >= capacity)
      ensures queue == if gone || full then old(queue) else old(queue) + [m]
    {
      gone, full := dropped, !dropped && |queue| >= capacity;
      if !gone && !full {
        queue := queue + [m];
      }
    }
  }

  /** What is in each channel of a table. */
  ghost function Contents(t: map<Uuid, Channel>): map<Uuid, seq<PortMessage>>
    reads t.Values
  {
    map u | u in t :: t[u].queue
  }

  /** No two keys share an object. */
  ghost predicate Apart<T(!new), C>(t: map<T, C>) {
    forall u, v :: u in t && v in t && u != v ==> t[u] != t[v]
  }

  /** A table of port writers: a channel of its own for each connection. */
  ghost predicate AreWriters(t: map<Uuid, Channel>, capacity: nat)
    reads t.Values
  {
    Apart(t) && forall u :: u in t ==> t[u].capacity == capacity
  }

  /** The table is that of `e`, and the tasks that are over have dropped their receivers. */
  ghost predicate Shown(t: map<Uuid, Channel>, e: End)
    reads t.Values
  {
    && e.chans == Contents(t)
    && (forall u :: u in t ==> (t[u].dropped <==> u !in e.tasks || e.tasks[u].phase.Ended?))
  }

  /** A channel for one value. `waited` tells whether its receiver is still there. */
  class Oneshot<T(0)> {
    var value: Option<T>
    var waited: bool

    constructor ()
      ensures value == None && waited
    {
      value, waited := None, true;
    }

    method Complete(v: T)
      modifies this`value
      ensures value == if waited then Some(v) else old(value)
    {
      if waited {
        value := Some(v);
      }
    }
  }
}
