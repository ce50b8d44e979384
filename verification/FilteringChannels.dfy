/** The channel meant to pass on the messages of one system id only. For want of a semicolon its callback
    passes on the messages of every other one; the model does what the code does. */
module FilteringChannels {
  import opened Prelude
  import opened MavlinkModel
  import opened VehicleTrackers
  import Channels

  /** What the channel was meant to pass on. */
  function Wanted(ms: seq<Message>, id: Byte): seq<Message>
    decreases |ms|
  {
    if ms == [] then []
    else Wanted(ms[..|ms| - 1], id) + if ms[|ms| - 1].sysid == id then [ms[|ms| - 1]] else []
  }

  /** What it passes on. */
  function Passed(ms: seq<Message>, id: Byte): seq<Message>
    decreases |ms|
  {
    if ms == [] then []
    else Passed(ms[..|ms| - 1], id) + if ms[|ms| - 1].sysid != id then [ms[|ms| - 1]] else []
  }

  /** `channel` is its part as a channel: the subscribers and what they have been handed. */
  class FilteringChannel<P(0)> {
    const systemId: Byte
    const channel: Channels.Channel<P, Message>

    constructor (systemId: Byte, channel: Channels.Channel<P, Message>)
      ensures this.systemId == systemId && this.channel == channel
    {
      this.systemId, this.channel := systemId, channel;
    }

    /** The callback subscribed with the channel behind it. */
    method OnMessage(msg: Message)
      modifies channel`deliveries
      ensures channel.deliveries ==
                old(channel.deliveries) + Channels.Deliveries(channel.subscribers, Passed([msg], systemId))
    {
      assert [msg][..0] == [];
      assert Channels.Deliveries<Message>(channel.subscribers, []) == [];
      if msg.sysid != systemId {
        channel.InvokeSubscribers([msg]);
      }
    }
  }

  /** Whatever a stream holds is either wanted and dropped or unwanted and passed on. */
  lemma {:induction false} PassesTheRest(ms: seq<Message>, id: Byte)
    ensures multiset(Passed(ms, id)) + multiset(Wanted(ms, id)) == multiset(ms)
    ensures forall m | m in Passed(ms, id) :: m.sysid != id
    ensures forall m | m in Wanted(ms, id) :: m.sysid == id
    decreases |ms|
  {
    if ms != [] {
      PassesTheRest(ms[..|ms| - 1], id);
      assert ms == ms[..|ms| - 1] + [ms[|ms| - 1]];
    }
  }

  /** So the channel passes on what it was meant to exactly if nothing arrives at all. */
  lemma FiltersIff(ms: seq<Message>, id: Byte)
    ensures Passed(ms, id) == Wanted(ms, id) <==> ms == []
  {
    PassesTheRest(ms, id);
    if ms != [] {
      assert ms[0] in multiset(ms);
      assert ms[0] in Passed(ms, id) <==> ms[0] !in Wanted(ms, id);
    }
  }

  lemma {:induction false} OwnPassed(ms: seq<Message>, id: Byte, other: Byte)
    ensures Own(Passed(ms, id), other) == if other == id then [] else Own(ms, other)
    decreases |ms|
  {
    if ms != [] {
      var before, m := ms[..|ms| - 1], ms[|ms| - 1];
      OwnPassed(before, id, other);
      var passed := Passed(before, id);
      assert passed + [] == passed && (passed + [m])[..|passed|] == passed;
    }
  }

  /** Behind it a tracker never knows the one vehicle it was to listen to, and follows every other one
      as if nothing were filtered. */
  lemma TracksTheOthers(ms: seq<Message>, id: Byte, other: Byte)
    ensures id !in After(Passed(ms, id)).vehicles
    ensures other != id ==>
              && (other in After(Passed(ms, id)).vehicles <==> other in After(ms).vehicles)
              && (other in After(ms).vehicles ==>
                    After(Passed(ms, id)).vehicles[other] == After(ms).vehicles[other])
              && About(After(Passed(ms, id)).notices, other) == About(After(ms).notices, other)
  {
    OwnPassed(ms, id, id);
    OwnPassed(ms, id, other);
    VehiclesIndependent(Passed(ms, id), id);
    VehiclesIndependent(Passed(ms, id), other);
    VehiclesIndependent(ms, other);
  }
}
