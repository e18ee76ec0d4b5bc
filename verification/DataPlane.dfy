// The server's `DataPlane` object: each helper run to completion without
// interference. `RegistryMachine` takes the same helpers apart at their locks.
module DataPlane {
  import opened Wrappers
  import opened Registry

  // Both indexes say what a scan of the two primary maps would say.
  ghost predicate Consistent(streams: Streams, udp: UdpSessions, loads: Loads, peers: PeerIndex) {
    && streams.Keys !! udp.Keys
    && (forall k: Key :: Load(loads, k) == |StreamsOn(streams, k)| + |UdpOn(udp, k)|)
    && IndexMatches(udp, peers)
  }

  ghost predicate IndexMatches(udp: UdpSessions, peers: PeerIndex) {
    && NoEmptyInner(peers)
    && forall t: Uuid, p: Peer, id: StreamId ::
         Lookup(peers, t, p) == Some(id) <==> id in udp && udp[id].tunnelId == t && udp[id].peer == p
  }

  lemma StreamsOnAdd(streams: Streams, id: StreamId, e: StreamEntry, k: Key)
    requires id !in streams
    ensures |StreamsOn(streams[id := e], k)| == |StreamsOn(streams, k)| + if e.Place() == k then 1 else 0
  {
    var after := streams[id := e];
    var before := StreamsOn(streams, k);
    forall r: StreamId ensures r in StreamsOn(after, k) <==> r in before || (r == id && e.Place() == k) {
    }
    if e.Place() == k {
      assert StreamsOn(after, k) == before + {id};
    } else {
      assert StreamsOn(after, k) == before;
    }
  }

  lemma UdpOnAdd(udp: UdpSessions, id: StreamId, s: UdpSession, k: Key)
    requires id !in udp
    ensures |UdpOn(udp[id := s], k)| == |UdpOn(udp, k)| + if s.Place() == k then 1 else 0
  {
    var after := udp[id := s];
    var before := UdpOn(udp, k);
    forall r: StreamId ensures r in UdpOn(after, k) <==> r in before || (r == id && s.Place() == k) {
    }
    if s.Place() == k {
      assert UdpOn(after, k) == before + {id};
    } else {
      assert UdpOn(after, k) == before;
    }
  }

  lemma StreamAdded(streams: Streams, udp: UdpSessions, loads: Loads, peers: PeerIndex, id: StreamId, e: StreamEntry)
    requires Consistent(streams, udp, loads, peers) && id !in streams && id !in udp
    ensures Consistent(streams[id := e], udp, Incremented(loads, e.Place()), peers)
  {
    forall k: Key
      ensures Load(Incremented(loads, e.Place()), k) == |StreamsOn(streams[id := e], k)| + |UdpOn(udp, k)| {
      assert Load(loads, k) == |StreamsOn(streams, k)| + |UdpOn(udp, k)|;
      StreamsOnAdd(streams, id, e, k);
    }
  }

  lemma StreamRemoved(streams: Streams, udp: UdpSessions, loads: Loads, peers: PeerIndex, id: StreamId)
    requires Consistent(streams, udp, loads, peers) && id in streams
    ensures Consistent(streams - {id}, udp, Decremented(loads, streams[id].Place()), peers)
  {
    forall k: Key
      ensures Load(Decremented(loads, streams[id].Place()), k) == |StreamsOn(streams - {id}, k)| + |UdpOn(udp, k)| {
      assert Load(loads, k) == |StreamsOn(streams, k)| + |UdpOn(udp, k)|;
      assert StreamsOn(streams - {id}, k) == StreamsOn(streams, k) - {id};
      assert id in StreamsOn(streams, k) <==> streams[id].Place() == k;
    }
  }

  lemma UdpAdded(streams: Streams, udp: UdpSessions, loads: Loads, peers: PeerIndex, id: StreamId, s: UdpSession)
    requires Consistent(streams, udp, loads, peers) && id !in streams && id !in udp
    requires Lookup(peers, s.tunnelId, s.peer) == None
    ensures Consistent(streams, udp[id := s], Incremented(loads, s.Place()), Indexed(peers, s.tunnelId, s.peer, id))
  {
    forall k: Key
      ensures Load(Incremented(loads, s.Place()), k) == |StreamsOn(streams, k)| + |UdpOn(udp[id := s], k)| {
      assert Load(loads, k) == |StreamsOn(streams, k)| + |UdpOn(udp, k)|;
      UdpOnAdd(udp, id, s, k);
    }
    PeerAdded(udp, peers, id, s);
  }

  lemma PeerAdded(udp: UdpSessions, peers: PeerIndex, id: StreamId, s: UdpSession)
    requires IndexMatches(udp, peers) && id !in udp && Lookup(peers, s.tunnelId, s.peer) == None
    ensures IndexMatches(udp[id := s], Indexed(peers, s.tunnelId, s.peer, id))
  {
    var peers' := Indexed(peers, s.tunnelId, s.peer, id);
    assert s.peer in peers'[s.tunnelId];
    forall t: Uuid, p: Peer, r: StreamId
      ensures Lookup(peers', t, p) == Some(r) <==>
              r in udp[id := s] && udp[id := s][r].tunnelId == t && udp[id := s][r].peer == p {
      assert Lookup(peers, t, p) == Some(r) <==> r in udp && udp[r].tunnelId == t && udp[r].peer == p;
    }
  }

  lemma UdpRemoved(streams: Streams, udp: UdpSessions, loads: Loads, peers: PeerIndex, id: StreamId)
    requires Consistent(streams, udp, loads, peers) && id in udp
    ensures var s := udp[id];
            Consistent(streams, udp - {id}, Decremented(loads, s.Place()), Unindexed(peers, s.tunnelId, s.peer))
  {
    var s := udp[id];
    forall k: Key
      ensures Load(Decremented(loads, s.Place()), k) == |StreamsOn(streams, k)| + |UdpOn(udp - {id}, k)| {
      assert Load(loads, k) == |StreamsOn(streams, k)| + |UdpOn(udp, k)|;
      assert UdpOn(udp - {id}, k) == UdpOn(udp, k) - {id};
      assert id in UdpOn(udp, k) <==> s.Place() == k;
    }
    PeerRemoved(udp, peers, id);
  }

  lemma PeerRemoved(udp: UdpSessions, peers: PeerIndex, id: StreamId)
    requires IndexMatches(udp, peers) && id in udp
    ensures IndexMatches(udp - {id}, Unindexed(peers, udp[id].tunnelId, udp[id].peer))
  {
    var s := udp[id];
    forall t: Uuid, p: Peer, r: StreamId
      ensures Lookup(Unindexed(peers, s.tunnelId, s.peer), t, p) == Some(r) <==>
              r in udp - {id} && udp[r].tunnelId == t && udp[r].peer == p {
      UnindexedLookup(peers, s.tunnelId, s.peer, t, p);
      assert Lookup(peers, t, p) == Some(r) <==> r in udp && udp[r].tunnelId == t && udp[r].peer == p;
      assert Lookup(peers, s.tunnelId, s.peer) == Some(id);
    }
  }

  lemma LoadsAfterClose(streams: Streams, udp: UdpSessions, loads: Loads, peers: PeerIndex,
                        loads': Loads, peers': PeerIndex, closed: Key, k: Key)
    requires Consistent(streams, udp, loads, peers)
    requires Consistent(streams - StreamsOn(streams, closed), udp - UdpOn(udp, closed), loads', peers')
    ensures Load(loads', k) == if k == closed then 0 else Load(loads, k)
  {
    var tcp', udp' := streams - StreamsOn(streams, closed), udp - UdpOn(udp, closed);
    assert Load(loads', k) == |StreamsOn(tcp', k)| + |UdpOn(udp', k)|;
    assert Load(loads, k) == |StreamsOn(streams, k)| + |UdpOn(udp, k)|;
    if k == closed {
      assert StreamsOn(tcp', k) == {} && UdpOn(udp', k) == {};
    } else {
      assert StreamsOn(tcp', k) == StreamsOn(streams, k);
      assert UdpOn(udp', k) == UdpOn(udp, k);
    }
  }

  lemma LoadsAfterRegister(streams: Streams, udp: UdpSessions, loads: Loads, peers: PeerIndex,
                           loads': Loads, id: StreamId, e: StreamEntry, k: Key)
    requires Consistent(streams, udp, loads, peers) && id !in streams
    requires Consistent(streams[id := e], udp, loads', peers)
    ensures Load(loads', k) == if k == e.Place() then Load(loads, k) + 1 else Load(loads, k)
  {
    assert Load(loads', k) == |StreamsOn(streams[id := e], k)| + |UdpOn(udp, k)|;
    assert Load(loads, k) == |StreamsOn(streams, k)| + |UdpOn(udp, k)|;
    StreamsOnAdd(streams, id, e, k);
  }

  lemma LoadsAfterPlace(streams: Streams, udp: UdpSessions, loads: Loads, peers: PeerIndex,
                        loads': Loads, id: StreamId, e: StreamEntry, channels: set<ChannelId>)
    requires Consistent(streams, udp, loads, peers) && id !in streams && e.dataChannel in channels
    requires Consistent(streams[id := e], udp, loads', peers)
    ensures (map c | c in channels :: Load(loads', (e.deviceId, c)))
         == Arrive(map c | c in channels :: Load(loads, (e.deviceId, c)), e.dataChannel)
  {
    forall c | c in channels
      ensures Load(loads', (e.deviceId, c)) == if c == e.dataChannel then Load(loads, (e.deviceId, c)) + 1 else Load(loads, (e.deviceId, c)) {
      LoadsAfterRegister(streams, udp, loads, peers, loads', id, e, (e.deviceId, c));
    }
  }

  lemma PeersAfterClose(udp: UdpSessions, peers: PeerIndex, peers': PeerIndex, gone: set<StreamId>, t: Uuid, p: Peer)
    requires IndexMatches(udp, peers) && IndexMatches(udp - gone, peers')
    ensures Lookup(peers', t, p) == match Lookup(peers, t, p)
                                    case Some(id) => if id in gone then None else Some(id)
                                    case None => None
  {
    match Lookup(peers', t, p)
    case Some(id) =>
      assert id in udp - gone && udp[id].tunnelId == t && udp[id].peer == p;
      assert Lookup(peers, t, p) == Some(id);
    case None =>
      match Lookup(peers, t, p)
      case Some(id) =>
        assert id in udp && udp[id].tunnelId == t && udp[id].peer == p;
        assert id !in udp - gone;
      case None =>
  }

  // Streams and sessions carried by any of a device's channels `cs`.
  function StreamsCarried(streams: Streams, d: Uuid, cs: set<ChannelId>): set<StreamId> {
    set id | id in streams && streams[id].deviceId == d && streams[id].dataChannel in cs
  }

  function UdpCarried(udp: UdpSessions, d: Uuid, cs: set<ChannelId>): set<StreamId> {
    set id | id in udp && udp[id].deviceId == d && udp[id].dataChannel in cs
  }

  lemma CarriedByOneMore(streams: Streams, udp: UdpSessions, d: Uuid, cs: set<ChannelId>, c: ChannelId)
    ensures var rest := streams - StreamsCarried(streams, d, cs);
            rest - StreamsOn(rest, (d, c)) == streams - StreamsCarried(streams, d, cs + {c})
    ensures var rest := udp - UdpCarried(udp, d, cs);
            rest - UdpOn(rest, (d, c)) == udp - UdpCarried(udp, d, cs + {c})
  {
  }

  // The ids 1..max cannot all be taken by fewer than max channels.
  lemma {:induction false} FreeIdExists(taken: set<ChannelId>, max: nat)
    requires |taken| < max
    ensures exists c: ChannelId :: 1 <= c <= max && c !in taken
    decreases max
  {
    if max !in taken {
    } else {
      FreeIdExists(taken - {max}, max - 1);
      var c: ChannelId :| 1 <= c <= max - 1 && c !in taken - {max};
      assert 1 <= c <= max && c !in taken;
    }
  }

  lemma {:induction false} WithinRangeSize(taken: set<ChannelId>, max: nat)
    requires forall c | c in taken :: 1 <= c <= max
    ensures |taken| <= max
    decreases max
  {
    if max == 0 {
      assert taken == {};
    } else {
      WithinRangeSize(taken - {max}, max - 1);
      if max in taken {
        assert taken == (taken - {max}) + {max};
      } else {
        assert taken == taken - {max};
      }
    }
  }

  class DataPlane {
    // Device to the connection id of its registered control session.
    var sessions: map<Uuid, Uuid>
    var streams: Streams
    var udpSessions: UdpSessions
    var channelLoads: Loads
    var udpPeers: PeerIndex
    // Device to its bound channels, each with the connection it was bound under.
    var dataChannels: map<Uuid, map<ChannelId, Uuid>>
    const dataChannelsMax: nat

    ghost predicate Valid()
      reads this
    {
      && Consistent(streams, udpSessions, channelLoads, udpPeers)
      && dataChannelsMax < 0x1_0000
      && forall d | d in dataChannels :: forall c | c in dataChannels[d] :: 1 <= c <= dataChannelsMax
    }

    function Channels(d: Uuid): map<ChannelId, Uuid>
      reads this
    {
      if d in dataChannels then dataChannels[d] else map[]
    }

    // Channels bound under the device's current control session.
    function Eligible(d: Uuid): set<ChannelId>
      reads this
    {
      set c | c in Channels(d) && d in sessions && Channels(d)[c] == sessions[d]
    }

    function EligibleLoads(d: Uuid): map<ChannelId, nat>
      reads this
    {
      map c | c in Eligible(d) :: Load(channelLoads, (d, c))
    }

    constructor (max: nat)
      requires max < 0x1_0000
      ensures Valid() && dataChannelsMax == max
      ensures sessions == map[] && streams == map[] && udpSessions == map[] && dataChannels == map[]
    {
      sessions, streams, udpSessions, channelLoads, udpPeers, dataChannels := map[], map[], map[], map[], map[], map[];
      dataChannelsMax := max;
      new;
      assert forall k: Key :: StreamsOn(streams, k) == {} && UdpOn(udpSessions, k) == {};
    }

    method ChannelLoad(d: Uuid, c: ChannelId) returns (load: nat)
      requires Valid()
      ensures load == |StreamsOn(streams, (d, c))| + |UdpOn(udpSessions, (d, c))|
    {
      load := Load(channelLoads, (d, c));
    }

    // Bookkeeping first, session last; the id is fresh and the listener has
    // just looked the peer up in vain.
    method InsertUdpSession(id: StreamId, session: UdpSession)
      requires Valid() && id !in streams && id !in udpSessions
      requires Lookup(udpPeers, session.tunnelId, session.peer) == None
      modifies this`channelLoads, this`udpPeers, this`udpSessions
      ensures Valid() && udpSessions == old(udpSessions)[id := session]
    {
      UdpAdded(streams, udpSessions, channelLoads, udpPeers, id, session);
      channelLoads := Incremented(channelLoads, session.Place());
      udpPeers := Indexed(udpPeers, session.tunnelId, session.peer, id);
      udpSessions := udpSessions[id := session];
    }

    // Safe for ids that are already gone.
    method RemoveUdpSession(id: StreamId)
      requires Valid()
      modifies this`channelLoads, this`udpPeers, this`udpSessions
      ensures Valid() && udpSessions == old(udpSessions) - {id}
    {
      if id in udpSessions {
        UdpRemoved(streams, udpSessions, channelLoads, udpPeers, id);
        var session := udpSessions[id];
        udpSessions := udpSessions - {id};
        channelLoads := Decremented(channelLoads, session.Place());
        udpPeers := Unindexed(udpPeers, session.tunnelId, session.peer);
      }
    }

    method TryRegisterStream(id: StreamId, entry: StreamEntry, maxConnections: nat) returns (admitted: bool)
      requires Valid() && id !in streams && id !in udpSessions
      modifies this`streams, this`channelLoads
      ensures Valid()
      ensures admitted <==> |ActiveStreams(old(streams), entry.deviceId, entry.tunnelId)| < maxConnections
      ensures streams == if admitted then old(streams)[id := entry] else old(streams)
      ensures !admitted ==> channelLoads == old(channelLoads)
      ensures |ActiveStreams(old(streams), entry.deviceId, entry.tunnelId)| <= maxConnections ==>
                |ActiveStreams(streams, entry.deviceId, entry.tunnelId)| <= maxConnections
    {
      var active := |ActiveStreams(streams, entry.deviceId, entry.tunnelId)|;
      if active >= maxConnections {
        return false;
      }
      StreamAdded(streams, udpSessions, channelLoads, udpPeers, id, entry);
      assert ActiveStreams(streams[id := entry], entry.deviceId, entry.tunnelId)
          == ActiveStreams(streams, entry.deviceId, entry.tunnelId) + {id};
      streams := streams[id := entry];
      channelLoads := Incremented(channelLoads, entry.Place());
      return true;
    }

    method RemoveStreamEntry(id: StreamId)
      requires Valid()
      modifies this`streams, this`channelLoads
      ensures Valid() && streams == old(streams) - {id}
    {
      if id in streams {
        StreamRemoved(streams, udpSessions, channelLoads, udpPeers, id);
        var entry := streams[id];
        streams := streams - {id};
        channelLoads := Decremented(channelLoads, entry.Place());
      }
    }

    // Scans the eligible channels in whatever order the hash map yields, so a
    // tie may go to any of the least loaded ones.
    method PickDataChannel(d: Uuid) returns (best: Option<ChannelId>)
      ensures best.None? <==> Eligible(d) == {}
      ensures best.Some? ==> best.value in Eligible(d)
      ensures best.Some? ==> forall c | c in Eligible(d) ::
                Load(channelLoads, (d, best.value)) <= Load(channelLoads, (d, c))
      ensures best.Some? ==>
                && d in sessions && d in dataChannels
                && best.value in dataChannels[d] && dataChannels[d][best.value] == sessions[d]
                && forall c | c in dataChannels[d] && dataChannels[d][c] == sessions[d] ::
                     Load(channelLoads, (d, best.value)) <= Load(channelLoads, (d, c))
      ensures best.None? && d in sessions && d in dataChannels ==>
                forall c | c in dataChannels[d] :: dataChannels[d][c] != sessions[d]
    {
      var rest := Eligible(d);
      best := None;
      while rest != {}
        invariant rest <= Eligible(d)
        invariant best.None? ==> rest == Eligible(d)
        invariant best.Some? ==> best.value in Eligible(d)
        invariant best.Some? ==> forall c | c in Eligible(d) - rest ::
                    Load(channelLoads, (d, best.value)) <= Load(channelLoads, (d, c))
        decreases rest
      {
        var c :| c in rest;
        if best.None? || Load(channelLoads, (d, c)) < Load(channelLoads, (d, best.value)) {
          best := Some(c);
        }
        rest := rest - {c};
      }
      if d in sessions && d in dataChannels {
        assert forall c | c in dataChannels[d] && dataChannels[d][c] == sessions[d] :: c in Eligible(d);
      }
    }

    method CloseTcpStreams(todo: set<StreamId>) returns (removed: seq<StreamId>)
      requires Valid() && todo <= streams.Keys
      modifies this`streams, this`channelLoads
      ensures Valid() && streams == old(streams) - todo && multiset(removed) == multiset(todo)
    {
      removed := [];
      var rest := todo;
      while rest != {}
        invariant Valid() && rest <= todo && streams == old(streams) - (todo - rest)
        invariant multiset(removed) == multiset(todo - rest)
        decreases rest
      {
        var id :| id in rest;
        RemoveStreamEntry(id);
        assert todo - (rest - {id}) == (todo - rest) + {id};
        removed, rest := removed + [id], rest - {id};
      }
      assert todo - rest == todo;
    }

    method CloseUdpSessions(todo: set<StreamId>) returns (removed: seq<StreamId>)
      requires Valid() && todo <= udpSessions.Keys
      modifies this`udpSessions, this`channelLoads, this`udpPeers
      ensures Valid() && udpSessions == old(udpSessions) - todo && multiset(removed) == multiset(todo)
    {
      removed := [];
      var rest := todo;
      while rest != {}
        invariant Valid() && rest <= todo && udpSessions == old(udpSessions) - (todo - rest)
        invariant multiset(removed) == multiset(todo - rest)
        decreases rest
      {
        var id :| id in rest;
        RemoveUdpSession(id);
        assert todo - (rest - {id}) == (todo - rest) + {id};
        removed, rest := removed + [id], rest - {id};
      }
      assert todo - rest == todo;
    }

    // Everything carried by one data channel goes, each id reported once; all
    // other streams, sessions, loads and peers stay.
    method CloseChannelStreams(d: Uuid, c: ChannelId) returns (removed: seq<StreamId>)
      requires Valid()
      modifies this`streams, this`udpSessions, this`channelLoads, this`udpPeers
      ensures Valid()
      ensures streams == old(streams) - StreamsOn(old(streams), (d, c))
      ensures udpSessions == old(udpSessions) - UdpOn(old(udpSessions), (d, c))
      ensures forall id | id in old(streams) ::
                id in streams <==> !(old(streams)[id].deviceId == d && old(streams)[id].dataChannel == c)
      ensures forall id | id in old(udpSessions) ::
                id in udpSessions <==> !(old(udpSessions)[id].deviceId == d && old(udpSessions)[id].dataChannel == c)
      ensures multiset(removed) == multiset(StreamsOn(old(streams), (d, c))) + multiset(UdpOn(old(udpSessions), (d, c)))
      ensures forall k: Key :: Load(channelLoads, k) == if k == (d, c) then 0 else Load(old(channelLoads), k)
      ensures forall t: Uuid, p: Peer ::
                Lookup(udpPeers, t, p) ==
                match Lookup(old(udpPeers), t, p)
                case Some(id) => if id in UdpOn(old(udpSessions), (d, c)) then None else Some(id)
                case None => None
    {
      var tcp := CloseTcpStreams(StreamsOn(streams, (d, c)));
      var udp := CloseUdpSessions(UdpOn(udpSessions, (d, c)));
      removed := tcp + udp;
      forall k: Key ensures Load(channelLoads, k) == if k == (d, c) then 0 else Load(old(channelLoads), k) {
        LoadsAfterClose(old(streams), old(udpSessions), old(channelLoads), old(udpPeers), channelLoads, udpPeers, (d, c), k);
      }
      forall t: Uuid, p: Peer
        ensures Lookup(udpPeers, t, p) ==
                match Lookup(old(udpPeers), t, p)
                case Some(id) => if id in UdpOn(old(udpSessions), (d, c)) then None else Some(id)
                case None => None {
        PeersAfterClose(old(udpSessions), old(udpPeers), udpPeers, UdpOn(old(udpSessions), (d, c)), t, p);
      }
    }

    // Binds a data socket under `connection` to the least free id in 1..max.
    method BindChannel(d: Uuid, connection: Uuid) returns (bound: Option<ChannelId>)
      requires Valid()
      modifies this`dataChannels
      ensures Valid()
      ensures bound.Some? <==> |old(Channels(d))| < dataChannelsMax
      ensures bound.Some? ==>
                && 1 <= bound.value <= dataChannelsMax && bound.value !in old(Channels(d))
                && forall c: ChannelId | 1 <= c < bound.value :: c in old(Channels(d))
      ensures Channels(d) == if bound.Some? then old(Channels(d))[bound.value := connection] else old(Channels(d))
      ensures forall e: Uuid | e != d :: Channels(e) == old(Channels(e))
    {
      var channels := Channels(d);
      dataChannels := dataChannels[d := channels];
      WithinRangeSize(channels.Keys, dataChannelsMax);
      assert |channels.Keys| == |channels|;
      if |channels| % 0x1_0000 >= dataChannelsMax {
        return None;
      }
      FreeIdExists(channels.Keys, dataChannelsMax);
      var c: ChannelId := 1;
      while c <= dataChannelsMax && c in channels
        invariant 1 <= c <= dataChannelsMax + 1
        invariant forall e: ChannelId | 1 <= e < c :: e in channels
      {
        c := c + 1;
      }
      if c > dataChannelsMax {
        return None;
      }
      dataChannels := dataChannels[d := channels[c := connection]];
      return Some(c);
    }

    // A data socket drops: its streams go first, then the channel itself.
    method DropChannel(d: Uuid, c: ChannelId) returns (removed: seq<StreamId>)
      requires Valid()
      modifies this`streams, this`udpSessions, this`channelLoads, this`udpPeers, this`dataChannels
      ensures Valid()
      ensures streams == old(streams) - StreamsOn(old(streams), (d, c))
      ensures udpSessions == old(udpSessions) - UdpOn(old(udpSessions), (d, c))
      ensures multiset(removed) == multiset(StreamsOn(old(streams), (d, c))) + multiset(UdpOn(old(udpSessions), (d, c)))
      ensures Channels(d) == old(Channels(d)) - {c}
      ensures forall e: Uuid | e != d :: Channels(e) == old(Channels(e))
    {
      removed := CloseChannelStreams(d, c);
      if d in dataChannels {
        dataChannels := dataChannels[d := dataChannels[d] - {c}];
      }
    }

    // The channels a device has bound under one control connection.
    function BoundUnder(d: Uuid, connection: Uuid): set<ChannelId>
      reads this
    {
      set c | c in Channels(d) && Channels(d)[c] == connection
    }

    // Tears down exactly the channels bound under one control connection.
    method TeardownDeviceDataChannels(d: Uuid, connection: Uuid)
      requires Valid()
      modifies this`streams, this`udpSessions, this`channelLoads, this`udpPeers, this`dataChannels
      ensures Valid()
      ensures Channels(d) == old(Channels(d)) - old(BoundUnder(d, connection))
      ensures forall e: Uuid | e != d :: Channels(e) == old(Channels(e))
      ensures streams == old(streams) - StreamsCarried(old(streams), d, old(BoundUnder(d, connection)))
      ensures udpSessions == old(udpSessions) - UdpCarried(old(udpSessions), d, old(BoundUnder(d, connection)))
      ensures forall c: ChannelId ::
                c in Channels(d) <==> c in old(Channels(d)) && old(Channels(d))[c] != connection
      ensures forall id | id in old(streams) ::
                var e := old(streams)[id];
                id in streams <==> !(e.deviceId == d && e.dataChannel in old(Channels(d))
                                     && old(Channels(d))[e.dataChannel] == connection)
      ensures forall id | id in old(udpSessions) ::
                var u := old(udpSessions)[id];
                id in udpSessions <==> !(u.deviceId == d && u.dataChannel in old(Channels(d))
                                         && old(Channels(d))[u.dataChannel] == connection)
    {
      var mine := BoundUnder(d, connection);
      var todo := mine;
      while todo != {}
        invariant Valid() && todo <= mine
        invariant Channels(d) == old(Channels(d)) - (mine - todo)
        invariant forall e: Uuid | e != d :: Channels(e) == old(Channels(e))
        invariant streams == old(streams) - StreamsCarried(old(streams), d, mine - todo)
        invariant udpSessions == old(udpSessions) - UdpCarried(old(udpSessions), d, mine - todo)
        decreases todo
      {
        var c :| c in todo;
        CarriedByOneMore(old(streams), old(udpSessions), d, mine - todo, c);
        assert mine - (todo - {c}) == (mine - todo) + {c};
        var _ := DropChannel(d, c);
        todo := todo - {c};
      }
      assert mine - todo == mine;
      if d in dataChannels && dataChannels[d] == map[] {
        dataChannels := dataChannels - {d};
      }
    }

    // One accepted public connection, undisturbed between the choice of the
    // channel and the registration.
    method PlaceStream(id: StreamId, d: Uuid, tunnel: Uuid, maxConnections: nat) returns (placed: Option<ChannelId>)
      requires Valid() && id !in streams && id !in udpSessions
      modifies this`streams, this`channelLoads
      ensures Valid()
      ensures placed.Some? <==> Eligible(d) != {} && |ActiveStreams(old(streams), d, tunnel)| < maxConnections
      ensures placed.None? ==> streams == old(streams) && channelLoads == old(channelLoads)
      ensures placed.Some? ==>
                && streams == old(streams)[id := StreamEntry(d, tunnel, placed.value)]
                && IsLeast(old(EligibleLoads(d)), placed.value)
                && EligibleLoads(d) == Arrive(old(EligibleLoads(d)), placed.value)
    {
      placed := PickDataChannel(d);
      if placed.Some? {
        var entry := StreamEntry(d, tunnel, placed.value);
        ghost var before := EligibleLoads(d);
        var admitted := TryRegisterStream(id, entry, maxConnections);
        if !admitted {
          return None;
        }
        LoadsAfterPlace(old(streams), udpSessions, old(channelLoads), udpPeers, channelLoads, id, entry, Eligible(d));
        assert EligibleLoads(d) == Arrive(before, placed.value);
      }
    }
  }

  // ---- Least-loaded balance ---------------------------------------------------

  ghost predicate IsLeast(loads: map<ChannelId, nat>, c: ChannelId) {
    c in loads && forall e | e in loads :: loads[c] <= loads[e]
  }

  ghost function Arrive(loads: map<ChannelId, nat>, c: ChannelId): map<ChannelId, nat>
    requires c in loads
  {
    loads[c := loads[c] + 1]
  }

  // No two channels differ by more than `spread`.
  ghost predicate Balanced(loads: map<ChannelId, nat>, spread: nat) {
    forall c, e | c in loads && e in loads :: loads[c] <= loads[e] + spread
  }

  // Arrivals only, each placed on a channel that is least loaded at that time.
  ghost predicate IsArrivalRun(loads: map<ChannelId, nat>, picks: seq<ChannelId>)
    decreases picks
  {
    picks != [] ==> IsLeast(loads, picks[0]) && IsArrivalRun(Arrive(loads, picks[0]), picks[1..])
  }

  ghost function LoadsAfter(loads: map<ChannelId, nat>, picks: seq<ChannelId>): map<ChannelId, nat>
    requires IsArrivalRun(loads, picks)
    decreases picks
  {
    if picks == [] then loads else LoadsAfter(Arrive(loads, picks[0]), picks[1..])
  }

  lemma {:induction false} ArrivalsStayBalanced(loads: map<ChannelId, nat>, picks: seq<ChannelId>, spread: nat)
    requires IsArrivalRun(loads, picks) && Balanced(loads, spread)
    ensures Balanced(LoadsAfter(loads, picks), if spread == 0 then 1 else spread)
    decreases picks
  {
    if picks != [] {
      var next := Arrive(loads, picks[0]);
      assert Balanced(next, if spread == 0 then 1 else spread);
      ArrivalsStayBalanced(next, picks[1..], if spread == 0 then 1 else spread);
    }
  }
}
