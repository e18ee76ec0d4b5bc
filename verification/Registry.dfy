// The server's data-plane maps as values: live TCP streams and UDP sessions,
// and the two indexes kept beside them (load per data channel, UDP peer to
// stream id). Every function here is the effect of one lock-held region.
module Registry {
  import opened Wrappers

  type Uuid = nat
  type StreamId = nat
  type ChannelId = nat
  // A public client's socket address.
  type Peer = nat
  // Loads are counted per (device, data channel).
  type Key = (Uuid, ChannelId)

  datatype StreamEntry = StreamEntry(deviceId: Uuid, tunnelId: Uuid, dataChannel: ChannelId) {
    function Place(): Key {
      (deviceId, dataChannel)
    }
  }

  datatype UdpSession = UdpSession(
    deviceId: Uuid, connectionId: Uuid, tunnelId: Uuid, dataChannel: ChannelId, peer: Peer) {
    function Place(): Key {
      (deviceId, dataChannel)
    }
  }

  type Streams = map<StreamId, StreamEntry>
  type UdpSessions = map<StreamId, UdpSession>
  type Loads = map<Key, nat>
  type PeerIndex = map<Uuid, map<Peer, StreamId>>

  function Load(loads: Loads, k: Key): nat {
    if k in loads then loads[k] else 0
  }

  function Incremented(loads: Loads, k: Key): Loads {
    loads[k := Load(loads, k) + 1]
  }

  // The counter saturates at zero, like the source's `saturating_sub`.
  function Decremented(loads: Loads, k: Key): Loads {
    loads[k := if Load(loads, k) == 0 then 0 else Load(loads, k) - 1]
  }

  function PeersOf(peers: PeerIndex, t: Uuid): map<Peer, StreamId> {
    if t in peers then peers[t] else map[]
  }

  function Lookup(peers: PeerIndex, t: Uuid, p: Peer): Option<StreamId> {
    if p in PeersOf(peers, t) then Some(PeersOf(peers, t)[p]) else None
  }

  function Indexed(peers: PeerIndex, t: Uuid, p: Peer, id: StreamId): PeerIndex {
    peers[t := PeersOf(peers, t)[p := id]]
  }

  // Drops one peer, and the tunnel's inner map once it is empty.
  function Unindexed(peers: PeerIndex, t: Uuid, p: Peer): PeerIndex {
    if t !in peers then peers
    else if peers[t] - {p} == map[] then peers - {t}
    else peers[t := peers[t] - {p}]
  }

  ghost predicate NoEmptyInner(peers: PeerIndex) {
    forall t | t in peers :: peers[t] != map[]
  }

  // The scans the two indexes replace.
  function StreamsOn(streams: Streams, k: Key): set<StreamId> {
    set id | id in streams && streams[id].Place() == k
  }

  function UdpOn(sessions: UdpSessions, k: Key): set<StreamId> {
    set id | id in sessions && sessions[id].Place() == k
  }

  function ActiveStreams(streams: Streams, d: Uuid, t: Uuid): set<StreamId> {
    set id | id in streams && streams[id].deviceId == d && streams[id].tunnelId == t
  }

  function SessionsOf(sessions: UdpSessions, t: Uuid): set<StreamId> {
    set id | id in sessions && sessions[id].tunnelId == t
  }

  lemma UnindexedLookup(peers: PeerIndex, t: Uuid, p: Peer, u: Uuid, q: Peer)
    ensures Lookup(Unindexed(peers, t, p), u, q) == if u == t && q == p then None else Lookup(peers, u, q)
  {
    if t in peers && u == t && q != p && q in peers[t] {
      assert q in peers[t] - {p};
      assert peers[t] - {p} != map[];
    }
  }

  lemma {:induction false} ValuesNoMoreThanKeys<K, V>(m: map<K, V>)
    ensures |m.Values| <= |m|
    decreases m.Keys
  {
    if m == map[] {
      assert m.Values == {};
    } else {
      var k :| k in m;
      var rest := m - {k};
      ValuesNoMoreThanKeys(rest);
      forall v | v in m.Values ensures v in rest.Values + {m[k]} {
        var j :| j in m && m[j] == v;
        assert j == k || (j in rest && rest[j] == v);
      }
      SubsetSize(m.Values, rest.Values + {m[k]});
      assert |rest| == |m| - 1 by {
        assert rest.Keys == m.Keys - {k};
        assert |rest.Keys| == |rest| && |m.Keys| == |m|;
      }
    }
  }

  lemma {:induction false} SubsetSize<T>(a: set<T>, b: set<T>)
    requires a <= b
    ensures |a| <= |b|
  {
    assert b == a + (b - a);
  }
}
