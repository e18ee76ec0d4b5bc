// What the registry's locked regions achieve when they run one after the other:
// who is admitted, what an insert brings and that its removal takes back exactly
// that.
module RegistryRuns {
  import opened Wrappers
  import opened Registry
  import opened RegistryMachine

  // The two states tell the same to every reader of the maps.
  ghost predicate SameMaps(m: Machine, m': Machine) {
    && m'.streams == m.streams && m'.udpSessions == m.udpSessions && m'.flights == m.flights
    && (forall k: Key :: Load(m'.loads, k) == Load(m.loads, k))
    && (forall t: Uuid, p: Peer :: Lookup(m'.peers, t, p) == Lookup(m.peers, t, p))
  }

  lemma RunFirst(m: Machine, a: Step, rest: seq<Step>)
    requires Enabled(m, a) && IsRun(Apply(m, a), rest)
    ensures IsRun(m, [a] + rest) && After(m, [a] + rest) == After(Apply(m, a), rest)
  {
    assert ([a] + rest)[0] == a && ([a] + rest)[1..] == rest;
  }

  lemma RunThree(m: Machine, a: Step, b: Step, c: Step)
    requires Enabled(m, a) && Enabled(Apply(m, a), b) && Enabled(Apply(Apply(m, a), b), c)
    ensures IsRun(m, [a, b, c]) && After(m, [a, b, c]) == Apply(Apply(Apply(m, a), b), c)
  {
    var m1 := Apply(m, a);
    var m2 := Apply(m1, b);
    RunFirst(m2, c, []);
    RunFirst(m1, b, [c]);
    RunFirst(m, a, [b, c]);
    assert [c] + [] == [c] && [b] + [c] == [b, c] && [a] + [b, c] == [a, b, c];
  }

  // ---- TCP streams -----------------------------------------------------------------

  // A stream is admitted if and only if its tunnel has fewer streams than its
  // limit; then it is registered as asked and its channel carries one more, and
  // otherwise nothing changes.
  lemma RegisterAdmitsIff(m: Machine, id: StreamId, e: StreamEntry)
    requires OneStage(m) && id !in m.drawn
    ensures var m' := Apply(m, OnStream(id, TryRegister(e)));
            var others := set r | r in m.streams && m.streams[r].deviceId == e.deviceId && m.streams[r].tunnelId == e.tunnelId;
            && (id in m'.streams <==> |others| < Limit(m, e.tunnelId))
            && m'.streams == (if id in m'.streams then m.streams[id := e] else m.streams)
            && (forall k: Key :: Load(m'.loads, k) ==
                  Load(m.loads, k) + if id in m'.streams && k == (e.deviceId, e.dataChannel) then 1 else 0)
            && id in m'.drawn && m'.flights == m.flights
  {
    var others := set r | r in m.streams && m.streams[r].deviceId == e.deviceId && m.streams[r].tunnelId == e.tunnelId;
    assert others == ActiveStreams(m.streams, e.deviceId, e.tunnelId);
  }

  // Taking a registered stream out and counting it down.
  lemma CloseAchieves(m: Machine, id: StreamId)
    requires id in m.streams && id !in m.flights
    ensures var m1 := Apply(m, OnStream(id, RemoveStream));
            && Enabled(m1, OnStream(id, DecrementStream))
            && var m2 := Apply(m1, OnStream(id, DecrementStream));
               && m2.streams == m.streams - {id} && m2.flights == m.flights
               && m2.udpSessions == m.udpSessions && m2.peers == m.peers
               && m2.loads == Decremented(m.loads, m.streams[id].Place())
  {
    var m2 := Apply(Apply(m, OnStream(id, RemoveStream)), OnStream(id, DecrementStream));
    assert m2.flights == m.flights;
  }

  // Registering and removing a stream leaves no trace.
  lemma StreamRoundTrip(m: Machine, id: StreamId, e: StreamEntry)
    requires OneStage(m) && id !in m.drawn
    requires id in Apply(m, OnStream(id, TryRegister(e))).streams
    ensures var steps := [OnStream(id, TryRegister(e)), OnStream(id, RemoveStream), OnStream(id, DecrementStream)];
            IsRun(m, steps) && SameMaps(m, After(m, steps))
  {
    var m1 := Apply(m, OnStream(id, TryRegister(e)));
    RegisterAdmitsIff(m, id, e);
    CloseAchieves(m1, id);
    assert m1.streams[id] == e && m1.streams - {id} == m.streams;
    RunThree(m, OnStream(id, TryRegister(e)), OnStream(id, RemoveStream), OnStream(id, DecrementStream));
  }

  lemma OneMoreStream(m: Machine, id: StreamId, e: StreamEntry)
    requires OneStage(m) && id !in m.drawn
    requires |ActiveStreams(m.streams, e.deviceId, e.tunnelId)| < Limit(m, e.tunnelId)
    ensures var m' := Apply(m, OnStream(id, TryRegister(e)));
            && m'.limits == m.limits && m'.drawn == m.drawn + {id}
            && |ActiveStreams(m'.streams, e.deviceId, e.tunnelId)| == |ActiveStreams(m.streams, e.deviceId, e.tunnelId)| + 1
  {
    ActiveAfterInsert(m.streams, id, e, e.deviceId, e.tunnelId);
  }

  // Every number of streams up to the limit is reached.
  lemma {:induction false} EveryCountReachable(limits: map<Uuid, nat>, d: Uuid, t: Uuid, n: nat) returns (m: Machine)
    requires t in limits && n <= limits[t]
    ensures Reachable(m) && m.limits == limits && |ActiveStreams(m.streams, d, t)| == n
    ensures forall id | id in m.drawn :: id < n
    decreases n
  {
    if n == 0 {
      m := Start(limits);
      assert IsRun(m, []) && After(m, []) == m;
      assert ActiveStreams(m.streams, d, t) == {};
    } else {
      var m0 := EveryCountReachable(limits, d, t, n - 1);
      ReachableInv(m0);
      OneMoreStream(m0, n - 1, StreamEntry(d, t, 1));
      ReachableExtends(m0, OnStream(n - 1, TryRegister(StreamEntry(d, t, 1))));
      m := Apply(m0, OnStream(n - 1, TryRegister(StreamEntry(d, t, 1))));
    }
  }

  // And at the limit the next one is refused.
  lemma RefusedAtLimit(limits: map<Uuid, nat>, d: Uuid, t: Uuid, c: ChannelId)
    requires t in limits
    ensures exists m, id :: Reachable(m) && |ActiveStreams(m.streams, d, t)| == limits[t] && id !in m.drawn
                            && id !in Apply(m, OnStream(id, TryRegister(StreamEntry(d, t, c)))).streams
  {
    var m := EveryCountReachable(limits, d, t, limits[t]);
    var id := limits[t];
    ReachableInv(m);
    RegisterAdmitsIff(m, id, StreamEntry(d, t, c));
    assert ActiveStreams(m.streams, d, t)
        == set r | r in m.streams && m.streams[r].deviceId == d && m.streams[r].tunnelId == t;
    assert id !in Apply(m, OnStream(id, TryRegister(StreamEntry(d, t, c)))).streams;
  }

  // ---- UDP sessions ----------------------------------------------------------------

  // A datagram's peer gets past the listener's checks if and only if it has no
  // session and its tunnel has room.
  lemma ListenerAdmitsIff(m: Machine, t: Uuid, p: Peer)
    requires ListenerOf(m, t).Idle?
    ensures var m1 := Apply(m, OnListener(t, LookPeer(p)));
            && m1 == m.(listeners := m1.listeners)
            && (ListenerOf(m1, t) == Looked(p) <==> !(t in m.peers && p in m.peers[t]))
            && (ListenerOf(m1, t) == Looked(p) ==>
                  var m2 := Apply(m1, OnListener(t, CheckLimit));
                  && m2 == m.(listeners := m2.listeners)
                  && ListenerOf(m2, t) == if |PeersOf(m.peers, t)| < Limit(m, t) then Checked(p) else Idle)
  {
  }

  function Insertion(t: Uuid, id: StreamId, s: UdpSession): seq<Step> {
    [OnListener(t, CountUdp(id, s)), OnListener(t, IndexUdp), OnListener(t, PublishUdp)]
  }

  function Removal(id: StreamId): seq<Step> {
    [OnUdp(id, RemoveUdp), OnUdp(id, DecrementUdp), OnUdp(id, UnindexUdp)]
  }

  // The session is there, its peer is found, its channel carries one more, and
  // nothing else changes.
  ghost predicate Inserted(m: Machine, m': Machine, id: StreamId, s: UdpSession) {
    && m'.udpSessions == m.udpSessions[id := s] && m'.streams == m.streams && m'.flights == m.flights
    && ListenerOf(m', s.tunnelId).Idle?
    && (forall k: Key :: Load(m'.loads, k) ==
          Load(m.loads, k) + if k == (s.deviceId, s.dataChannel) then 1 else 0)
    && (forall t: Uuid, p: Peer :: Lookup(m'.peers, t, p) ==
          if t == s.tunnelId && p == s.peer then Some(id) else Lookup(m.peers, t, p))
  }

  // The opposite.
  ghost predicate Undone(m: Machine, m': Machine, id: StreamId, s: UdpSession) {
    && m'.udpSessions == m.udpSessions - {id} && m'.streams == m.streams && m'.flights == m.flights
    && (forall k: Key :: Load(m'.loads, k) ==
          if k == (s.deviceId, s.dataChannel) && Load(m.loads, k) > 0 then Load(m.loads, k) - 1 else Load(m.loads, k))
    && (forall t: Uuid, p: Peer :: Lookup(m'.peers, t, p) ==
          if t == s.tunnelId && p == s.peer then None else Lookup(m.peers, t, p))
  }

  lemma InsertSteps(m: Machine, t: Uuid, id: StreamId, s: UdpSession)
    requires ListenEnabled(m, t, CountUdp(id, s)) && id !in m.flights
    ensures var m1 := Apply(m, OnListener(t, CountUdp(id, s)));
            && Enabled(m1, OnListener(t, IndexUdp))
            && var m2 := Apply(m1, OnListener(t, IndexUdp));
               && Enabled(m2, OnListener(t, PublishUdp))
               && var m3 := Apply(m2, OnListener(t, PublishUdp));
                  && m3.udpSessions == m.udpSessions[id := s] && m3.streams == m.streams && m3.flights == m.flights
                  && ListenerOf(m3, t).Idle?
                  && m3.loads == Incremented(m.loads, s.Place()) && m3.peers == Indexed(m.peers, t, s.peer, id)
  {
    var m1 := Apply(m, OnListener(t, CountUdp(id, s)));
    assert InsertOf(m1, t) == Some(Inserting(s, false));
    var m2 := Apply(m1, OnListener(t, IndexUdp));
    assert InsertOf(m2, t) == Some(Inserting(s, true));
    var m3 := Apply(m2, OnListener(t, PublishUdp));
    assert m3.flights == m.flights;
  }

  lemma InsertedFrom(m: Machine, m': Machine, id: StreamId, s: UdpSession)
    requires m'.udpSessions == m.udpSessions[id := s] && m'.streams == m.streams && m'.flights == m.flights
    requires ListenerOf(m', s.tunnelId).Idle?
    requires m'.loads == Incremented(m.loads, s.Place()) && m'.peers == Indexed(m.peers, s.tunnelId, s.peer, id)
    ensures Inserted(m, m', id, s)
  {
  }

  lemma InsertAchieves(m: Machine, t: Uuid, id: StreamId, s: UdpSession)
    requires ListenEnabled(m, t, CountUdp(id, s)) && id !in m.flights
    ensures IsRun(m, Insertion(t, id, s)) && Inserted(m, After(m, Insertion(t, id, s)), id, s)
  {
    var a, b, c := OnListener(t, CountUdp(id, s)), OnListener(t, IndexUdp), OnListener(t, PublishUdp);
    InsertSteps(m, t, id, s);
    RunThree(m, a, b, c);
    InsertedFrom(m, Apply(Apply(Apply(m, a), b), c), id, s);
  }

  lemma RemoveSteps(m: Machine, id: StreamId)
    requires id in m.udpSessions && id !in m.flights
    ensures var s, m1 := m.udpSessions[id], Apply(m, OnUdp(id, RemoveUdp));
            && Enabled(m1, OnUdp(id, DecrementUdp))
            && var m2 := Apply(m1, OnUdp(id, DecrementUdp));
               && Enabled(m2, OnUdp(id, UnindexUdp))
               && var m3 := Apply(m2, OnUdp(id, UnindexUdp));
                  && m3.udpSessions == m.udpSessions - {id} && m3.streams == m.streams && m3.flights == m.flights
                  && m3.loads == Decremented(m.loads, s.Place()) && m3.peers == Unindexed(m.peers, s.tunnelId, s.peer)
  {
    var m2 := Apply(Apply(m, OnUdp(id, RemoveUdp)), OnUdp(id, DecrementUdp));
    var m3 := Apply(m2, OnUdp(id, UnindexUdp));
    assert m3.flights == m.flights;
  }

  lemma RemovalAchieves(m: Machine, id: StreamId)
    requires id in m.udpSessions && id !in m.flights
    ensures IsRun(m, Removal(id)) && Undone(m, After(m, Removal(id)), id, m.udpSessions[id])
  {
    var s := m.udpSessions[id];
    RemoveSteps(m, id);
    RunThree(m, OnUdp(id, RemoveUdp), OnUdp(id, DecrementUdp), OnUdp(id, UnindexUdp));
    forall t: Uuid, p: Peer
      ensures Lookup(Unindexed(m.peers, s.tunnelId, s.peer), t, p) ==
              if t == s.tunnelId && p == s.peer then None else Lookup(m.peers, t, p) {
      UnindexedLookup(m.peers, s.tunnelId, s.peer, t, p);
    }
  }

  lemma InsertedThenUndone(m: Machine, m1: Machine, m2: Machine, id: StreamId, s: UdpSession)
    requires Inserted(m, m1, id, s) && Undone(m1, m2, id, s)
    requires id !in m.udpSessions && Lookup(m.peers, s.tunnelId, s.peer) == None
    ensures SameMaps(m, m2)
  {
    assert m.udpSessions[id := s] - {id} == m.udpSessions;
  }

  // A session that came and went leaves no trace.
  lemma SessionRoundTrip(m: Machine, t: Uuid, id: StreamId, s: UdpSession)
    requires OneStage(m) && ListenersExact(m) && ListenEnabled(m, t, CountUdp(id, s))
    ensures IsRun(m, Insertion(t, id, s))
    ensures var m1 := After(m, Insertion(t, id, s)); IsRun(m1, Removal(id)) && SameMaps(m, After(m1, Removal(id)))
  {
    assert ListenerExact(m, t, ListenerOf(m, t));
    InsertAchieves(m, t, id, s);
    var m1 := After(m, Insertion(t, id, s));
    RemovalAchieves(m1, id);
    InsertedThenUndone(m, m1, After(m1, Removal(id)), id, s);
  }
}
