// The heartbeat flusher: it prunes stale devices from memory and owes the
// database an offline write for each, retried until it succeeds or the device
// is seen back. Control loops write and remove heartbeats at any time between
// the flusher's own locked regions, and any database write may fail.
module Flusher {
  type Device = nat
  // Device to the time its latest heartbeat was seen.
  type Heartbeats = map<Device, int>

  // What one call of `flush_device_offline` meets: the heartbeat map at its
  // check, and whether the write would succeed.
  datatype Meeting = Meeting(heartbeats: Heartbeats, writes: bool) {
    predicate Settles(d: Device) {
      d in heartbeats || writes
    }
  }

  // What has happened to the offline state, in order.
  datatype Event = Pruned(device: Device) | SeenBack(device: Device) | WrittenOffline(device: Device)

  predicate Settled(e: Event, d: Device) {
    e == SeenBack(d) || e == WrittenOffline(d)
  }

  // Pruned, and not settled since.
  predicate Owed(history: seq<Event>, d: Device) {
    history != [] &&
    var last := history[|history| - 1];
    last == Pruned(d) || (!Settled(last, d) && Owed(history[..|history| - 1], d))
  }

  predicate NoDuplicates(q: seq<Device>) {
    forall i, j | 0 <= i < j < |q| :: q[i] != q[j]
  }

  lemma OwedAppend(history: seq<Event>, e: Event, d: Device)
    ensures Owed(history + [e], d) <==> e == Pruned(d) || (!Settled(e, d) && Owed(history, d))
  {
    assert (history + [e])[..|history|] == history;
  }

  // The i-th event prunes the device and no later one settles it.
  ghost predicate PrunedLast(history: seq<Event>, d: Device, i: nat) {
    i < |history| && history[i] == Pruned(d) && forall j | i < j < |history| :: !Settled(history[j], d)
  }

  // Owed means exactly: some prune of the device with no later settlement.
  lemma {:induction false} OwedMeaning(history: seq<Event>, d: Device)
    ensures Owed(history, d) <==> exists i: nat :: PrunedLast(history, d, i)
  {
    if history != [] {
      var n := |history| - 1;
      var front := history[..n];
      OwedMeaning(front, d);
      if history[n] == Pruned(d) {
        assert PrunedLast(history, d, n);
      } else if !Settled(history[n], d) {
        forall i: nat ensures PrunedLast(history, d, i) <==> PrunedLast(front, d, i) {
          assert i < n ==> (PrunedLast(front, d, i) <==> PrunedLast(history, d, i)) by {
            assert forall j | 0 <= j < n :: front[j] == history[j];
          }
        }
      }
    }
  }

  class Flusher {
    var heartbeats: Heartbeats
    var pendingOffline: seq<Device>
    ghost var history: seq<Event>

    // Nobody pruned is forgotten, and nobody is asked for twice.
    ghost predicate Valid()
      reads this
    {
      && NoDuplicates(pendingOffline)
      && forall d: Device :: d in pendingOffline <==> Owed(history, d)
    }

    constructor ()
      ensures Valid() && pendingOffline == [] && history == []
    {
      heartbeats := map[];
      pendingOffline := [];
      history := [];
    }

    // A device back in the heartbeat map is left alone; any other is written
    // offline. False means: try again.
    method FlushDeviceOffline(d: Device, met: Meeting) returns (settled: bool)
      modifies this`heartbeats, this`history
      ensures settled <==> d in met.heartbeats || met.writes
      ensures heartbeats == met.heartbeats && old(history) <= history
      ensures forall e: Device :: Owed(history, e) <==> Owed(old(history), e) && !(settled && e == d)
      ensures settled ==> history == old(history) + [if d in heartbeats then SeenBack(d) else WrittenOffline(d)]
    {
      heartbeats := met.heartbeats;
      var stillLive := d in heartbeats;
      settled := stillLive || met.writes;
      if settled {
        ghost var event := if stillLive then SeenBack(d) else WrittenOffline(d);
        forall e: Device ensures Owed(history + [event], e) <==> e != d && Owed(history, e) {
          OwedAppend(history, event, e);
        }
        history := history + [event];
      }
    }

    // Tries every device owed from earlier ticks once.
    method RetryPending(meetings: Device -> Meeting)
      requires Valid()
      modifies this
      ensures Valid() && old(history) <= history
      ensures forall d :: d in pendingOffline <==>
                d in old(pendingOffline) && d !in meetings(d).heartbeats && !meetings(d).writes
    {
      var retry := pendingOffline;
      pendingOffline := [];
      var i := 0;
      while i < |retry|
        invariant 0 <= i <= |retry| && retry == old(pendingOffline)
        invariant old(history) <= history
        invariant NoDuplicates(pendingOffline)
        invariant forall d :: d in pendingOffline <==> d in retry[..i] && !meetings(d).Settles(d)
        invariant forall d: Device :: Owed(history, d) <==> d in pendingOffline || d in retry[i..]
      {
        var d := retry[i];
        assert retry[..i + 1] == retry[..i] + [d] && retry[i..] == [d] + retry[i + 1..];
        assert d !in retry[i + 1..] && d !in retry[..i];
        var settled := FlushDeviceOffline(d, meetings(d));
        if !settled {
          pendingOffline := pendingOffline + [d];
        }
        i := i + 1;
      }
      assert retry[..i] == retry && retry[i..] == [];
    }

    // Drops stale entries from memory; from here on each is owed its write.
    method Prune(now: int, staleAfter: int) returns (stale: set<Device>)
      modifies this`heartbeats, this`history
      ensures forall d :: d in stale <==> d in old(heartbeats) && now - old(heartbeats)[d] > staleAfter
      ensures heartbeats == old(heartbeats) - stale && old(history) <= history
      ensures forall d: Device :: Owed(history, d) <==> Owed(old(history), d) || d in stale
    {
      stale := Stale(heartbeats, now, staleAfter);
      heartbeats := heartbeats - stale;
      ghost var rest := stale;
      while rest != {}
        invariant rest <= stale && old(history) <= history
        invariant forall d: Device :: Owed(history, d) <==> Owed(old(history), d) || d in stale - rest
        decreases rest
      {
        ghost var d :| d in rest;
        forall e: Device ensures Owed(history + [Pruned(d)], e) <==> e == d || Owed(history, e) {
          OwedAppend(history, Pruned(d), e);
        }
        history := history + [Pruned(d)];
        rest := rest - {d};
      }
    }

    // First attempt for the devices pruned in this tick, in any order. One that
    // is still pending from before is not asked for again.
    method FlushStale(stale: set<Device>, meetings: Device -> Meeting)
      requires NoDuplicates(pendingOffline)
      requires forall d: Device :: Owed(history, d) <==> d in pendingOffline || d in stale
      modifies this
      ensures Valid() && old(history) <= history
      ensures forall d :: d in pendingOffline <==>
                d in old(pendingOffline) || (d in stale && d !in meetings(d).heartbeats && !meetings(d).writes)
    {
      var rest := stale;
      while rest != {}
        invariant rest <= stale && old(history) <= history
        invariant NoDuplicates(pendingOffline)
        invariant forall d :: d in pendingOffline <==>
                    d in old(pendingOffline) || (d in stale - rest && !meetings(d).Settles(d))
        invariant forall d: Device :: Owed(history, d) <==> d in pendingOffline || d in rest
        decreases rest
      {
        var d :| d in rest;
        rest := rest - {d};
        if d in pendingOffline {
          continue;
        }
        var settled := FlushDeviceOffline(d, meetings(d));
        if !settled {
          pendingOffline := pendingOffline + [d];
        }
      }
    }

    // One tick: retries first, then the prune of what the map holds by then,
    // then the newly pruned devices.
    method Tick(now: int, staleAfter: int, retries: Device -> Meeting, atPrune: Heartbeats, flushes: Device -> Meeting)
      requires Valid()
      modifies this
      ensures Valid() && old(history) <= history
      ensures forall d :: d in pendingOffline <==>
                || (d in old(pendingOffline) && d !in retries(d).heartbeats && !retries(d).writes)
                || (d in atPrune && now - atPrune[d] > staleAfter && d !in flushes(d).heartbeats && !flushes(d).writes)
    {
      RetryPending(retries);
      heartbeats := atPrune;
      var stale := Prune(now, staleAfter);
      FlushStale(stale, flushes);
    }
  }

  function Stale(heartbeats: Heartbeats, now: int, staleAfter: int): set<Device> {
    set d | d in heartbeats && now - heartbeats[d] > staleAfter
  }
}
