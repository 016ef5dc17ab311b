/** The snapshot diff: compares the stored list of tracking-info blocks with a freshly
    fetched one and reports the blocks and events that are new, or "no change". */
module DiffEngine {
  import opened Parcels

  /** The message published to the notification consumer. The diff leaves the three
      identity fields blank; the reconciliation fills them in. */
  datatype TrackingUpdate = TrackingUpdate(
    trackingNumber: string,
    userId: int,
    displayName: string,
    newTrackingInfos: seq<TrackingInfo>,
    newTrackingEvents: seq<TrackingEvent>,
    trackingError: Option<FetchError>)

  /** An update as the diff builds it: identity fields at their zero values, no error. */
  function Blank(infos: seq<TrackingInfo>, events: seq<TrackingEvent>): TrackingUpdate
  {
    TrackingUpdate("", 0, "", infos, events, None)
  }

  /** Event identity: the same status at the same time. The description plays no part. */
  predicate SameEvent(a: TrackingEvent, b: TrackingEvent)
  {
    a.status == b.status && a.time == b.time
  }

  /** Some event of `events` is the same event as `e`. */
  predicate HasEvent(events: seq<TrackingEvent>, e: TrackingEvent)
  {
    exists i :: 0 <= i < |events| && SameEvent(events[i], e)
  }

  /** Some block of `infos` comes from provider `apiName`. */
  predicate HasApiName(infos: seq<TrackingInfo>, apiName: string)
  {
    exists i :: 0 <= i < |infos| && infos[i].apiName == apiName
  }

  /** Index of the first block of `infos` named `apiName`, or |infos| when there is none. */
  function FirstMatch(infos: seq<TrackingInfo>, apiName: string): (i: nat)
    ensures i <= |infos|
    ensures i < |infos| ==> infos[i].apiName == apiName
    ensures forall j :: 0 <= j < i ==> infos[j].apiName != apiName
  {
    if infos == [] then 0
    else if infos[0].apiName == apiName then 0
    else 1 + FirstMatch(infos[1..], apiName)
  }

  /** The fetched events that no stored event matches, in fetched order. */
  function NewEvents(fetched: seq<TrackingEvent>, stored: seq<TrackingEvent>): (r: seq<TrackingEvent>)
    ensures |r| <= |fetched|
    ensures forall e :: e in r ==> e in fetched && !HasEvent(stored, e)
  {
    if fetched == [] then []
    else
      var earlier := NewEvents(fetched[..|fetched| - 1], stored);
      var e := fetched[|fetched| - 1];
      if HasEvent(stored, e) then earlier else earlier + [e]
  }

  /** What the diff collects: new blocks and new events. */
  datatype Delta = Delta(infos: seq<TrackingInfo>, events: seq<TrackingEvent>)
  {
    function Then(other: Delta): Delta
    {
      Delta(infos + other.infos, events + other.events)
    }
  }

  /** The contribution of one fetched block, judged against the first stored block
      with the same provider name. */
  function BlockDelta(stored: seq<TrackingInfo>, block: TrackingInfo): Delta
  {
    var i := FirstMatch(stored, block.apiName);
    if i == |stored| then Delta([block], [])
    else if |block.events| == |stored[i].events| then Delta([], [])
    else Delta([], NewEvents(block.events, stored[i].events))
  }

  /** The contributions of all fetched blocks, in fetched order. */
  function Collect(stored: seq<TrackingInfo>, fetched: seq<TrackingInfo>): (d: Delta)
    ensures |d.infos| <= |fetched|
  {
    if fetched == [] then Delta([], [])
    else Collect(stored, fetched[..|fetched| - 1]).Then(BlockDelta(stored, fetched[|fetched| - 1]))
  }

  /** The diff: None means "nothing new". */
  function Diff(existing: seq<TrackingInfo>, fetched: seq<TrackingInfo>): (r: Option<TrackingUpdate>)
    ensures existing == [] ==> r == Some(Blank(fetched, []))
    ensures r.Some? && existing != [] ==>
      r.value.newTrackingInfos != [] || r.value.newTrackingEvents != []
    ensures r.Some? ==>
      && r.value.trackingError.None?
      && r.value.trackingNumber == "" && r.value.userId == 0 && r.value.displayName == ""
  {
    if |existing| == 0 then Some(Blank(fetched, []))
    else
      var d := Collect(existing, fetched);
      if d.infos == [] && d.events == [] then None else Some(Blank(d.infos, d.events))
  }

  /** The innermost loop of the diff: is `ev` among the stored events? */
  method FindEvent(stored: seq<TrackingEvent>, ev: TrackingEvent) returns (found: bool)
    ensures found <==> HasEvent(stored, ev)
  {
    found := false;
    for n := 0 to |stored|
      invariant !found
      invariant forall p :: 0 <= p < n ==> !SameEvent(stored[p], ev)
    {
      if ev.status == stored[n].status && ev.time == stored[n].time {
        found := true;
        break;
      }
    }
  }

  /** The loop over the events of a fetched block whose event count changed: every
      fetched event with no stored match is appended, in fetched order. */
  method CollectNewEvents(fetched: seq<TrackingEvent>, stored: seq<TrackingEvent>)
    returns (r: seq<TrackingEvent>)
    ensures r == NewEvents(fetched, stored)
  {
    r := [];
    for m := 0 to |fetched|
      invariant r == NewEvents(fetched[..m], stored)
    {
      assert fetched[..m + 1][..m] == fetched[..m];
      var found := FindEvent(stored, fetched[m]);
      if !found {
        r := r + [fetched[m]];
      }
    }
    assert fetched[..|fetched|] == fetched;
  }

  /** The diff as the source computes it: a loop over the fetched blocks, a search for
      the first stored block with the same name, and a jump to the next fetched block
      once that stored block has been handled. */
  method GetTrackingUpdate(existing: seq<TrackingInfo>, fetched: seq<TrackingInfo>)
    returns (r: Option<TrackingUpdate>)
    ensures r == Diff(existing, fetched)
  {
    if |existing| == 0 {
      return Some(Blank(fetched, []));
    }
    var newInfos: seq<TrackingInfo> := [];
    var newEvents: seq<TrackingEvent> := [];
    for i := 0 to |fetched|
      invariant Delta(newInfos, newEvents) == Collect(existing, fetched[..i])
    {
      var f := fetched[i];
      assert fetched[..i + 1][..i] == fetched[..i];
      ghost var before := Delta(newInfos, newEvents);
      label nextFetched: {
        for j := 0 to |existing|
          invariant forall k :: 0 <= k < j ==> existing[k].apiName != f.apiName
          invariant newInfos == before.infos && newEvents == before.events
        {
          var e := existing[j];
          if f.apiName != e.apiName {
            continue;
          }
          assert FirstMatch(existing, f.apiName) == j;
          if |f.events| == |e.events| {
            assert BlockDelta(existing, f) == Delta([], []);
            break nextFetched;
          }
          var added := CollectNewEvents(f.events, e.events);
          newEvents := newEvents + added;
          assert BlockDelta(existing, f) == Delta([], added);
          break nextFetched;
        }
        assert FirstMatch(existing, f.apiName) == |existing|;
        newInfos := newInfos + [f];
      }
    }
    assert fetched[..|fetched|] == fetched;
    if |newInfos| == 0 && |newEvents| == 0 {
      return None;
    }
    return Some(Blank(newInfos, newEvents));
  }

  // ---------------------------------------------------------------------------
  // Properties of the diff

  /** Collecting new events distributes over concatenation of the fetched events:
      together with the one-event case this says the result is the fetched events,
      in fetched order, with the already-known ones dropped. */
  lemma {:induction false} NewEventsAppend(a: seq<TrackingEvent>, b: seq<TrackingEvent>, stored: seq<TrackingEvent>)
    ensures NewEvents(a + b, stored) == NewEvents(a, stored) + NewEvents(b, stored)
    decreases |b|
  {
    if b == [] {
      assert a + b == a;
    } else {
      var init := b[..|b| - 1];
      assert (a + b)[..|a + b| - 1] == a + init;
      assert (a + b)[|a + b| - 1] == b[|b| - 1];
      NewEventsAppend(a, init, stored);
    }
  }

  /** A fetched event is reported exactly when no stored event has its status and time. */
  lemma {:induction false} NewEventsReportedIff(fetched: seq<TrackingEvent>, stored: seq<TrackingEvent>, e: TrackingEvent)
    ensures e in NewEvents(fetched, stored) <==> e in fetched && !HasEvent(stored, e)
    decreases |fetched|
  {
    if fetched != [] {
      var init := fetched[..|fetched| - 1];
      assert fetched == init + [fetched[|fetched| - 1]];
      NewEventsReportedIff(init, stored, e);
    }
  }

  /** Stored events that differ only in their descriptions lead to the same new events. */
  lemma {:induction false} NewEventsIgnoreDescriptions(fetched: seq<TrackingEvent>, stored: seq<TrackingEvent>, stored': seq<TrackingEvent>)
    requires |stored| == |stored'|
    requires forall i :: 0 <= i < |stored| ==> stored[i].status == stored'[i].status && stored[i].time == stored'[i].time
    ensures NewEvents(fetched, stored) == NewEvents(fetched, stored')
    decreases |fetched|
  {
    if fetched != [] {
      var e := fetched[|fetched| - 1];
      if HasEvent(stored, e) {
        var i :| 0 <= i < |stored| && SameEvent(stored[i], e);
        assert SameEvent(stored'[i], e);
      }
      if HasEvent(stored', e) {
        var i :| 0 <= i < |stored'| && SameEvent(stored'[i], e);
        assert SameEvent(stored[i], e);
      }
      NewEventsIgnoreDescriptions(fetched[..|fetched| - 1], stored, stored');
    }
  }

  /** The diff handles the fetched blocks one after the other: the result for a
      concatenation is the results for the parts, one after the other. */
  lemma {:induction false} CollectAppend(stored: seq<TrackingInfo>, a: seq<TrackingInfo>, b: seq<TrackingInfo>)
    ensures Collect(stored, a + b) == Collect(stored, a).Then(Collect(stored, b))
    decreases |b|
  {
    if b == [] {
      assert a + b == a;
    } else {
      var init := b[..|b| - 1];
      assert (a + b)[..|a + b| - 1] == a + init;
      assert (a + b)[|a + b| - 1] == b[|b| - 1];
      CollectAppend(stored, a, init);
    }
  }

  /** Reference definition: the fetched blocks whose provider name no stored block carries,
      in fetched order. */
  function UnmatchedInfos(stored: seq<TrackingInfo>, fetched: seq<TrackingInfo>): (r: seq<TrackingInfo>)
    ensures forall b :: b in r <==> b in fetched && !HasApiName(stored, b.apiName)
  {
    if fetched == [] then []
    else if HasApiName(stored, fetched[0].apiName) then UnmatchedInfos(stored, fetched[1..])
    else [fetched[0]] + UnmatchedInfos(stored, fetched[1..])
  }

  /** The new blocks of the diff are exactly the fetched blocks from providers that the
      stored snapshot does not know, whole and in fetched order. */
  lemma {:induction false} CollectInfosAreUnmatched(stored: seq<TrackingInfo>, fetched: seq<TrackingInfo>)
    ensures Collect(stored, fetched).infos == UnmatchedInfos(stored, fetched)
    decreases |fetched|
  {
    if fetched != [] {
      assert fetched == [fetched[0]] + fetched[1..];
      CollectAppend(stored, [fetched[0]], fetched[1..]);
      assert Collect(stored, [fetched[0]]) == BlockDelta(stored, fetched[0]);
      CollectInfosAreUnmatched(stored, fetched[1..]);
    }
  }

  /** The event-level rule for one fetched block: its first stored namesake exists, has a
      different number of events, and none of its events has the status and time of `e`. */
  predicate ReportsEvent(stored: seq<TrackingInfo>, block: TrackingInfo, e: TrackingEvent)
  {
    var i := FirstMatch(stored, block.apiName);
    i < |stored| && |block.events| != |stored[i].events|
    && e in block.events && !HasEvent(stored[i].events, e)
  }

  /** An event is among the new events of the diff exactly when some fetched block reports it. */
  lemma {:induction false} CollectEventsIff(stored: seq<TrackingInfo>, fetched: seq<TrackingInfo>, e: TrackingEvent)
    ensures e in Collect(stored, fetched).events <==>
      exists k :: 0 <= k < |fetched| && ReportsEvent(stored, fetched[k], e)
    decreases |fetched|
  {
    if fetched != [] {
      var n := |fetched| - 1;
      var init := fetched[..n];
      var b := fetched[n];
      CollectEventsIff(stored, init, e);
      assert Collect(stored, fetched) == Collect(stored, init).Then(BlockDelta(stored, b));
      var i := FirstMatch(stored, b.apiName);
      assert e in BlockDelta(stored, b).events <==> ReportsEvent(stored, b, e) by {
        if i < |stored| && |b.events| != |stored[i].events| {
          NewEventsReportedIff(b.events, stored[i].events, e);
        }
      }
      if e in Collect(stored, fetched).events {
        if e in Collect(stored, init).events {
          var k :| 0 <= k < |init| && ReportsEvent(stored, init[k], e);
          assert fetched[k] == init[k];
        } else {
          assert ReportsEvent(stored, fetched[n], e);
        }
      } else {
        forall k | 0 <= k < |fetched|
          ensures !ReportsEvent(stored, fetched[k], e)
        {
          if k < n {
            assert fetched[k] == init[k];
          }
        }
      }
    }
  }

  /** Against a non-empty stored snapshot, a non-nil diff carries as new blocks exactly
      the fetched blocks of unknown providers, whole and in fetched order, and as new
      events exactly the events some fetched block reports. */
  lemma DiffContents(existing: seq<TrackingInfo>, fetched: seq<TrackingInfo>, e: TrackingEvent)
    requires existing != []
    requires Diff(existing, fetched).Some?
    ensures Diff(existing, fetched).value.newTrackingInfos == UnmatchedInfos(existing, fetched)
    ensures e in Diff(existing, fetched).value.newTrackingEvents <==>
      exists k :: 0 <= k < |fetched| && ReportsEvent(existing, fetched[k], e)
  {
    CollectInfosAreUnmatched(existing, fetched);
    CollectEventsIff(existing, fetched, e);
  }

  /** A fetched block whose first stored namesake has the same number of events adds
      nothing to the diff, whatever its events say. */
  lemma SameCountBlockIgnored(stored: seq<TrackingInfo>, a: seq<TrackingInfo>, block: TrackingInfo, b: seq<TrackingInfo>)
    requires FirstMatch(stored, block.apiName) < |stored|
    requires |block.events| == |stored[FirstMatch(stored, block.apiName)].events|
    ensures Diff(stored, a + [block] + b) == Diff(stored, a + b)
  {
    CollectAppend(stored, a, [block]);
    CollectAppend(stored, a + [block], b);
    CollectAppend(stored, a, b);
    assert Collect(stored, [block]) == BlockDelta(stored, block) == Delta([], []);
    assert Collect(stored, a + [block]) == Collect(stored, a);
  }

  /** A block the diff leaves alone: its provider is known and either its event count is
      unchanged or each of its events is already known to the first stored namesake. */
  predicate Settled(stored: seq<TrackingInfo>, block: TrackingInfo)
  {
    var i := FirstMatch(stored, block.apiName);
    i < |stored|
    && (|block.events| == |stored[i].events|
        || forall e :: e in block.events ==> HasEvent(stored[i].events, e))
  }

  /** The diff is "no change" exactly when the stored snapshot is not empty and every
      fetched block is settled. */
  lemma DiffNoneIff(existing: seq<TrackingInfo>, fetched: seq<TrackingInfo>)
    ensures Diff(existing, fetched).None? <==>
      existing != [] && forall k :: 0 <= k < |fetched| ==> Settled(existing, fetched[k])
  {
    if existing != [] {
      var d := Collect(existing, fetched);
      CollectInfosAreUnmatched(existing, fetched);
      if d.infos == [] && d.events == [] {
        forall k | 0 <= k < |fetched|
          ensures Settled(existing, fetched[k])
        {
          var b := fetched[k];
          var i := FirstMatch(existing, b.apiName);
          assert b !in UnmatchedInfos(existing, fetched);
          assert HasApiName(existing, b.apiName);
          if |b.events| != |existing[i].events| {
            forall e | e in b.events
              ensures HasEvent(existing[i].events, e)
            {
              CollectEventsIff(existing, fetched, e);
            }
          }
        }
      } else if d.infos != [] {
        var b := d.infos[0];
        var k :| 0 <= k < |fetched| && fetched[k] == b;
        assert !Settled(existing, fetched[k]);
      } else {
        var e := d.events[0];
        CollectEventsIff(existing, fetched, e);
        var k :| 0 <= k < |fetched| && ReportsEvent(existing, fetched[k], e);
        assert !Settled(existing, fetched[k]);
      }
    }
  }

  /** No two blocks of the snapshot come from the same provider. */
  predicate DistinctApiNames(infos: seq<TrackingInfo>)
  {
    forall i, j :: 0 <= i < j < |infos| ==> infos[i].apiName != infos[j].apiName
  }

  /** Fetching again exactly what is stored is "no change", provided the stored snapshot
      is not empty and names each provider once. */
  lemma IdenticalSnapshotNoChange(infos: seq<TrackingInfo>)
    requires infos != [] && DistinctApiNames(infos)
    ensures Diff(infos, infos).None?
  {
    forall k | 0 <= k < |infos|
      ensures Settled(infos, infos[k])
    {
      var i := FirstMatch(infos, infos[k].apiName);
      assert i == k;
    }
    DiffNoneIff(infos, infos);
  }

  /** Without distinct names the stability above fails: the second block is judged
      against the first block of the same name, and its extra event is reported again. */
  lemma RepeatedApiNameNotStable(e1: TrackingEvent, e2: TrackingEvent)
    requires !SameEvent(e1, e2)
    ensures var infos := [TrackingInfo("post", [e1]), TrackingInfo("post", [e1, e2])];
      Diff(infos, infos) == Some(Blank([], [e2]))
  {
    var infos := [TrackingInfo("post", [e1]), TrackingInfo("post", [e1, e2])];
    assert FirstMatch(infos, "post") == 0;
    assert infos[..1] == [infos[0]];
    assert [infos[0]][..0] == [];
    assert BlockDelta(infos, infos[0]) == Delta([], []);
    assert Collect(infos, infos[..1]) == Delta([], []);
    assert [e1, e2][..1] == [e1];
    assert [e1][..0] == [];
    assert HasEvent([e1], e1) by { assert SameEvent([e1][0], e1); }
    assert !HasEvent([e1], e2);
    assert NewEvents([e1], [e1]) == [];
    assert NewEvents([e1, e2], [e1]) == [e2];
    assert BlockDelta(infos, infos[1]) == Delta([], [e2]);
  }
}
