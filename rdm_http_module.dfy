/** The stateful part of the HTTP-to-RDM gateway: the map from universe id to
    its UID resolution state, the reconciliation of a fresh UID list, the
    single-flight scheduler that resolves the labels of new UIDs in the
    background, its two continuations, and the pruning of the universe list.

    The RDM API is not part of this model. A submission is answered at once
    with "accepted" or "rejected", which the model leaves open (the
    scheduler's `Attempt`s report each answer); an accepted submission is
    later completed by the environment calling the matching continuation
    method. The ghost multiset `awaiting` counts, per universe id, the accepted
    background submissions whose continuation has not run yet. */
module Gateway {
  import opened Support
  import opened Rdm
  import opened Replies
  import opened ResponseCheck
  import opened UidRegistry

  function SentFor(universe: nat, attempts: seq<Attempt>): multiset<nat> {
    if SentRequest(attempts) then multiset{universe} else multiset{}
  }

  /** Single flight over a registry and its in-flight counts: at most one
      background label request per universe id is in flight, and a tracked
      universe's scheduler is marked running exactly when one is. */
  ghost predicate SingleFlightOf(universes: map<nat, UniverseState>, awaiting: multiset<nat>) {
    && (forall u :: awaiting[u] <= 1)
    && (forall u :: u in universes ==> (universes[u].uidResolutionRunning <==> awaiting[u] == 1))
  }

  /** Single flight everywhere but at `universe`, which has nothing in flight. */
  ghost predicate IdleExcept(universes: map<nat, UniverseState>, awaiting: multiset<nat>, universe: nat) {
    && awaiting[universe] == 0
    && (forall u :: u != universe ==> awaiting[u] <= 1)
    && (forall u :: u in universes && u != universe ==>
          (universes[u].uidResolutionRunning <==> awaiting[u] == 1))
  }

  /** Completing the one request in flight for `universe` leaves it idle. */
  lemma CompletionReleases(universes: map<nat, UniverseState>, awaiting: multiset<nat>, universe: nat)
    requires SingleFlightOf(universes, awaiting) && universe in awaiting
    ensures IdleExcept(universes, awaiting - multiset{universe}, universe)
    ensures universe !in universes ==> SingleFlightOf(universes, awaiting - multiset{universe})
  {
    var after := awaiting - multiset{universe};
    assert awaiting[universe] == 1;
    forall u | u != universe ensures after[u] == awaiting[u] { }
  }

  /** An idle tracked universe, or an untracked one with nothing in flight,
      is idle in the sense of `IdleExcept`. */
  lemma IdleStart(universes: map<nat, UniverseState>, awaiting: multiset<nat>, universe: nat)
    requires SingleFlightOf(universes, awaiting)
    requires universe in universes ==> !universes[universe].uidResolutionRunning
    requires universe !in universes ==> awaiting[universe] == 0
    ensures IdleExcept(universes, awaiting, universe)
  {
  }

  /** Replacing a universe's state by one with the same running flag keeps
      single flight. */
  lemma SingleFlightSameFlag(universes: map<nat, UniverseState>, awaiting: multiset<nat>, universe: nat,
                             st: UniverseState)
    requires SingleFlightOf(universes, awaiting)
    requires st.uidResolutionRunning <==> awaiting[universe] == 1
    ensures SingleFlightOf(universes[universe := st], awaiting)
  {
  }

  /** A drain started with nothing in flight for its universe keeps single
      flight: it leaves at most one request in flight, and the running flag
      says whether it did. */
  lemma SingleFlightAfterDrain(universes: map<nat, UniverseState>, awaiting: multiset<nat>, universe: nat,
                               st: UniverseState, attempts: seq<Attempt>)
    requires IdleExcept(universes, awaiting, universe)
    requires |attempts| <= |st.pendingUids|
    ensures SingleFlightOf(universes[universe := Drained(st, attempts)], awaiting + SentFor(universe, attempts))
  {
    var after := awaiting + SentFor(universe, attempts);
    assert after[universe] == if SentRequest(attempts) then 1 else 0;
    forall u | u != universe ensures after[u] == awaiting[u] { }
  }

  /** Marks every entry of a UID map inactive. */
  method MarkInactive(known: map<Uid, ResolvedUid>) returns (marked: map<Uid, ResolvedUid>)
    ensures marked.Keys == known.Keys
    ensures forall u :: u in marked ==> marked[u] == known[u].(active := false)
  {
    marked := known;
    var todo := known.Keys;
    while todo != {}
      invariant todo <= known.Keys && marked.Keys == known.Keys
      invariant forall u :: u in marked ==>
                  marked[u] == if u in todo then known[u] else known[u].(active := false)
      decreases todo
    {
      var u :| u in todo;
      marked := marked[u := marked[u].(active := false)];
      todo := todo - {u};
    }
  }

  /** The registry part-way through a listing pass: the UIDs listed so far
      are active again (or new and empty), every other known one is
      inactive, and nothing else is present. */
  ghost predicate ListedSoFar(known: map<Uid, ResolvedUid>, resolved: map<Uid, ResolvedUid>, done: seq<Uid>) {
    && (forall u :: u in resolved <==> u in known || u in done)
    && forall u :: u in resolved ==>
         resolved[u] == if u in done then Reactivated(known, u) else known[u].(active := false)
  }

  /** Listing one more, not yet listed, UID: a known one is found inactive
      and reactivated; a new one is added empty and active. */
  lemma ListedSoFarStep(known: map<Uid, ResolvedUid>, resolved: map<Uid, ResolvedUid>, done: seq<Uid>, u: Uid)
    requires ListedSoFar(known, resolved, done) && u !in done
    ensures u in resolved <==> u in known
    ensures u !in resolved ==> ListedSoFar(known, resolved[u := ResolvedUid("", "", true)], done + [u])
    ensures u in resolved ==> resolved[u] == known[u].(active := false)
    ensures u in resolved ==> ListedSoFar(known, resolved[u := resolved[u].(active := true)], done + [u])
    ensures ListingRow(known, u)
         == if u in resolved then UidRow(u, resolved[u].device, resolved[u].manufacturer) else UidRow(u, "", "")
    ensures TasksFor(known, u)
         == if u in resolved then [] else [PendingUid(u, ResolveManufacturer), PendingUid(u, ResolveDevice)]
  {
  }

  /** One UID of the listing pass: a known UID is marked active again and
      listed with its labels; a new one gets an empty active entry, is
      listed without labels, and has its two resolution tasks queued. */
  method ListOne(known: map<Uid, ResolvedUid>, resolved: map<Uid, ResolvedUid>, u: Uid, ghost done: seq<Uid>)
    returns (updated: map<Uid, ResolvedUid>, tasks: seq<PendingUid>, row: UidRow)
    requires ListedSoFar(known, resolved, done) && u !in done
    ensures ListedSoFar(known, updated, done + [u])
    ensures tasks == TasksFor(known, u)
    ensures row == ListingRow(known, u)
  {
    ListedSoFarStep(known, resolved, done, u);
    if u !in resolved {
      tasks := [PendingUid(u, ResolveManufacturer), PendingUid(u, ResolveDevice)];
      updated := resolved[u := ResolvedUid("", "", true)];
      row := UidRow(u, "", "");
    } else {
      tasks := [];
      row := UidRow(u, resolved[u].device, resolved[u].manufacturer);
      updated := resolved[u := resolved[u].(active := true)];
    }
  }

  /** In an ascending list no UID occurs before its own position. */
  lemma AscendingFresh(uids: seq<Uid>, i: nat)
    requires Ascending(uids) && i < |uids|
    ensures uids[i] !in uids[..i]
  {
    forall j | 0 <= j < i ensures uids[j] != uids[i] {
      assert UidLess(uids[j], uids[i]);
    }
  }

  /** The listing pass over an ascending UID list: a known UID is marked
      active again and listed with its labels; a new one gets an empty active
      entry, is listed without labels, and has its two resolution tasks
      queued. */
  method ActivateListed(known: map<Uid, ResolvedUid>, marked: map<Uid, ResolvedUid>, uids: seq<Uid>)
    returns (resolved: map<Uid, ResolvedUid>, queued: seq<PendingUid>, rows: seq<UidRow>)
    requires Ascending(uids)
    requires marked.Keys == known.Keys
    requires forall u :: u in marked ==> marked[u] == known[u].(active := false)
    ensures forall u :: u in resolved <==> u in known || u in uids
    ensures forall u :: u in resolved ==>
              resolved[u] == if u in uids then Reactivated(known, u) else known[u].(active := false)
    ensures queued == NewTasks(known, uids)
    ensures rows == Listing(known, uids)
  {
    resolved, queued, rows := marked, [], [];
    var i := 0;
    while i < |uids|
      invariant 0 <= i <= |uids|
      invariant ListedSoFar(known, resolved, uids[..i])
      invariant queued == NewTasks(known, uids[..i])
      invariant rows == Listing(known, uids[..i])
    {
      var u := uids[i];
      AscendingFresh(uids, i);
      assert uids[..i + 1] == uids[..i] + [u];
      ListingSnoc(known, uids[..i], u);
      NewTasksSnoc(known, uids[..i], u);
      var tasks, row;
      resolved, tasks, row := ListOne(known, resolved, u, uids[..i]);
      queued := queued + tasks;
      rows := rows + [row];
      i := i + 1;
    }
    assert uids[..i] == uids;
  }

  /** Removes the inactive entries of a UID map. */
  method SweepInactive(resolved: map<Uid, ResolvedUid>) returns (kept: map<Uid, ResolvedUid>)
    ensures forall u :: u in kept <==> u in resolved && resolved[u].active
    ensures forall u :: u in kept ==> kept[u] == resolved[u]
  {
    kept := resolved;
    var todo := resolved.Keys;
    while todo != {}
      invariant todo <= resolved.Keys
      invariant forall u :: u in kept <==> u in resolved && (u in todo || resolved[u].active)
      invariant forall u :: u in kept ==> kept[u] == resolved[u]
      decreases todo
    {
      var u :| u in todo;
      if !kept[u].active {
        kept := kept - {u};
      }
      todo := todo - {u};
    }
  }

  /** One reconciliation pass over a universe's state: mark every UID
      inactive, re-activate the listed ones (queueing both labels of each new
      one), then sweep the UIDs that were not listed. */
  method Reconcile(state: UniverseState, uids: seq<Uid>) returns (st: UniverseState, rows: seq<UidRow>)
    requires Ascending(uids)
    ensures st == Reconciled(state, uids)
    ensures rows == Listing(state.resolvedUids, uids)
  {
    var marked := MarkInactive(state.resolvedUids);
    var resolved, queued;
    resolved, queued, rows := ActivateListed(state.resolvedUids, marked, uids);
    var kept := SweepInactive(resolved);
    assert kept == ReconciledUids(state.resolvedUids, uids);
    st := state.(resolvedUids := kept, pendingUids := state.pendingUids + queued);
  }

  class RdmHttpModule {
    var universeUids: map<nat, UniverseState>
    ghost var awaiting: multiset<nat>
    const names: Names

    /** Single flight: at most one background label request per universe
        id is in flight, and a tracked universe's scheduler is marked running
        exactly when one is. */
    ghost predicate SingleFlight()
      reads this
    {
      SingleFlightOf(universeUids, awaiting)
    }

    constructor (names: Names)
      ensures universeUids == map[] && awaiting == multiset{} && this.names == names
      ensures SingleFlight()
    {
      universeUids := map[];
      awaiting := multiset{};
      this.names := names;
    }

    /** The state of a universe, if it is tracked. */
    function GetUniverseUids(universe: nat): (r: Option<UniverseState>)
      reads this
      ensures r.Some? <==> universe in universeUids
      ensures r.Some? ==> r.value == universeUids[universe]
    {
      if universe in universeUids then Some(universeUids[universe]) else None
    }

    /** The state of a universe, created (idle, active, empty) when missing. */
    method GetUniverseUidsOrCreate(universe: nat) returns (state: UniverseState)
      modifies this`universeUids
      ensures state == StateOrNew(old(universeUids), universe)
      ensures universeUids == old(universeUids)[universe := state]
    {
      if universe !in universeUids {
        universeUids := universeUids[universe := NEW_UNIVERSE_STATE];
      }
      state := universeUids[universe];
    }

    /** The drain loop. Each turn pops the front task and submits its request
        whether or not the RDM API accepts it; the loop ends at the first
        accepted submission (running) or when the queue is empty (idle). */
    method ResolveNextUID(universe: nat) returns (attempts: seq<Attempt>)
      modifies this
      ensures universe !in old(universeUids) ==>
                attempts == [] && universeUids == old(universeUids) && awaiting == old(awaiting)
      ensures universe in old(universeUids) ==>
                && IsDrainOf(old(universeUids)[universe].pendingUids, attempts)
                && universeUids == old(universeUids)[universe := Drained(old(universeUids)[universe], attempts)]
                && awaiting == old(awaiting) + SentFor(universe, attempts)
    {
      attempts := [];
      if universe !in universeUids {
        return;
      }
      ghost var start := universeUids[universe];
      ghost var others := universeUids;
      var sentRequest := false;
      while !sentRequest
        invariant universe in universeUids
        invariant AttemptedPrefix(start.pendingUids, attempts)
        invariant universeUids == others[universe := universeUids[universe]]
        invariant universeUids[universe] == start.(pendingUids := start.pendingUids[|attempts|..],
                                                    uidResolutionRunning := universeUids[universe].uidResolutionRunning)
        invariant sentRequest == SentRequest(attempts)
        invariant sentRequest ==> universeUids[universe].uidResolutionRunning
        invariant awaiting == old(awaiting)
        decreases |universeUids[universe].pendingUids|
      {
        var state := universeUids[universe];
        if |state.pendingUids| == 0 {
          universeUids := universeUids[universe := state.(uidResolutionRunning := false)];
          return;
        }
        state := state.(uidResolutionRunning := true);
        var task := state.pendingUids[0];
        // The RDM API's synchronous answer: GetManufacturerLabel for a
        // manufacturer task, GetDeviceLabel for a device task.
        var accepted: bool := *;
        state := state.(pendingUids := state.pendingUids[1..]);
        universeUids := universeUids[universe := state];
        attempts := attempts + [Attempt(task, accepted)];
        sentRequest := accepted;
      }
      awaiting := awaiting + multiset{universe};
    }

    /** Reconciles the registry of `universe` with a fresh UID list (a UID set,
        iterated in ascending order) and, when the scheduler is idle, starts
        it. A non-empty `error` from the client is served and changes
        nothing. */
    method HandleUIDList(universe: nat, uids: seq<Uid>, error: string)
      returns (reply: HttpReply, attempts: seq<Attempt>)
      requires Ascending(uids)
      modifies this
      ensures error != "" ==>
                reply == ServerError(error) && attempts == []
                && universeUids == old(universeUids) && awaiting == old(awaiting)
      ensures error == "" ==>
                var before := StateOrNew(old(universeUids), universe);
                var st := Reconciled(before, uids);
                && reply == UidList(universe, Listing(before.resolvedUids, uids))
                && universe in universeUids
                && universeUids == old(universeUids)[universe := universeUids[universe]]
                && (st.uidResolutionRunning ==>
                      attempts == [] && universeUids[universe] == st && awaiting == old(awaiting))
                && (!st.uidResolutionRunning ==>
                      && IsDrainOf(st.pendingUids, attempts)
                      && universeUids[universe] == Drained(st, attempts)
                      && awaiting == old(awaiting) + SentFor(universe, attempts))
      ensures old(SingleFlight()) && (universe in old(universeUids) || old(awaiting)[universe] == 0) ==>
                SingleFlight()
    {
      if error != "" {
        reply := ServerError(error);
        attempts := [];
        return;
      }
      ghost var single := SingleFlight() && (universe in universeUids || awaiting[universe] == 0);
      ghost var start := universeUids;
      var state := GetUniverseUidsOrCreate(universe);
      var st, rows := Reconcile(state, uids);
      reply := UidList(universe, rows);
      universeUids := universeUids[universe := st];
      assert universeUids == start[universe := st];
      if !st.uidResolutionRunning {
        if single {
          IdleStart(start, awaiting, universe);
        }
        ghost var before := awaiting;
        attempts := ResolveNextUID(universe);
        assert universeUids == start[universe := Drained(st, attempts)];
        if single {
          SingleFlightAfterDrain(start, before, universe, st, attempts);
        }
      } else {
        attempts := [];
        if single {
          SingleFlightSameFlag(start, awaiting, universe, st);
        }
      }
    }

    /** The continuation of a background manufacturer-label request. A
        universe that has gone is left alone; otherwise a successful reply
        updates the entry if the UID is still there, and the scheduler goes
        on with the next task. */
    method UpdateUIDManufacturerLabel(universe: nat, uid: Uid, status: ResponseStatus, manufacturerLabel: string)
      returns (attempts: seq<Attempt>)
      requires universe in awaiting
      modifies this
      ensures universe !in old(universeUids) ==>
                attempts == [] && universeUids == old(universeUids)
                && awaiting == old(awaiting) - multiset{universe}
      ensures universe in old(universeUids) ==>
                var st := if CheckForRDMSuccess(status, names)
                          then WithLabel(old(universeUids)[universe], uid, ResolveManufacturer, manufacturerLabel)
                          else old(universeUids)[universe];
                && IsDrainOf(st.pendingUids, attempts)
                && universeUids == old(universeUids)[universe := Drained(st, attempts)]
                && awaiting == old(awaiting) - multiset{universe} + SentFor(universe, attempts)
      ensures old(SingleFlight()) ==> SingleFlight()
    {
      ghost var single := SingleFlight();
      if single {
        CompletionReleases(universeUids, awaiting, universe);
      }
      awaiting := awaiting - multiset{universe};
      attempts := [];
      var state := GetUniverseUids(universe);
      if state.None? {
        return;
      }
      ghost var start := universeUids;
      var st := state.value;
      if CheckForRDMSuccess(status, names) {
        st := WithLabel(st, uid, ResolveManufacturer, manufacturerLabel);
        universeUids := universeUids[universe := st];
      }
      assert universeUids == start[universe := st];
      ghost var before := awaiting;
      attempts := ResolveNextUID(universe);
      assert universeUids == start[universe := Drained(st, attempts)];
      if single {
        SingleFlightAfterDrain(start, before, universe, st, attempts);
      }
    }

    /** The continuation of a background device-label request; as above,
        for the device label. */
    method UpdateUIDDeviceLabel(universe: nat, uid: Uid, status: ResponseStatus, deviceLabel: string)
      returns (attempts: seq<Attempt>)
      requires universe in awaiting
      modifies this
      ensures universe !in old(universeUids) ==>
                attempts == [] && universeUids == old(universeUids)
                && awaiting == old(awaiting) - multiset{universe}
      ensures universe in old(universeUids) ==>
                var st := if CheckForRDMSuccess(status, names)
                          then WithLabel(old(universeUids)[universe], uid, ResolveDevice, deviceLabel)
                          else old(universeUids)[universe];
                && IsDrainOf(st.pendingUids, attempts)
                && universeUids == old(universeUids)[universe := Drained(st, attempts)]
                && awaiting == old(awaiting) - multiset{universe} + SentFor(universe, attempts)
      ensures old(SingleFlight()) ==> SingleFlight()
    {
      ghost var single := SingleFlight();
      if single {
        CompletionReleases(universeUids, awaiting, universe);
      }
      awaiting := awaiting - multiset{universe};
      attempts := [];
      var state := GetUniverseUids(universe);
      if state.None? {
        return;
      }
      ghost var start := universeUids;
      var st := state.value;
      if CheckForRDMSuccess(status, names) {
        st := WithLabel(st, uid, ResolveDevice, deviceLabel);
        universeUids := universeUids[universe := st];
      }
      assert universeUids == start[universe := st];
      ghost var before := awaiting;
      attempts := ResolveNextUID(universe);
      assert universeUids == start[universe := Drained(st, attempts)];
      if single {
        SingleFlightAfterDrain(start, before, universe, st, attempts);
      }
    }

    /** Drops the state of every tracked universe that is not in the
        authoritative list `ids`. */
    method PruneUniverseList(ids: seq<nat>)
      modifies this`universeUids
      ensures universeUids == Pruned(old(universeUids), ids)
      ensures old(SingleFlight()) ==> SingleFlight()
    {
      ghost var before := universeUids;
      var todo := universeUids.Keys;
      while todo != {}
        invariant todo <= before.Keys && universeUids.Keys == before.Keys
        invariant forall u :: u in universeUids ==>
                    universeUids[u] == if u in todo then before[u] else before[u].(active := false)
        decreases todo
      {
        var u :| u in todo;
        universeUids := universeUids[u := universeUids[u].(active := false)];
        todo := todo - {u};
      }

      var i := 0;
      while i < |ids|
        invariant 0 <= i <= |ids|
        invariant universeUids.Keys == before.Keys
        invariant forall u :: u in universeUids ==>
                    universeUids[u] == before[u].(active := u in ids[..i])
      {
        if ids[i] in universeUids {
          universeUids := universeUids[ids[i] := universeUids[ids[i]].(active := true)];
        }
        assert ids[..i + 1] == ids[..i] + [ids[i]];
        i := i + 1;
      }
      assert ids[..i] == ids;

      var marked := universeUids;
      todo := marked.Keys;
      while todo != {}
        invariant todo <= marked.Keys
        invariant forall u :: u in universeUids <==> u in marked && (u in todo || marked[u].active)
        invariant forall u :: u in universeUids ==> universeUids[u] == marked[u]
        decreases todo
      {
        var u :| u in todo;
        if !universeUids[u].active {
          universeUids := universeUids - {u};
        }
        todo := todo - {u};
      }
      assert universeUids == Pruned(before, ids);
    }

    /** The reply to a foreground manufacturer-label read; a successful
        reply also refreshes the label of a UID already in the registry. */
    method GetManufacturerLabelHandler(universe: nat, uid: Uid, status: ResponseStatus, manufacturerLabel: string)
      returns (reply: HttpReply)
      modifies this`universeUids
      ensures !CheckForRDMSuccess(status, names) ==>
                Some(reply) == CheckForRDMError(status, names) && universeUids == old(universeUids)
      ensures CheckForRDMSuccess(status, names) ==>
                reply == SectionJson(JsonSection([StringItem("Manufacturer Label", manufacturerLabel, "")], ""))
                && universeUids == if universe in old(universeUids)
                                   then old(universeUids)[universe := WithLabel(old(universeUids)[universe], uid, ResolveManufacturer, manufacturerLabel)]
                                   else old(universeUids)
    {
      var error := CheckForRDMError(status, names);
      if error.Some? {
        return error.value;
      }
      reply := SectionJson(JsonSection([StringItem("Manufacturer Label", manufacturerLabel, "")], ""));
      var state := GetUniverseUids(universe);
      if state.Some? {
        universeUids := universeUids[universe := WithLabel(state.value, uid, ResolveManufacturer, manufacturerLabel)];
      }
    }

    /** The reply to a foreground device-label read (an editable item); a
        successful reply also refreshes the registry. */
    method GetDeviceLabelHandler(universe: nat, uid: Uid, status: ResponseStatus, deviceLabel: string)
      returns (reply: HttpReply)
      modifies this`universeUids
      ensures !CheckForRDMSuccess(status, names) ==>
                Some(reply) == CheckForRDMError(status, names) && universeUids == old(universeUids)
      ensures CheckForRDMSuccess(status, names) ==>
                reply == SectionJson(JsonSection([StringItem("Device Label", deviceLabel, LABEL_FIELD)], ""))
                && universeUids == if universe in old(universeUids)
                                   then old(universeUids)[universe := WithLabel(old(universeUids)[universe], uid, ResolveDevice, deviceLabel)]
                                   else old(universeUids)
    {
      var error := CheckForRDMError(status, names);
      if error.Some? {
        return error.value;
      }
      reply := SectionJson(JsonSection([StringItem("Device Label", deviceLabel, LABEL_FIELD)], ""));
      var state := GetUniverseUids(universe);
      if state.Some? {
        universeUids := universeUids[universe := WithLabel(state.value, uid, ResolveDevice, deviceLabel)];
      }
    }
  }

}
