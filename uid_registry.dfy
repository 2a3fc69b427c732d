/** The per-universe UID registry and the label-resolution queue, as values:
    what one universe's `uid_resolution_state` holds, and the functions that
    say what reconciling a fresh UID list, draining the queue, recording a
    resolved label and pruning the universe list do to it. The methods of
    `Gateway.RdmHttpModule` are proved against these functions. */
module UidRegistry {
  import opened Support
  import opened Rdm
  import opened Replies

  datatype ResolveAction = ResolveManufacturer | ResolveDevice

  /** A queued label-resolution task. */
  datatype PendingUid = PendingUid(uid: Uid, action: ResolveAction)

  /** `resolved_uid`: the labels known for one UID and its mark-and-sweep flag. */
  datatype ResolvedUid = ResolvedUid(manufacturer: string, device: string, active: bool)

  /** `uid_resolution_state`: the UIDs of one universe, the FIFO of pending
      resolution tasks, whether the scheduler is waiting for a reply, and the
      mark used while pruning the universe list. */
  datatype UniverseState = UniverseState(
    resolvedUids: map<Uid, ResolvedUid>,
    pendingUids: seq<PendingUid>,
    uidResolutionRunning: bool,
    active: bool)

  /** The state `GetUniverseUidsOrCreate` creates. */
  const NEW_UNIVERSE_STATE: UniverseState := UniverseState(map[], [], false, true)

  /** The state of `universe`, existing or newly created. */
  function StateOrNew(universes: map<nat, UniverseState>, universe: nat): (st: UniverseState)
    ensures universe in universes ==> st == universes[universe]
    ensures universe !in universes ==> st.resolvedUids == map[] && st.pendingUids == []
                                       && !st.uidResolutionRunning && st.active
  {
    if universe in universes then universes[universe] else NEW_UNIVERSE_STATE
  }

  // ---------------------------------------------------------------------
  // Reconciliation

  /** The tasks a reconciliation pass queues for `u`: both labels, the
      manufacturer's first, when `u` was not known. */
  function TasksFor(known: map<Uid, ResolvedUid>, u: Uid): seq<PendingUid> {
    if u in known then [] else [PendingUid(u, ResolveManufacturer), PendingUid(u, ResolveDevice)]
  }

  /** The tasks a pass over `uids` queues, in iteration order. */
  function NewTasks(known: map<Uid, ResolvedUid>, uids: seq<Uid>): seq<PendingUid>
    decreases |uids|
  {
    if uids == [] then []
    else NewTasks(known, uids[..|uids| - 1]) + TasksFor(known, uids[|uids| - 1])
  }

  /** The entry of `u` after the pass: kept labels, or empty ones, and active. */
  function Reactivated(known: map<Uid, ResolvedUid>, u: Uid): ResolvedUid {
    if u in known then known[u].(active := true) else ResolvedUid("", "", true)
  }

  /** The registry after a pass: exactly the listed UIDs. */
  function ReconciledUids(known: map<Uid, ResolvedUid>, uids: seq<Uid>): map<Uid, ResolvedUid> {
    map u | u in uids :: Reactivated(known, u)
  }

  /** The universe state after a reconciliation pass over `uids`. */
  function Reconciled(st: UniverseState, uids: seq<Uid>): UniverseState {
    st.(resolvedUids := ReconciledUids(st.resolvedUids, uids),
        pendingUids := st.pendingUids + NewTasks(st.resolvedUids, uids))
  }

  /** One row of the UID listing: the labels known before the pass, empty for
      a UID seen for the first time. */
  function ListingRow(known: map<Uid, ResolvedUid>, u: Uid): UidRow {
    if u in known then UidRow(u, known[u].device, known[u].manufacturer) else UidRow(u, "", "")
  }

  function Listing(known: map<Uid, ResolvedUid>, uids: seq<Uid>): seq<UidRow> {
    seq(|uids|, i requires 0 <= i < |uids| => ListingRow(known, uids[i]))
  }

  lemma ListingSnoc(known: map<Uid, ResolvedUid>, uids: seq<Uid>, u: Uid)
    ensures Listing(known, uids + [u]) == Listing(known, uids) + [ListingRow(known, u)]
  {
  }

  lemma NewTasksSnoc(known: map<Uid, ResolvedUid>, uids: seq<Uid>, u: Uid)
    ensures NewTasks(known, uids + [u]) == NewTasks(known, uids) + TasksFor(known, u)
  {
    assert (uids + [u])[..|uids|] == uids;
  }

  /** After a pass the registry holds exactly the listed UIDs, all active;
      a UID that was already known keeps both labels, a new one has none. */
  lemma ReconciledEntries(st: UniverseState, uids: seq<Uid>, u: Uid)
    ensures var r := Reconciled(st, uids).resolvedUids;
            && (u in r <==> u in uids)
            && (u in r ==> r[u].active)
            && (u in r && u in st.resolvedUids ==>
                  r[u].manufacturer == st.resolvedUids[u].manufacturer
                  && r[u].device == st.resolvedUids[u].device)
            && (u in r && u !in st.resolvedUids ==> r[u].manufacturer == "" && r[u].device == "")
  {
  }

  /** A task is queued for `u`, for either label, exactly when `u` is listed
      and was not known. */
  lemma {:induction false} NewTasksMembership(known: map<Uid, ResolvedUid>, uids: seq<Uid>, u: Uid, a: ResolveAction)
    ensures PendingUid(u, a) in NewTasks(known, uids) <==> (u in uids && u !in known)
    decreases |uids|
  {
    if uids != [] {
      var init := uids[..|uids| - 1];
      NewTasksMembership(known, init, u, a);
      assert uids == init + [uids[|uids| - 1]];
    }
  }

  /** Nothing is queued for a pass over UIDs that are all known. */
  lemma {:induction false} NewTasksOfKnown(known: map<Uid, ResolvedUid>, uids: seq<Uid>)
    requires forall i :: 0 <= i < |uids| ==> uids[i] in known
    ensures NewTasks(known, uids) == []
    decreases |uids|
  {
    if uids != [] {
      NewTasksOfKnown(known, uids[..|uids| - 1]);
    }
  }

  /** Reconciling twice with the same list changes nothing the second time
      and queues nothing. */
  lemma ReconcileIdempotent(st: UniverseState, uids: seq<Uid>)
    ensures Reconciled(Reconciled(st, uids), uids) == Reconciled(st, uids)
  {
    var once := Reconciled(st, uids);
    NewTasksOfKnown(once.resolvedUids, uids);
    assert once.pendingUids + [] == once.pendingUids;
    assert ReconciledUids(once.resolvedUids, uids) == once.resolvedUids;
  }

  /** Task pairing: in what one pass queues, every manufacturer task is
      followed at once by the device task of the same UID, and every device
      task is preceded at once by the manufacturer task of its UID. */
  predicate Paired(t: seq<PendingUid>) {
    && (forall i :: 0 <= i < |t| && t[i].action == ResolveManufacturer ==>
          i + 1 < |t| && t[i + 1] == PendingUid(t[i].uid, ResolveDevice))
    && (forall i :: 0 <= i < |t| && t[i].action == ResolveDevice ==>
          0 < i && t[i - 1] == PendingUid(t[i].uid, ResolveManufacturer))
  }

  lemma {:induction false} NewTasksPaired(known: map<Uid, ResolvedUid>, uids: seq<Uid>)
    ensures Paired(NewTasks(known, uids))
    decreases |uids|
  {
    if uids != [] {
      NewTasksPaired(known, uids[..|uids| - 1]);
    }
  }

  /** Tasks in ascending order of their UIDs (the two tasks of one UID side
      by side). */
  predicate UidOrdered(t: seq<PendingUid>) {
    forall i, j :: 0 <= i < j < |t| && t[i].uid != t[j].uid ==> UidLess(t[i].uid, t[j].uid)
  }

  /** The tasks of one pass come in the iteration order of the UID set:
      ascending by UID. */
  lemma {:induction false} NewTasksAscending(known: map<Uid, ResolvedUid>, uids: seq<Uid>)
    requires Ascending(uids)
    ensures UidOrdered(NewTasks(known, uids))
    decreases |uids|
  {
    if uids != [] {
      var init := uids[..|uids| - 1];
      var last := uids[|uids| - 1];
      NewTasksAscending(known, init);
      var t0 := NewTasks(known, init);
      forall i | 0 <= i < |t0|
        ensures UidLess(t0[i].uid, last)
      {
        assert t0[i] in t0;
        NewTasksMembership(known, init, t0[i].uid, t0[i].action);
        var k :| 0 <= k < |init| && init[k] == t0[i].uid;
        assert uids[k] == init[k];
      }
      var t := NewTasks(known, uids);
      assert uids == init + [last];
      assert t == t0 + TasksFor(known, last);
      forall i, j | 0 <= i < j < |t| && t[i].uid != t[j].uid
        ensures UidLess(t[i].uid, t[j].uid)
      {
        if j < |t0| {
          assert t[i] == t0[i] && t[j] == t0[j];
          assert UidLess(t0[i].uid, t0[j].uid);
        } else {
          assert t[j] in TasksFor(known, last);
          assert t[j].uid == last;
          assert t[i] == t0[i];
          assert UidLess(t0[i].uid, last);
        }
      }
    }
  }

  // ---------------------------------------------------------------------
  // Draining the queue

  /** One submission made by the scheduler: the task it popped and whether
      the RDM API accepted the request. */
  datatype Attempt = Attempt(request: PendingUid, accepted: bool)

  /** The submissions so far pop the queue from the front, one task each,
      and all but the latest were rejected. */
  predicate AttemptedPrefix(pending: seq<PendingUid>, attempts: seq<Attempt>) {
    && |attempts| <= |pending|
    && (forall i :: 0 <= i < |attempts| ==> attempts[i].request == pending[i])
    && (forall i :: 0 <= i < |attempts| - 1 ==> !attempts[i].accepted)
  }

  /** The drain loop pops tasks from the front, one submission each, and stops
      at the first accepted submission or when the queue runs out. */
  predicate IsDrainOf(pending: seq<PendingUid>, attempts: seq<Attempt>) {
    && AttemptedPrefix(pending, attempts)
    && (|attempts| < |pending| ==> |attempts| > 0 && attempts[|attempts| - 1].accepted)
  }

  /** Whether the drain ended with a request in flight. */
  function SentRequest(attempts: seq<Attempt>): bool {
    |attempts| > 0 && attempts[|attempts| - 1].accepted
  }

  /** The universe state after a drain: the attempted tasks are gone, and the
      scheduler is running exactly when a request is in flight. */
  function Drained(st: UniverseState, attempts: seq<Attempt>): UniverseState
    requires |attempts| <= |st.pendingUids|
  {
    st.(pendingUids := st.pendingUids[|attempts|..], uidResolutionRunning := SentRequest(attempts))
  }

  /** A drain leaves the scheduler idle only with an empty queue, submits at
      most one accepted request, and keeps the untried tasks in order. */
  lemma DrainOutcome(st: UniverseState, attempts: seq<Attempt>)
    requires IsDrainOf(st.pendingUids, attempts)
    ensures var d := Drained(st, attempts);
            && (!d.uidResolutionRunning ==> d.pendingUids == [])
            && (forall i :: 0 <= i < |attempts| && attempts[i].accepted ==> i == |attempts| - 1)
            && st.pendingUids == seq(|attempts|, i requires 0 <= i < |attempts| => attempts[i].request) + d.pendingUids
            && d.resolvedUids == st.resolvedUids && d.active == st.active
  {
    var d := Drained(st, attempts);
    var done := seq(|attempts|, i requires 0 <= i < |attempts| => attempts[i].request);
    assert st.pendingUids == st.pendingUids[..|attempts|] + d.pendingUids;
    assert st.pendingUids[..|attempts|] == done;
  }

  // ---------------------------------------------------------------------
  // Recording a resolved label

  /** The state after a label for `uid` arrives: only an existing entry's
      matching field changes; an unknown UID is not inserted. */
  function WithLabel(st: UniverseState, uid: Uid, action: ResolveAction, text: string): UniverseState {
    if uid !in st.resolvedUids then st
    else
      var e := st.resolvedUids[uid];
      st.(resolvedUids := st.resolvedUids[uid := if action == ResolveManufacturer then e.(manufacturer := text)
                                                 else e.(device := text)])
  }

  lemma WithLabelEffect(st: UniverseState, uid: Uid, action: ResolveAction, text: string, u: Uid)
    ensures var r := WithLabel(st, uid, action, text);
            && r.resolvedUids.Keys == st.resolvedUids.Keys
            && r.pendingUids == st.pendingUids
            && r.uidResolutionRunning == st.uidResolutionRunning
            && (u in st.resolvedUids && u != uid ==> r.resolvedUids[u] == st.resolvedUids[u])
            && (uid in st.resolvedUids ==>
                  var e, f := st.resolvedUids[uid], r.resolvedUids[uid];
                  f.active == e.active
                  && f.manufacturer == (if action == ResolveManufacturer then text else e.manufacturer)
                  && f.device == (if action == ResolveDevice then text else e.device))
  {
  }

  // ---------------------------------------------------------------------
  // Pruning the universe list

  /** The tracked universes after pruning against the list `ids`: exactly
      those that are listed, each marked active. */
  function Pruned(universes: map<nat, UniverseState>, ids: seq<nat>): map<nat, UniverseState> {
    map u | u in universes && u in ids :: universes[u].(active := true)
  }

  lemma PrunedEntries(universes: map<nat, UniverseState>, ids: seq<nat>, u: nat)
    ensures var p := Pruned(universes, ids);
            && (u in p <==> u in universes && u in ids)
            && (u in p ==>
                  p[u].resolvedUids == universes[u].resolvedUids
                  && p[u].pendingUids == universes[u].pendingUids
                  && p[u].uidResolutionRunning == universes[u].uidResolutionRunning)
  {
  }
}
