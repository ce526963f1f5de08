/**
 * The workout session store of src/lib/stores/workouts.svelte.ts: an ordered
 * list of sessions, newest first, kept in memory and written to the browser's
 * local storage (key "fitlog_workouts") after every change. Outside a browser
 * (server-side rendering) nothing is read or written.
 *
 * Local storage is modelled as the value held under that key: `None` when
 * nothing is stored, `Some(list)` otherwise; JSON encoding is the identity.
 */
module Workouts {
  import opened Wrappers
  import opened Types
  import opened IdLists
  import opened Storage

  /** How many sessions `recent` shows. */
  const RecentCount: nat := 5

  function SessionId(s: WorkoutSession): string
  {
    s.id
  }

  /**
   * `workouts.map((w) => (w.id === session.id ? session : w))`: every session
   * with the same identifier is replaced, every other one is left as it was.
   */
  function ReplaceSession(workouts: seq<WorkoutSession>, session: WorkoutSession): (r: seq<WorkoutSession>)
    ensures |r| == |workouts|
    ensures forall i :: 0 <= i < |r| ==>
              r[i] == (if workouts[i].id == session.id then session else workouts[i])
  {
    if workouts == [] then []
    else [if workouts[0].id == session.id then session else workouts[0]]
         + ReplaceSession(workouts[1..], session)
  }

  /** Updating a session nobody has leaves the list as it was: nothing is inserted. */
  lemma ReplaceAbsent(workouts: seq<WorkoutSession>, session: WorkoutSession)
    requires forall i :: 0 <= i < |workouts| ==> workouts[i].id != session.id
    ensures ReplaceSession(workouts, session) == workouts
  {
  }

  /** Updating with the same session twice is updating once. */
  lemma ReplaceIdempotent(workouts: seq<WorkoutSession>, session: WorkoutSession)
    ensures ReplaceSession(ReplaceSession(workouts, session), session) == ReplaceSession(workouts, session)
  {
  }

  /** After an update, the sessions with that identifier are exactly the new one. */
  lemma ReplaceFinds(workouts: seq<WorkoutSession>, session: WorkoutSession)
    requires exists i :: 0 <= i < |workouts| && workouts[i].id == session.id
    ensures FindId(ReplaceSession(workouts, session), SessionId, session.id) == Some(session)
  {
    var r := ReplaceSession(workouts, session);
    var i :| 0 <= i < |workouts| && workouts[i].id == session.id;
    assert SessionId(r[i]) == session.id;
    var found := FindId(r, SessionId, session.id);
    var k :| 0 <= k < |r| && r[k] == found.value;
    assert workouts[k].id == session.id;
  }

  class WorkoutStore {
    /** Whether the code runs in a browser (SvelteKit's `browser` flag). */
    const browser: bool
    /** The in-memory list, newest first. */
    var workouts: seq<WorkoutSession>
    /** Local storage under the key "fitlog_workouts". */
    var storage: Slot<WorkoutSession>

    /** In a browser, reloading the page would give back exactly the in-memory list. */
    ghost predicate Persisted()
      reads this
    {
      browser ==> Load(browser, storage) == workouts
    }

    constructor (browser: bool, storage: Slot<WorkoutSession>)
      ensures this.browser == browser && this.storage == storage
      ensures workouts == Load(browser, storage)
      ensures Persisted()
    {
      this.browser := browser;
      this.storage := storage;
      this.workouts := Load(browser, storage);
    }

    /** `latest`: the newest session, absent exactly when there is none. */
    function Latest(): (r: Option<WorkoutSession>)
      reads this
      ensures r.None? <==> workouts == []
      ensures r.Some? ==> r.value == workouts[0]
    {
      if |workouts| > 0 then Some(workouts[0]) else None
    }

    /** `recent`: the first `RecentCount` sessions, or all of them when there are fewer. */
    function Recent(): (r: seq<WorkoutSession>)
      reads this
      ensures |r| == (if |workouts| < RecentCount then |workouts| else RecentCount)
      ensures r <= workouts
    {
      if |workouts| <= RecentCount then workouts else workouts[..RecentCount]
    }

    /** `add`: the session goes in front; no check for an existing identifier. */
    method Add(session: WorkoutSession)
      modifies this
      ensures workouts == [session] + old(workouts)
      ensures storage == Save(browser, workouts, old(storage))
      ensures Persisted()
    {
      workouts := [session] + workouts;
      storage := Save(browser, workouts, storage);
    }

    /** `update`: replaces every session with the same identifier, in place. */
    method Update(session: WorkoutSession)
      modifies this
      ensures workouts == ReplaceSession(old(workouts), session)
      ensures storage == Save(browser, workouts, old(storage))
      ensures Persisted()
    {
      workouts := ReplaceSession(workouts, session);
      storage := Save(browser, workouts, storage);
    }

    /** `delete`: drops every session with that identifier, keeping the others in order. */
    method Delete(id: string)
      modifies this
      ensures workouts == RemoveId(old(workouts), SessionId, id)
      ensures storage == Save(browser, workouts, old(storage))
      ensures Persisted()
    {
      workouts := RemoveId(workouts, SessionId, id);
      storage := Save(browser, workouts, storage);
    }
  }
}
