/** The reservations with which threads start clients in src/common/client/client_manager.cpp. */
module ClientStarts {
  type Id = string

  datatype Tracked = Tracked(
    pending: set<Id>,
    sessions: map<Id, nat>,
    // Auxiliary: the threads inside a start, with the client each reserved; whether a running session was ever replaced.
    starters: map<nat, Id>,
    replaced: bool)

  datatype Event =
    | Reserve(thread: nat, id: Id)
    | Release(thread: nat)                 // the start failed
    | HandOver(thread: nat, session: nat)  // the start succeeded
    | Detach(id: Id)                       // the client is stopped, or found to have exited

  /** The reservation succeeds: neither a session nor another start holds the client. */
  predicate Free(s: Tracked, id: Id) {
    id !in s.sessions && id !in s.pending
  }

  function Step(s: Tracked, e: Event): Tracked {
    match e
    case Reserve(t, id) =>
      if t in s.starters || !Free(s, id) then s
      else s.(pending := s.pending + {id}, starters := s.starters[t := id])
    case Release(t) =>
      if t !in s.starters then s
      else s.(pending := s.pending - {s.starters[t]}, starters := s.starters - {t})
    case HandOver(t, n) =>
      if t !in s.starters then s
      else
        var id := s.starters[t];
        s.(replaced := s.replaced || id in s.sessions, sessions := s.sessions[id := n], pending := s.pending - {id}, starters := s.starters - {t})
    case Detach(id) => s.(sessions := s.sessions - {id})
  }

  function Run(s: Tracked, events: seq<Event>): Tracked
    decreases |events|
  {
    if events == [] then s else Step(Run(s, events[..|events| - 1]), events[|events| - 1])
  }

  const START: Tracked := Tracked({}, map[], map[], false)

  /** Each reserved client belongs to exactly one start, and has no session. */
  predicate Inv(s: Tracked) {
    && (forall t :: t in s.starters ==> s.starters[t] in s.pending && s.starters[t] !in s.sessions)
    && (forall t, u :: t in s.starters && u in s.starters && s.starters[t] == s.starters[u] ==> t == u)
    && s.pending == s.starters.Values && !s.replaced
  }

  lemma StepKeeps(s: Tracked, e: Event)
    requires Inv(s)
    ensures Inv(Step(s, e))
  {
    var s' := Step(s, e);
    if e.Reserve? && e.thread !in s.starters && Free(s, e.id) {
      forall id ensures id in s'.pending <==> id in s'.starters.Values {
        if id == e.id {
          assert s'.starters[e.thread] == e.id;
        } else if id in s.pending {
          var t :| t in s.starters && s.starters[t] == id;
          assert s'.starters[t] == id;
        }
      }
    } else if (e.Release? || e.HandOver?) && e.thread in s.starters {
      forall id ensures id in s'.pending <==> id in s'.starters.Values {
        if id in s'.pending {
          var t :| t in s.starters && s.starters[t] == id;
          assert t != e.thread && s'.starters[t] == id;
        }
      }
    }
  }

  lemma {:induction false} RunKeeps(s: Tracked, events: seq<Event>)
    requires Inv(s)
    ensures Inv(Run(s, events))
    decreases |events|
  {
    hide Inv, Step;
    if events != [] {
      RunKeeps(s, events[..|events| - 1]);
      StepKeeps(Run(s, events[..|events| - 1]), events[|events| - 1]);
    }
  }

  /**
    However threads race: two starts never hold the same client, handing over a session never replaces a
    running one, and a client without start or session can be reserved, so no reservation is left behind.
   */
  lemma StartsExclude(events: seq<Event>)
    ensures var s := Run(START, events);
            && !s.replaced
            && (forall t, u :: t in s.starters && u in s.starters && t != u ==> s.starters[t] != s.starters[u])
            && (forall id :: Free(s, id) <==> id !in s.sessions && id !in s.starters.Values)
  {
    RunKeeps(START, events);
  }

  /** The shared state, changed under its lock. */
  class TrackedState {
    var pending: set<Id>
    var sessions: map<Id, nat>
    ghost var starters: map<nat, Id>
    ghost var replaced: bool

    ghost function View(): Tracked
      reads this
    {
      Tracked(pending, sessions, starters, replaced)
    }

    constructor ()
      ensures View() == START && Inv(View())
    {
      pending, sessions, starters, replaced := {}, map[], map[], false;
    }

    method TryReserve(ghost t: nat, id: Id) returns (ok: bool)
      requires Inv(View()) && t !in starters
      modifies this
      ensures View() == Step(old(View()), Reserve(t, id)) && Inv(View())
      ensures ok <==> id !in old(sessions) && id !in old(pending)
      ensures ok ==> t in starters && starters[t] == id
    {
      hide Inv;
      StepKeeps(View(), Reserve(t, id));
      if id in sessions || id in pending {
        return false;
      }
      pending := pending + {id};
      starters := starters[t := id];
      return true;
    }

    method GiveUp(ghost t: nat, id: Id)
      requires Inv(View()) && t in starters && starters[t] == id
      modifies this
      ensures View() == Step(old(View()), Release(t)) && Inv(View())
      ensures pending == old(pending) - {id} && sessions == old(sessions) && (id !in sessions ==> Free(View(), id))
    {
      hide Inv;
      StepKeeps(View(), Release(t));
      pending := pending - {id};
      starters := starters - {t};
    }

    method Insert(ghost t: nat, id: Id, session: nat)
      requires Inv(View()) && t in starters && starters[t] == id
      modifies this
      ensures View() == Step(old(View()), HandOver(t, session)) && Inv(View())
      ensures sessions == old(sessions)[id := session] && id !in old(sessions) && pending == old(pending) - {id}
    {
      StepKeeps(View(), HandOver(t, session));
      assert id !in sessions;
      hide Inv;
      replaced := replaced || id in sessions;
      sessions := sessions[id := session];
      pending := pending - {id};
      starters := starters - {t};
    }

    method Remove(id: Id)
      requires Inv(View())
      modifies this
      ensures View() == Step(old(View()), Detach(id)) && Inv(View())
      ensures pending == old(pending) && sessions == old(sessions) - {id}
    {
      hide Inv;
      StepKeeps(View(), Detach(id));
      sessions := sessions - {id};
    }
  }
}
