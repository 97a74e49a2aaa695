/** The per-socket chat histories (`chatHistories`): append-only logs keyed
    by socket id, the context string built from the last five entries, and
    the eviction an hour after a disconnect, over an abstract clock. */
module History {
  import opened Wrappers
  import opened Text
  import opened Planner
  import opened Runner

  datatype Interaction = Interaction(instruction: string, thinking: seq<string>, actions: seq<Action>,
                                     results: seq<CommandResult>, analysis: string)

  /** How many of the latest interactions the context covers. */
  const ContextWindow: nat := 5

  /** How long a disconnected socket's history is kept, in milliseconds. */
  const GraceMs: nat := 3600000

  function Commands(actions: seq<Action>): (r: seq<string>)
    ensures |r| == |actions| && forall i | 0 <= i < |r| :: r[i] == actions[i].command
  {
    seq(|actions|, i requires 0 <= i < |actions| => actions[i].command)
  }

  function Outputs(results: seq<CommandResult>): (r: seq<string>)
    ensures |r| == |results| && forall i | 0 <= i < |r| :: r[i] == results[i].output
  {
    seq(|results|, i requires 0 <= i < |results| => results[i].output)
  }

  /** One interaction in the context string. */
  function Render(it: Interaction): (r: string)
    ensures StartsWith(r, "User: " + it.instruction)
  {
    "User: " + it.instruction +
    "\nAI Thought Process: " + Join(it.thinking, "\n") +
    "\nCommands Executed: " + Join(Commands(it.actions), ", ") +
    "\nResults: " + Join(Outputs(it.results), "\n") +
    "\nAnalysis: " + it.analysis +
    "\n---"
  }

  function RenderAll(log: seq<Interaction>): (r: seq<string>)
    ensures |r| == |log| && forall i | 0 <= i < |r| :: r[i] == Render(log[i])
  {
    seq(|log|, i requires 0 <= i < |log| => Render(log[i]))
  }

  /** `history.slice(-5)`: the last five entries (all of them when fewer). */
  function Recent(log: seq<Interaction>): (r: seq<Interaction>)
    ensures |r| == if |log| < ContextWindow then |log| else ContextWindow
    ensures r == log[|log| - |r|..]
  {
    if |log| <= ContextWindow then log else log[|log| - ContextWindow..]
  }

  /** `getContextFromHistory`. */
  function ContextFromHistory(log: seq<Interaction>): (r: string)
    ensures r == "" <==> log == []
    ensures log != [] ==> StartsWith(r, "User: " + Recent(log)[0].instruction)
  {
    if log == [] then "" else Join(RenderAll(Recent(log)), "\n")
  }

  /** Only the last five entries matter: older ones never reach the context. */
  lemma ContextIgnoresOlder(older: seq<Interaction>, recent: seq<Interaction>)
    requires |recent| >= ContextWindow
    ensures ContextFromHistory(older + recent) == ContextFromHistory(recent)
  {
    var log := older + recent;
    assert log[|log| - ContextWindow..] == recent[|recent| - ContextWindow..];
    assert Recent(log) == Recent(recent);
    assert log != [] && recent != [];
  }

  /** A log of one interaction gives that interaction's rendering. */
  lemma ContextOfOne(it: Interaction)
    ensures ContextFromHistory([it]) == Render(it)
  {
    var log := [it];
    assert Recent(log) == log;
    var rs := RenderAll(log);
    assert |rs| == 1;
    assert Join(rs, "\n") == rs[0];
  }

  /** Below the window, each new interaction adds a line break and its
      rendering at the end of the context. */
  lemma ContextAppend(log: seq<Interaction>, it: Interaction)
    requires 0 < |log| < ContextWindow
    ensures ContextFromHistory(log + [it]) == ContextFromHistory(log) + "\n" + Render(it)
  {
    assert Recent(log + [it]) == log + [it] && Recent(log) == log;
    assert RenderAll(log + [it]) == RenderAll(log) + [Render(it)];
    JoinAppend(RenderAll(log), Render(it), "\n");
  }

  /** From the window on, the oldest of the last five entries drops out and the
      new one is added at the end: the context is the last four entries'
      context, a line break and the new rendering. */
  lemma ContextSlides(log: seq<Interaction>, it: Interaction)
    requires |log| >= ContextWindow
    ensures ContextFromHistory(log + [it]) ==
              ContextFromHistory(log[|log| - ContextWindow + 1..]) + "\n" + Render(it)
  {
    var keep := log[|log| - ContextWindow + 1..];
    assert log + [it] == log[..|log| - ContextWindow + 1] + (keep + [it]);
    ContextIgnoresOlder(log[..|log| - ContextWindow + 1], keep + [it]);
    ContextAppend(keep, it);
  }

  /** A pending `setTimeout` that deletes a socket's history at time `due`. */
  datatype Eviction = Eviction(socketId: string, due: nat)

  predicate DueFor(pending: seq<Eviction>, id: string, t: nat) {
    exists e | e in pending :: e.socketId == id && e.due <= t
  }

  /** The histories left once every timer due by `t` has fired. */
  function Expire(logs: map<string, seq<Interaction>>, pending: seq<Eviction>, t: nat): (r: map<string, seq<Interaction>>)
    ensures forall e | e in pending && e.due <= t :: e.socketId !in r
    ensures forall id | id in logs && !DueFor(pending, id, t) :: id in r && r[id] == logs[id]
    ensures forall id | id in r :: id in logs
  {
    map id | id in logs && !DueFor(pending, id, t) :: logs[id]
  }

  function StillPending(pending: seq<Eviction>, t: nat): (r: seq<Eviction>)
    ensures forall e | e in r :: e in pending && e.due > t
    ensures forall e | e in pending && e.due > t :: e in r
  {
    if pending == [] then []
    else (if pending[0].due > t then [pending[0]] else []) + StillPending(pending[1..], t)
  }

  class HistoryStore {
    var logs: map<string, seq<Interaction>>
    var now: nat
    var pending: seq<Eviction>

    constructor ()
      ensures logs == map[] && now == 0 && pending == []
    {
      logs, now, pending := map[], 0, [];
    }

    /** `chatHistories.get(id) || []`. */
    function Log(id: string): seq<Interaction>
      reads this
    {
      if id in logs then logs[id] else []
    }

    /** The agent constructor: an empty log for a socket that has none. */
    method Open(id: string)
      modifies this
      ensures logs == if id in old(logs) then old(logs) else old(logs)[id := []]
      ensures now == old(now) && pending == old(pending)
    {
      if id !in logs {
        logs := logs[id := []];
      }
    }

    /** `addToHistory`: one interaction at the end of the socket's log. */
    method Append(id: string, it: Interaction)
      modifies this
      ensures logs == old(logs)[id := old(Log(id)) + [it]]
      ensures now == old(now) && pending == old(pending)
    {
      var history := Log(id);
      logs := logs[id := history + [it]];
    }

    /** `disconnect`: a deletion scheduled an hour later, never cancelled. */
    method Disconnect(id: string)
      modifies this
      ensures pending == old(pending) + [Eviction(id, now + GraceMs)]
      ensures logs == old(logs) && now == old(now)
    {
      pending := pending + [Eviction(id, now + GraceMs)];
    }

    /** The clock moves to `t`; every timer due by then fires (deleting the
        history if it is still there). */
    method AdvanceTo(t: nat)
      requires now <= t
      modifies this
      ensures now == t
      ensures logs == Expire(old(logs), old(pending), t)
      ensures pending == StillPending(old(pending), t)
    {
      logs := Expire(logs, pending, t);
      pending := StillPending(pending, t);
      now := t;
    }
  }

  /** Whatever the store holds: a client disconnects, reconnects under the
      same id and completes an instruction at any time inside the hour, and
      the timer set at the disconnect still deletes the log an hour after it. */
  method ReconnectWithinGrace(store: HistoryStore, id: string, it: Interaction, d: nat)
    requires d < GraceMs
    modifies store
    ensures id !in store.logs
    ensures store.now == old(store.now) + GraceMs
  {
    var start := store.now;
    store.Disconnect(id);
    var timer := Eviction(id, start + GraceMs);
    assert timer in store.pending;
    store.AdvanceTo(start + d);
    assert timer in store.pending;
    store.Append(id, it);
    store.AdvanceTo(start + GraceMs);
  }
}
