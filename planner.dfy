/** The planner's post-processing in `planWithCoT` (server/index.js): the
    target lookup, the abstract reply of the language model, the defaults for
    missing fields, the safety filter over the proposed commands and the
    warning it appends. */
module Planner {
  import opened Wrappers
  import opened Text
  import opened Registry
  import opened Models

  datatype Action = Action(command: string, purpose: string)

  datatype Plan = Plan(thinking: seq<string>, actions: seq<Action>)

  /** What reaches the language model: the model, the instruction and the
      target's `username@host`; never its password or key. */
  datatype PlanRequest = PlanRequest(model: ModelConfig, instruction: string, login: string)

  /** The reply once parsed: the two fields (`None` when missing), no JSON
      found in the text, or an error from the provider or from `JSON.parse`. */
  datatype PlannerReply =
    | Parsed(thinking: Option<seq<string>>, actions: Option<seq<Action>>)
    | NoJsonFound
    | ProviderError(message: string)

  const Warning: string :=
    "WARNING: Some SSH or connection commands were removed. The AI agent is already connected to the server and should only use local commands."

  /** The filter's test on one command, after lower-casing it and the server name. */
  predicate IsSafeCommand(command: string, serverName: string) {
    var cmd := ToLower(command);
    && !StartsWith(cmd, "ssh ")
    && !Contains(cmd, " ssh ")
    && !Contains(cmd, "@")
    && !Contains(cmd, ToLower(serverName))
  }

  /** `xs` is `ys` with some elements taken out and the rest in their order. */
  predicate IsSubsequence<T(==)>(xs: seq<T>, ys: seq<T>)
    decreases |ys|
  {
    if xs == [] then true
    else if ys == [] then false
    else if xs[0] == ys[0] then IsSubsequence(xs[1..], ys[1..])
    else IsSubsequence(xs, ys[1..])
  }

  /** `actions.filter(...)`: exactly the safe actions, in their order. */
  function FilterActions(actions: seq<Action>, serverName: string): (kept: seq<Action>)
    ensures forall a | a in kept :: IsSafeCommand(a.command, serverName)
    ensures forall a | a in actions && IsSafeCommand(a.command, serverName) :: a in kept
    ensures IsSubsequence(kept, actions)
    ensures |kept| <= |actions|
    ensures |kept| == |actions| <==> forall a | a in actions :: IsSafeCommand(a.command, serverName)
    ensures |kept| == |actions| ==> kept == actions
  {
    if actions == [] then []
    else
      var rest := FilterActions(actions[1..], serverName);
      assert forall a | a in actions[1..] :: a in actions;
      assert actions == [actions[0]] + actions[1..];
      if IsSafeCommand(actions[0].command, serverName) then [actions[0]] + rest
      else rest
  }

  /** Each safe action is kept as often as it was proposed, each unsafe one
      never; with `IsSubsequence` this fixes the filtered list exactly. */
  lemma {:induction false} FilterKeepsMultiplicity(actions: seq<Action>, serverName: string)
    ensures var kept := FilterActions(actions, serverName);
            forall a :: multiset(kept)[a] == if IsSafeCommand(a.command, serverName) then multiset(actions)[a] else 0
  {
    if actions != [] {
      var a0, tail := actions[0], actions[1..];
      FilterKeepsMultiplicity(tail, serverName);
      assert actions == [a0] + tail;
      assert multiset(actions) == multiset{a0} + multiset(tail);
      var rest := FilterActions(tail, serverName);
      if IsSafeCommand(a0.command, serverName) {
        assert FilterActions(actions, serverName) == [a0] + rest;
        assert multiset([a0] + rest) == multiset{a0} + multiset(rest);
      } else {
        assert FilterActions(actions, serverName) == rest;
      }
    }
  }

  /** The kept actions, with the warning appended to the thinking iff one was dropped. */
  function PostProcess(serverName: string, thinking: seq<string>, actions: seq<Action>): (p: Plan)
    ensures p.actions == FilterActions(actions, serverName)
    ensures (exists a | a in actions :: !IsSafeCommand(a.command, serverName)) ==> p.thinking == thinking + [Warning]
    ensures (forall a | a in actions :: IsSafeCommand(a.command, serverName)) ==> p.thinking == thinking
  {
    var kept := FilterActions(actions, serverName);
    Plan(if |kept| < |actions| then thinking + [Warning] else thinking, kept)
  }

  /** Every error of `planWithCoT` is rethrown under this prefix. */
  const PlanErrorPrefix: string := "Failed to plan actions: "

  /** The error when the reply holds no JSON. */
  const ParseFailure: string := "Failed to parse AI response"

  function Login(s: Server): string {
    s.username + "@" + s.host
  }

  /** `planWithCoT`: every error it meets is rethrown under `PlanErrorPrefix`. */
  function PlanWithCoT(servers: map<string, Server>, serverName: string, instruction: string,
                       model: ModelConfig, planner: PlanRequest -> PlannerReply): (r: Result<Plan, string>)
    ensures serverName !in servers ==> r == Failure(PlanErrorPrefix + "Server " + serverName + " not found")
    ensures serverName in servers ==>
              match planner(PlanRequest(model, instruction, Login(servers[serverName])))
              case ProviderError(message) => r == Failure(PlanErrorPrefix + message)
              case NoJsonFound => r == Failure(PlanErrorPrefix + ParseFailure)
              case Parsed(thinking, actions) =>
                r == Success(PostProcess(serverName, thinking.GetOr([]), actions.GetOr([])))
    ensures r.Success? ==> forall a | a in r.value.actions :: IsSafeCommand(a.command, serverName)
  {
    if serverName !in servers then Failure(PlanErrorPrefix + "Server " + serverName + " not found")
    else
      match planner(PlanRequest(model, instruction, Login(servers[serverName])))
      case ProviderError(message) => Failure(PlanErrorPrefix + message)
      case NoJsonFound => Failure(PlanErrorPrefix + ParseFailure)
      case Parsed(thinking, actions) => Success(PostProcess(serverName, thinking.GetOr([]), actions.GetOr([])))
  }

  /** The filter tests "ssh " at the start and " ssh " inside, so a connection
      command whose words are separated by tabs is kept. */
  lemma FilterKeepsTabSeparatedSsh()
    ensures IsSafeCommand("ssh\th2\treboot", "web")
  {
    var c := "ssh\th2\treboot";
    NoUpperCase(c);
    NoUpperCase("web");
    AbsentChar(c, " ssh ", 0);
    AbsentChar(c, "@", 0);
    AbsentChar(c, "web", 0);
    assert c[3] == '\t';
  }

  lemma ScenarioCommands()
    ensures IsSafeCommand("df -h", "web") && IsSafeCommand("uptime", "web")
    ensures !IsSafeCommand("ssh admin@host2 \"rm -rf /\"", "web")
  {
    NoUpperCase("df -h");
    NoUpperCase("uptime");
    NoUpperCase("web");
    AbsentChar("df -h", " ssh ", 1);
    AbsentChar("df -h", "@", 0);
    AbsentChar("df -h", "web", 0);
    AbsentChar("uptime", " ssh ", 1);
    AbsentChar("uptime", "@", 0);
    AbsentChar("uptime", "web", 0);
    assert "df -h"[..4][0] == 'd' && "uptime"[..4][0] == 'u';
    NoUpperCase("ssh admin@host2 \"rm -rf /\"");
  }

  /** Three proposed actions, the middle one a nested ssh: it is dropped, the
      other two keep their order and the thinking gains the warning. */
  lemma NestedSshDropped()
    ensures var df, rm, up := Action("df -h", "disk"), Action("ssh admin@host2 \"rm -rf /\"", "cleanup"), Action("uptime", "load");
            PostProcess("web", [], [df, rm, up]) == Plan([Warning], [df, up])
  {
    var df, rm, up := Action("df -h", "disk"), Action("ssh admin@host2 \"rm -rf /\"", "cleanup"), Action("uptime", "load");
    ScenarioCommands();
    assert [up][1..] == [];
    assert FilterActions([up], "web") == [up];
    assert [rm, up][1..] == [up];
    assert FilterActions([rm, up], "web") == [up];
    assert [df, rm, up][1..] == [rm, up];
    assert FilterActions([df, rm, up], "web") == [df, up];
  }
}
