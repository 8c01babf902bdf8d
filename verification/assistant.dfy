/** The computer-use assistant (cua/computer_use_assistant.py): builds the scaled computer
    and the agent from the configuration, then runs the task loop under an action budget. */
module Assistant {
  import opened Wrappers
  import opened Text
  import opened Computer
  import opened Scaling
  import opened CuaAgent
  import opened CuaConfig

  /** `ExecutionResult`. `failure` is the error a failed run caught, where the source keeps
      its text. */
  datatype ExecutionResult = ExecutionResult(success: bool, summary: string, actionsTaken: nat,
                                             failure: Option<AgentError>, screenshots: seq<Shot>)

  /** The RuntimeError of a run before `initialize`. */
  datatype AssistantError = NotInitialized

  function SuccessSummary(actionsTaken: nat): string
  {
    "Task completed successfully with " + NatToString(actionsTaken) + " actions"
  }

  function FailureSummary(actionsTaken: nat): string
  {
    "Failed after " + NatToString(actionsTaken) + " actions"
  }

  /** The most continue_task calls a run with budget `maxActions` makes. */
  function TurnBound(maxActions: int): nat
  {
    if maxActions > 0 then maxActions else 0
  }

  /** The user messages passed to `turns` continue_task calls: the instructions first, then
      none (an empty message is not sent). */
  function MessagesSent(instructions: string, turns: nat): (m: seq<string>)
    ensures |m| == turns
    ensures turns > 0 ==> m[0] == instructions
    ensures forall i :: 0 < i < turns ==> m[i] == ""
  {
    if turns == 0 then [] else MessagesSent(instructions, turns - 1) + [if turns == 1 then instructions else ""]
  }

  /** The actions a run counts over its first `turns` turns, given the responses of its
      turns: every action of every response, one turn after another. */
  function ActionsUpTo(responses: seq<Option<Response>>, turns: nat): nat
    requires turns <= |responses|
  {
    if turns == 0 then 0 else ActionsUpTo(responses, turns - 1) + |Actions(responses[turns - 1])|
  }

  /** A later turn does not change what the earlier turns counted. */
  lemma {:induction false} ActionsUpToStays(responses: seq<Option<Response>>, next: Option<Response>, turns: nat)
    requires turns <= |responses|
    ensures ActionsUpTo(responses + [next], turns) == ActionsUpTo(responses, turns)
  {
    if turns > 0 {
      ActionsUpToStays(responses, next, turns - 1);
      assert (responses + [next])[turns - 1] == responses[turns - 1];
    }
  }

  /** The task loop went on after the `i`-th turn: that response had actions, asked for no
      input, and the count stayed below the budget. */
  predicate Continued(responses: seq<Option<Response>>, i: nat, maxActions: int)
    requires i < |responses|
  {
    Actions(responses[i]) != [] && !RequiresUserInput(responses[i])
    && ActionsUpTo(responses, i + 1) < maxActions
  }

  /** The task loop went on after each of the first `turns` turns. */
  predicate WentOn(responses: seq<Option<Response>>, turns: nat, maxActions: int)
    requires turns <= |responses|
  {
    turns == 0 || (WentOn(responses, turns - 1, maxActions) && Continued(responses, turns - 1, maxActions))
  }

  /** A turn taken after turns the loop went on from leaves them continued. */
  lemma {:induction false} ContinuedStays(responses: seq<Option<Response>>, next: Option<Response>, turns: nat,
                                          maxActions: int)
    requires turns <= |responses| && WentOn(responses, turns, maxActions)
    ensures WentOn(responses + [next], turns, maxActions)
  {
    if turns > 0 {
      ContinuedStays(responses, next, turns - 1, maxActions);
      assert (responses + [next])[turns - 1] == responses[turns - 1];
      ActionsUpToStays(responses, next, turns);
    }
  }

  /** The task loop may take another turn after these responses: it went on after every
      earlier turn, and the last response had actions or needs input. */
  predicate Running(responses: seq<Option<Response>>, maxActions: int)
  {
    responses != [] ==>
      WentOn(responses, |responses| - 1, maxActions)
      && (Actions(responses[|responses| - 1]) != [] || RequiresUserInput(responses[|responses| - 1]))
  }

  /** Taking the next turn means the loop went on after the last one: it had actions, needs
      no input and the count is below the budget. */
  lemma GoesOn(responses: seq<Option<Response>>, maxActions: int)
    requires Running(responses, maxActions) && ActionsUpTo(responses, |responses|) < maxActions
    requires responses != [] ==> !RequiresUserInput(responses[|responses| - 1])
    ensures WentOn(responses, |responses|, maxActions)
  {
  }

  /** The response of one more turn: the earlier turns stay continued and the count grows
      by its actions. */
  lemma OneMore(responses: seq<Option<Response>>, next: Option<Response>, maxActions: int)
    requires WentOn(responses, |responses|, maxActions)
    ensures WentOn(responses + [next], |responses|, maxActions)
    ensures ActionsUpTo(responses + [next], |responses| + 1) == ActionsUpTo(responses, |responses|) + |Actions(next)|
  {
    ContinuedStays(responses, next, |responses|, maxActions);
    ActionsUpToStays(responses, next, |responses|);
  }

  /** Every turn the loop went on after had actions, and each left the count below the
      budget. */
  lemma {:induction false} WentOnCounts(responses: seq<Option<Response>>, turns: nat, maxActions: int)
    requires turns <= |responses| && WentOn(responses, turns, maxActions)
    ensures ActionsUpTo(responses, turns) >= turns
    ensures turns > 0 ==> ActionsUpTo(responses, turns) < maxActions
  {
    if turns > 0 {
      WentOnCounts(responses, turns - 1, maxActions);
    }
  }

  /** The budget bounds the turns: a run makes at most `maxActions` continue_task calls, and
      at most one more than the actions it counted. */
  lemma TurnsWithinBudget(responses: seq<Option<Response>>, turns: nat, failed: bool, maxActions: int)
    requires |responses| == (if failed then turns - 1 else turns)
    requires turns > 0 ==> maxActions > 0
    requires failed ==> WentOn(responses, |responses|, maxActions)
    requires !failed && responses != [] ==> WentOn(responses, |responses| - 1, maxActions)
    ensures turns <= TurnBound(maxActions) && turns <= ActionsUpTo(responses, |responses|) + 1
  {
    if failed {
      WentOnCounts(responses, |responses|, maxActions);
    } else if responses != [] {
      WentOnCounts(responses, |responses| - 1, maxActions);
    }
  }

  /** The task loop stopped after the last turn: the budget was spent, or that response
      needed input or had no actions; with no turn, the budget allowed none or there were
      no instructions to start from. */
  predicate Stopped(responses: seq<Option<Response>>, maxActions: int, instructions: string)
  {
    if responses == [] then maxActions <= 0 || instructions == ""
    else
      var last := responses[|responses| - 1];
      ActionsUpTo(responses, |responses|) >= maxActions || RequiresUserInput(last) || Actions(last) == []
  }

  /** `_get_user_consent`: consent is given, under autoplay or not. */
  function GetUserConsent(autoplay: bool): (consent: bool)
    ensures consent
  {
    if autoplay then true else true
  }

  /** `_handle_safety_checks`: the checks are acknowledged, under autoplay or not. */
  function HandleSafetyChecks(autoplay: bool, checks: seq<string>): (acknowledged: bool)
    ensures acknowledged
  {
    if autoplay then true else true
  }

  class ComputerUseAssistant {
    const config: Config
    var computer: Scaler?
    var agent: Agent?

    ghost predicate Valid()
      reads this, agent, computer, if computer != null then {computer.computer} else {}
    {
      (agent == null <==> computer == null)
      && (agent != null ==> agent.computer == computer && agent.Valid())
    }

    constructor (config: Config)
      ensures Valid() && this.config == config && agent == null && computer == null
    {
      this.config := config;
      computer := null;
      agent := null;
    }

    /** `initialize`: the client and the local computer are given; the computer is wrapped
        in a scaler with the configured dimensions, and a new agent drives it. */
    method Initialize(client: Client, local: LocalComputer,
                      decodes: string -> bool, invoke: (nat, string) -> Result<string, string>)
      requires local.Valid()
      modifies this`computer, this`agent
      ensures Valid() && agent != null && fresh(agent) && fresh(computer)
      ensures computer.computer == local && computer.size == config.scaleDimensions
      ensures agent.client == client && agent.model == config.model
      ensures agent.response == None && agent.tools == []
    {
      computer := new Scaler(local, config.scaleDimensions);
      agent := new Agent(client, config.model, computer, decodes, invoke);
    }

    /** One turn of the task loop: a continue_task call without temperature, then the
        consent and safety prompts and the count of the response's actions. The response it
        keeps is the agent's next recorded response; `stop` says the loop ends after it. */
    method TakeTurn(userInput: string) returns (r: Result<nat, AgentError>, stop: bool)
      requires Valid() && agent != null
      modifies agent, agent.client, agent.computer, agent.computer.computer
      ensures Valid()
      ensures agent.kept == old(agent.kept) + [agent.response]
      ensures r.Ok? ==> r.value == |Actions(agent.response)|
      ensures r.Ok? ==> (stop <==> !RequiresUserInput(agent.response) && Actions(agent.response) == [])
    {
      var counted: nat := 0;
      var sent := agent.ContinueTask(userInput, None);
      if sent.Err? {
        return Err(sent.error), false;
      }
      if RequiresConsent(agent.response) && !config.autoplay && config.requireConsent {
        if !GetUserConsent(config.autoplay) {
          return Ok(counted), true;
        }
      }
      if PendingSafetyChecks(agent.response) != [] && !config.autoplay && config.safetyChecksEnabled {
        if !HandleSafetyChecks(config.autoplay, PendingSafetyChecks(agent.response)) {
          return Ok(counted), true;
        }
      }
      var actions := Actions(agent.response);
      counted := |actions|;
      stop := !RequiresUserInput(agent.response) && actions == [];
      return Ok(counted), stop;
    }

    /** The final screenshot of a run; a failed capture is swallowed. */
    method CaptureFinal() returns (screenshots: seq<Shot>)
      requires Valid() && agent != null
      modifies agent.computer, agent.computer.computer
      ensures Valid() && |screenshots| <= 1
    {
      screenshots := [];
      var shot := agent.computer.Screenshot();
      if shot.Ok? {
        screenshots := screenshots + [shot.value];
      }
    }

    /** The loop of `execute_instructions`, after start_task: the instructions go with the
        first turn only; every turn adds its actions to the count; the loop stops when input
        is needed and none is left, when a turn has no actions and needs no input, or once
        the budget is spent. A failed turn ends it with `failure`. `turns` counts the
        continue_task calls, `messages` are the user messages they were given and
        `responses` the responses of the turns that completed. */
    method TaskLoop(instructions: string)
      returns (failure: Option<AgentError>, actionsTaken: nat, ghost turns: nat, ghost messages: seq<string>,
               ghost responses: seq<Option<Response>>)
      requires Valid() && agent != null
      modifies agent, agent.client, agent.computer, agent.computer.computer
      ensures Valid()
      ensures messages == MessagesSent(instructions, turns) && actionsTaken == ActionsUpTo(responses, |responses|)
      ensures turns > 0 ==> config.maxActions > 0
      ensures failure == None ==>
                |responses| == turns && agent.kept == old(agent.kept) + responses
                && (responses != [] ==> agent.response == responses[|responses| - 1])
                && Stopped(responses, config.maxActions, instructions)
                && (responses != [] ==> WentOn(responses, |responses| - 1, config.maxActions))
                && (actionsTaken < config.maxActions ==> RequiresUserInput(agent.response) || Actions(agent.response) == [])
      ensures failure != None ==>
                |responses| == turns - 1 && agent.kept == old(agent.kept) + responses + [agent.response]
                && WentOn(responses, |responses|, config.maxActions)
    {
      turns, messages, responses := 0, [], [];
      actionsTaken, failure := 0, None;
      var maxActions := config.maxActions;
      ghost var kept0 := agent.kept;
      var userInput := instructions;
      while actionsTaken < maxActions
        invariant Valid() && agent != null
        invariant userInput == if responses == [] then instructions else ""
        invariant messages == MessagesSent(instructions, |responses|)
        invariant responses != [] ==> maxActions > 0
        invariant actionsTaken == ActionsUpTo(responses, |responses|)
        invariant agent.kept == kept0 + responses
        invariant responses != [] ==> agent.response == responses[|responses| - 1]
        invariant Running(responses, maxActions) && failure == None
        decreases maxActions - actionsTaken, if responses != [] && RequiresUserInput(responses[|responses| - 1]) then 0 else 1
      {
        if userInput == "" && RequiresUserInput(agent.response) {
          break;
        }
        GoesOn(responses, maxActions);
        var turn, stop := TakeTurn(userInput);
        messages := messages + [userInput];
        if turn.Err? {
          failure, turns := Some(turn.error), |responses| + 1;
          break;
        }
        userInput := "";
        actionsTaken := actionsTaken + turn.value;
        OneMore(responses, agent.response, maxActions);
        responses := responses + [agent.response];
        if stop || actionsTaken >= maxActions {
          break;
        }
      }
      if failure == None {
        turns := |responses|;
      }
    }

    /** `execute_instructions`: refuses to run before `initialize`; otherwise starts the
        task, runs the task loop and reports success with the final screenshot, or failure
        with the count reached when a turn fails. */
    method ExecuteInstructions(instructions: string)
      returns (r: Result<ExecutionResult, AssistantError>, ghost turns: nat, ghost messages: seq<string>,
               ghost responses: seq<Option<Response>>)
      requires Valid()
      modifies if agent != null then {agent, agent.client, agent.computer, agent.computer.computer} else {}
      ensures agent == null <==> r == Err(NotInitialized)
      ensures Valid()
      ensures r.Ok? ==> messages == MessagesSent(instructions, turns)
      ensures r.Ok? ==> turns <= TurnBound(config.maxActions) && turns <= r.value.actionsTaken + 1
      ensures r.Ok? ==> r.value.actionsTaken == ActionsUpTo(responses, |responses|)
      ensures r.Ok? ==> |responses| == (if r.value.success then turns else turns - 1)
      ensures r.Ok? ==> agent.kept == old(agent.kept) + responses + (if r.value.success then [] else [agent.response])
      ensures r.Ok? && r.value.success && responses != [] ==> agent.response == responses[|responses| - 1]
      ensures r.Ok? && r.value.success ==>
                Stopped(responses, config.maxActions, instructions)
                && (responses != [] ==> WentOn(responses, |responses| - 1, config.maxActions))
      ensures r.Ok? && !r.value.success ==> WentOn(responses, |responses|, config.maxActions)
      ensures r.Ok? && r.value.success ==>
                r.value.summary == SuccessSummary(r.value.actionsTaken) && r.value.failure == None
                && |r.value.screenshots| <= 1
      ensures r.Ok? && r.value.success && r.value.actionsTaken < config.maxActions ==>
                RequiresUserInput(agent.response) || Actions(agent.response) == []
      ensures r.Ok? && !r.value.success ==>
                r.value.summary == FailureSummary(r.value.actionsTaken) && r.value.failure.Some?
                && r.value.screenshots == []
    {
      turns, messages, responses := 0, [], [];
      if agent == null {
        return Err(NotInitialized), turns, messages, responses;
      }
      agent.StartTask();
      var failure, actionsTaken;
      failure, actionsTaken, turns, messages, responses := TaskLoop(instructions);
      TurnsWithinBudget(responses, turns, failure.Some?, config.maxActions);
      if failure.Some? {
        return Ok(ExecutionResult(false, FailureSummary(actionsTaken), actionsTaken, failure, [])),
               turns, messages, responses;
      }
      var screenshots := CaptureFinal();
      r := Ok(ExecutionResult(true, SuccessSummary(actionsTaken), actionsTaken, None, screenshots));
    }
  }
}
