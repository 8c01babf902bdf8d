/** The test agent's context manager (src/core/context_manager.py): a bounded history of
    the actions taken, the context handed to the vision service, and the goal of the
    swap test derived from the last action. Timestamps are given by the caller. */
module Context {
  import opened Wrappers
  import opened Text

  /** `ContextEntry` */
  datatype Entry = Entry(timestamp: string, action: string, result: string,
                         screenState: Option<string>, confidence: real)

  /** One element of `get_recent_history`: an entry without its screen state. */
  datatype Recent = Recent(timestamp: string, action: string, result: string, confidence: real)

  function View(e: Entry): Recent
  {
    Recent(e.timestamp, e.action, e.result, e.confidence)
  }

  function Views(entries: seq<Entry>): (r: seq<Recent>)
    ensures |r| == |entries| && forall i :: 0 <= i < |r| ==> r[i] == View(entries[i])
  {
    seq(|entries|, i requires 0 <= i < |entries| => View(entries[i]))
  }

  /** The `current_state` dictionary: the keys the context manager reads, when present. */
  datatype State = State(scenario: Option<string>, iteration: Option<int>, totalIterations: Option<int>,
                         controllers: Option<string>, network: Option<string>)

  function GetOr<T>(o: Option<T>, default: T): T
  {
    if o.Some? then o.value else default
  }

  /** The most entries a history bounded by `maxHistory` holds. */
  function Cap(maxHistory: int): nat
  {
    if maxHistory > 0 then maxHistory else 0
  }

  /** The newest `n` elements of `s`, in order (all of `s` when it is shorter). */
  function Newest<T>(s: seq<T>, n: nat): seq<T>
  {
    if n < |s| then s[|s| - n..] else s
  }

  /** Python's `s[start:]` for an integer start: a negative start counts from the end, and
      either kind is clipped to the sequence. */
  function SliceFrom<T>(s: seq<T>, start: int): seq<T>
  {
    if start >= 0 then (if start <= |s| then s[start..] else [])
    else if -start <= |s| then s[|s| + start..]
    else s
  }

  /** The five steps `build_context` lists for the swap test. */
  const ExpectedSequence: seq<string> := ["Navigate to System Status", "Select target network",
                                          "Initiate controller swap", "Wait for completion", "Verify success"]

  /** The goal that follows a swap-test action, from keywords of the action (given lower-cased)
      in priority order. */
  function SwapGoal(a: string, iteration: int): string
  {
    if Contains(a, "navigate") && Contains(a, "system status") then "Select target network (UCN 07)"
    else if Contains(a, "select") && Contains(a, "network") then "Initiate controller swap"
    else if Contains(a, "initiate") && Contains(a, "swap") then "Wait for swap completion"
    else if Contains(a, "wait") then "Verify swap success"
    else "Continue swap test iteration " + IntToString(iteration)
  }

  /** `_determine_current_goal`: the scenario and iteration come from the state only
      ("unknown" and 0 when absent). */
  function Goal(state: State, history: seq<Entry>): (goal: string)
    ensures GetOr(state.scenario, "unknown") != "swap_test" ==>
              goal == "Execute " + GetOr(state.scenario, "unknown")
    ensures GetOr(state.scenario, "unknown") == "swap_test" && history == [] ==>
              goal == "Navigate to System Status screen"
    ensures GetOr(state.scenario, "unknown") == "swap_test" && history != [] ==>
              goal == SwapGoal(Lower(history[|history| - 1].action), GetOr(state.iteration, 0))
  {
    var scenario := GetOr(state.scenario, "unknown");
    if scenario == "swap_test" then
      if history == [] then "Navigate to System Status screen"
      else SwapGoal(Lower(history[|history| - 1].action), GetOr(state.iteration, 0))
    else "Execute " + scenario
  }

  /** The swap-test part of the context. */
  datatype SwapDetails = SwapDetails(controllers: string, network: string, expectedSequence: seq<string>)

  /** The dictionary `build_context` returns. */
  datatype AiContext = AiContext(scenario: Option<string>, iteration: int, totalIterations: int,
                                 history: seq<Recent>, currentGoal: string, timestamp: string,
                                 swap: Option<SwapDetails>)

  /** `get_context_summary` */
  datatype Summary = Summary(scenario: Option<string>, iteration: int, historyLength: nat,
                             lastAction: Option<string>, lastResult: Option<string>)

  class ContextManager {
    const maxHistory: int
    var history: seq<Entry>
    var currentScenario: Option<string>
    var currentIteration: int

    /** The history never holds more than `maxHistory` entries. */
    ghost predicate Valid()
      reads this
    {
      |history| <= Cap(maxHistory)
    }

    constructor (maxHistory: int)
      ensures Valid() && this.maxHistory == maxHistory
      ensures history == [] && currentScenario == None && currentIteration == 0
    {
      this.maxHistory := maxHistory;
      history := [];
      currentScenario := None;
      currentIteration := 0;
    }

    /** `add_entry`: append, then drop the oldest entry once the bound is exceeded; the
        history is then the newest entries, the new one last. */
    method AddEntry(entry: Entry)
      requires Valid()
      modifies this`history
      ensures Valid()
      ensures history == Newest(old(history) + [entry], Cap(maxHistory))
    {
      history := history + [entry];
      if |history| > maxHistory {
        history := history[1..];
      }
    }

    /** `set_scenario` */
    method SetScenario(scenario: string, iteration: int)
      modifies this`currentScenario, this`currentIteration
      ensures currentScenario == Some(scenario) && currentIteration == iteration
    {
      currentScenario := Some(scenario);
      currentIteration := iteration;
    }

    /** `clear_history` */
    method ClearHistory()
      modifies this`history
      ensures Valid() && history == []
    {
      history := [];
    }

    /** `get_recent_history`: the last `count` entries in order; the whole history when
        `count` is 0 (the slice `[-0:]`) or exceeds its length; for a negative count, the
        history without its first `-count` entries. */
    function GetRecentHistory(count: int): (r: seq<Recent>)
      reads this
      ensures 1 <= count <= |history| ==> r == Views(history[|history| - count..])
      ensures count == 0 || count > |history| ==> r == Views(history)
      ensures count < 0 ==> r == Views(if -count <= |history| then history[-count..] else [])
    {
      var recent := if |history| >= count then SliceFrom(history, -count) else history;
      Views(recent)
    }

    /** `build_context`: scenario and iteration from the state, else the stored ones;
        `total_iterations` defaults to 1; the last five entries; the swap-test details only
        for that scenario. */
    function BuildContext(state: State, timestamp: string): (c: AiContext)
      reads this
      ensures c.scenario == if state.scenario.Some? then state.scenario else currentScenario
      ensures c.iteration == GetOr(state.iteration, currentIteration)
      ensures c.totalIterations == GetOr(state.totalIterations, 1)
      ensures c.history == GetRecentHistory(5) && |c.history| == if |history| < 5 then |history| else 5
      ensures c.currentGoal == Goal(state, history)
      ensures c.swap.Some? <==> c.scenario == Some("swap_test")
      ensures c.swap.Some? ==>
                c.swap.value.controllers == GetOr(state.controllers, "17 HPM 18")
                && c.swap.value.network == GetOr(state.network, "UCN 07")
                && |c.swap.value.expectedSequence| == 5
    {
      var scenario := if state.scenario.Some? then state.scenario else currentScenario;
      var swap := if scenario == Some("swap_test")
                  then Some(SwapDetails(GetOr(state.controllers, "17 HPM 18"), GetOr(state.network, "UCN 07"),
                                        ExpectedSequence))
                  else None;
      AiContext(scenario, GetOr(state.iteration, currentIteration), GetOr(state.totalIterations, 1),
                GetRecentHistory(5), Goal(state, history), timestamp, swap)
    }

    /** `get_context_summary`: no last action or result for an empty history. */
    function GetContextSummary(): (s: Summary)
      reads this
      ensures s.scenario == currentScenario && s.iteration == currentIteration && s.historyLength == |history|
      ensures s.lastAction.None? <==> history == []
      ensures s.lastResult.None? <==> history == []
      ensures history != [] ==> s.lastAction == Some(history[|history| - 1].action)
                                && s.lastResult == Some(history[|history| - 1].result)
    {
      Summary(currentScenario, currentIteration, |history|,
              if history != [] then Some(history[|history| - 1].action) else None,
              if history != [] then Some(history[|history| - 1].result) else None)
    }
  }

  /** The history bound: adding to a full history keeps its length, adding to a shorter one
      grows it by one, and the new entry is kept whenever the bound is positive. */
  lemma NewestAfterAdd<T>(s: seq<T>, e: T, n: nat)
    requires |s| <= n
    ensures |Newest(s + [e], n)| == if |s| < n then |s| + 1 else n
    ensures n > 0 ==> Newest(s + [e], n)[|Newest(s + [e], n)| - 1] == e
  {
  }

  /** A word holding a character the text lacks does not occur in the text. */
  lemma NotContained(s: string, p: string, c: char)
    requires c in p && c !in s
    ensures !Contains(s, p)
  {
  }

  lemma NavigateLetters(a: string)
    requires a == "navigate to system status"
    ensures OccursAt(a, "navigate", 0) && OccursAt(a, "system status", 12)
  {
  }

  lemma SelectLetters(a: string)
    requires a == "select target network"
    ensures 'v' !in a && OccursAt(a, "select", 0) && OccursAt(a, "network", 14)
  {
  }

  lemma InitiateLetters(a: string)
    requires a == "initiate controller swap"
    ensures 'v' !in a && 'k' !in a && OccursAt(a, "initiate", 0) && OccursAt(a, "swap", 20)
  {
  }

  lemma WaitLetters(a: string)
    requires a == "wait for completion"
    ensures 'v' !in a && 'k' !in a && 's' !in a && OccursAt(a, "wait", 0)
  {
  }

  /** After navigating to System Status, the goal is to select the network. */
  lemma GoalAfterNavigate(iteration: int)
    ensures SwapGoal(Lower(ExpectedSequence[0]), iteration) == "Select target network (UCN 07)"
  {
    var a := Lower(ExpectedSequence[0]);
    assert a == "navigate to system status";
    NavigateLetters(a);
  }

  /** After selecting the network, the goal is to initiate the swap. */
  lemma GoalAfterSelect(iteration: int)
    ensures SwapGoal(Lower(ExpectedSequence[1]), iteration) == "Initiate controller swap"
  {
    var a := Lower(ExpectedSequence[1]);
    assert a == "select target network";
    SelectLetters(a);
    NotContained(a, "navigate", 'v');
  }

  /** After initiating the swap, the goal is to wait for it. */
  lemma GoalAfterInitiate(iteration: int)
    ensures SwapGoal(Lower(ExpectedSequence[2]), iteration) == "Wait for swap completion"
  {
    var a := Lower(ExpectedSequence[2]);
    assert a == "initiate controller swap";
    InitiateLetters(a);
    NotContained(a, "navigate", 'v');
    NotContained(a, "network", 'k');
  }

  /** After waiting, the goal is to verify the swap. */
  lemma GoalAfterWait(iteration: int)
    ensures SwapGoal(Lower(ExpectedSequence[3]), iteration) == "Verify swap success"
  {
    var a := Lower(ExpectedSequence[3]);
    assert a == "wait for completion";
    WaitLetters(a);
    NotContained(a, "navigate", 'v');
    NotContained(a, "network", 'k');
    NotContained(a, "swap", 's');
  }

  /** The goal depends on the last action only, and on its letters regardless of case. */
  lemma GoalIgnoresCase(state: State, history: seq<Entry>, entry: Entry, action: string)
    requires Lower(action) == Lower(entry.action)
    ensures Goal(state, history + [entry]) == Goal(state, [entry.(action := action)])
  {
  }
}
