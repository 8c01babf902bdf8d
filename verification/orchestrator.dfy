/** The test agent's orchestrator (src/core/agent_orchestrator.py): it starts the modules,
    checks that the application is ready, runs the controller swap test iteration by
    iteration, polls the screen until it changes or the swap completes, and reports the
    result. The screen captures and the vision service are a script of analyses, answered
    in order; actions go to the action executor; the clock is given by the caller. */
module Orchestrator {
  import opened Wrappers
  import opened Text
  import opened JsonValues
  import opened CoreSettings
  import opened Executor
  import opened Reporter

  /** The screen analyses the orchestrator asks for (the prompt texts are not modelled). */
  datatype Prompt =
    | ApplicationCheck
    | Navigation
    | NetworkSelection
    | SwapStart
    | StatusCheck
    | ScreenCheck(expected: string)
    | SwapVerification
    | RecoveryQuestion

  /** The exceptions that end a run. */
  datatype Failure =
    | StartupFailed(reason: string)
    | AnalysisFailed(reason: string)
    | NotReady(why: Json)
    | UnknownScenario(name: string)
    | NotImplemented(message: string)
    | ActionFailed(error: ExecError)
    | SwapError(detail: Json)
    | SwapTimeout(limit: real)
    | ScreenTimeout(expected: string, limit: real)
    | SwapNotVerified(why: Json)

  /** `str()` of a JSON value, for the values a message can show. */
  function ShowJson(v: Json): string
  {
    match v
    case JNull => "None"
    case JBool(b) => if b then "True" else "False"
    case JInt(i) => IntToString(i)
    case JStr(s) => s
    case _ => "<value>"
  }

  /** `str(e)` of a failure. */
  function Describe(f: Failure): string
  {
    match f
    case StartupFailed(reason) => reason
    case AnalysisFailed(reason) => reason
    case NotReady(reason) => "Application not ready: " + ShowJson(reason)
    case UnknownScenario(name) => "Unknown scenario: " + name
    case NotImplemented(message) => message
    case ActionFailed(NotADict) => "Action is not a dictionary"
    case ActionFailed(TypeMissing) => "Action type not specified"
    case ActionFailed(Failed(t, _)) => "Failed to execute " + ShowJson(t)
    case SwapError(message) => "Error detected during swap: " + ShowJson(message)
    case SwapTimeout(_) => "Swap did not complete within the timeout"
    case ScreenTimeout(expected, _) => "Screen did not change to " + expected + " within the timeout"
    case SwapNotVerified(reason) => "Swap verification failed: " + ShowJson(reason)
  }

  /** `TestResult` */
  datatype TestResult = TestResult(success: bool, summary: string, errorMessage: Option<string>,
                                   iterationsCompleted: int, totalTime: real, logFilePath: Option<string>)

  /** The result `run` builds from an exception. */
  function ErrorResult(f: Failure, currentIteration: int, totalTime: real): TestResult
  {
    TestResult(false, "Test failed: " + Describe(f), Some(Describe(f)), currentIteration, totalTime, None)
  }

  /** The result of the swap test after `successful` of `count` swaps succeeded. */
  function SwapResult(successful: nat, count: int, totalTime: real): (r: TestResult)
    ensures r.success <==> successful == count
    ensures r.iterationsCompleted == successful
    ensures r.errorMessage.None? <==> r.success
  {
    if successful == count then
      TestResult(true, "All " + NatToString(successful) + " swaps completed successfully", None,
                 successful, totalTime, None)
    else
      TestResult(false, "Only " + NatToString(successful) + "/" + IntToString(count) + " swaps completed",
                 Some("Failed after " + NatToString(successful) + " successful iterations"),
                 successful, totalTime, None)
  }

  /** The `n`-th screen analysis (capture and request) as the script answers it; beyond
      the script the service fails. */
  function Answer(analyses: seq<Result<Dict, string>>, n: nat): (r: Result<Dict, Failure>)
    ensures r.Ok? ==> n < |analyses|
  {
    if n < |analyses| then
      (if analyses[n].Ok? then Ok(analyses[n].value) else Err(AnalysisFailed(analyses[n].error)))
    else Err(AnalysisFailed("no answer"))
  }

  /** What a polling loop waits for: the expected screen, or the end of the swap. */
  datatype WaitKind = ForScreen(expected: string) | ForCompletion

  function PromptFor(kind: WaitKind): Prompt
  {
    match kind
    case ForScreen(expected) => ScreenCheck(expected)
    case ForCompletion => StatusCheck
  }

  function Timeout(kind: WaitKind, limit: real): Failure
  {
    match kind
    case ForScreen(expected) => ScreenTimeout(expected, limit)
    case ForCompletion => SwapTimeout(limit)
  }

  /** What one answer decides: the screen matches; the swap completed or showed an error;
      None to poll again. */
  function Verdict(kind: WaitKind, answer: Dict): Option<Result<(), Failure>>
  {
    match kind
    case ForScreen(_) => if Flag(answer, "screen_matches") then Some(Ok(())) else None
    case ForCompletion =>
      if Flag(answer, "swap_completed") then Some(Ok(()))
      else if Flag(answer, "error_detected") then Some(Err(SwapError(Get(answer, "error_message", JNull))))
      else None
  }

  /** A polling loop that starts at the `n`-th analysis with `elapsed` seconds spent: its
      outcome and the number of analyses it makes. */
  function Poll(analyses: seq<Result<Dict, string>>, n: nat, elapsed: real, limit: real, interval: real,
                kind: WaitKind): (Result<(), Failure>, nat)
    decreases |analyses| - n
  {
    if elapsed >= limit then (Err(Timeout(kind, limit)), 0)
    else
      var a := Answer(analyses, n);
      if a.Err? then (Err(a.error), 1)
      else
        var v := Verdict(kind, a.value);
        if v.Some? then (v.value, 1)
        else
          var rest := Poll(analyses, n + 1, elapsed + interval, limit, interval, kind);
          (rest.0, rest.1 + 1)
  }

  /** With a positive interval, a loop that has spent `elapsed` seconds polls at most
      ceil((limit - elapsed) / interval) times: before its last poll less than `limit`
      seconds had passed. */
  lemma {:induction false} PollBound(analyses: seq<Result<Dict, string>>, n: nat, elapsed: real, limit: real,
                                     interval: real, kind: WaitKind)
    requires interval > 0.0
    ensures var k := Poll(analyses, n, elapsed, limit, interval, kind).1;
            k == 0 || elapsed + (k - 1) as real * interval < limit
    decreases |analyses| - n
  {
    var k := Poll(analyses, n, elapsed, limit, interval, kind).1;
    if elapsed < limit && Answer(analyses, n).Ok? && Verdict(kind, Answer(analyses, n).value).None? {
      PollBound(analyses, n + 1, elapsed + interval, limit, interval, kind);
      var j := Poll(analyses, n + 1, elapsed + interval, limit, interval, kind).1;
      assert k == j + 1;
      assert j == 0 || elapsed + interval + (j - 1) as real * interval < limit;
    }
  }

  /** A loop times out only once the time spent reaches the limit, after every analysis it
      made answered without deciding. */
  lemma {:induction false} PollTimeout(analyses: seq<Result<Dict, string>>, n: nat, elapsed: real, limit: real,
                                       interval: real, kind: WaitKind)
    requires Poll(analyses, n, elapsed, limit, interval, kind).0 == Err(Timeout(kind, limit))
    ensures var k := Poll(analyses, n, elapsed, limit, interval, kind).1;
            elapsed + k as real * interval >= limit
            && forall i :: n <= i < n + k ==> Answer(analyses, i).Ok? && Verdict(kind, Answer(analyses, i).value).None?
    decreases |analyses| - n
  {
    if elapsed < limit {
      var a := Answer(analyses, n);
      if a.Err? {
        assert false;
      }
      var v := Verdict(kind, a.value);
      if v.Some? {
        assert false;
      }
      PollTimeout(analyses, n + 1, elapsed + interval, limit, interval, kind);
    }
  }

  /** A loop that ends otherwise ends on the answer of its last analysis: every earlier one
      answered without deciding. */
  lemma {:induction false} PollDecided(analyses: seq<Result<Dict, string>>, n: nat, elapsed: real, limit: real,
                                       interval: real, kind: WaitKind)
    requires Poll(analyses, n, elapsed, limit, interval, kind).0 != Err(Timeout(kind, limit))
    ensures var (r, k) := Poll(analyses, n, elapsed, limit, interval, kind);
            k >= 1
            && (forall i :: n <= i < n + k - 1 ==> Answer(analyses, i).Ok? && Verdict(kind, Answer(analyses, i).value).None?)
            && var a := Answer(analyses, n + k - 1);
               (a.Err? ==> r == Err(a.error)) && (a.Ok? ==> Verdict(kind, a.value) == Some(r))
    decreases |analyses| - n
  {
    var a := Answer(analyses, n);
    if a.Ok? && Verdict(kind, a.value).None? {
      PollDecided(analyses, n + 1, elapsed + interval, limit, interval, kind);
    }
  }

  /** With a non-positive interval the time counted never grows, so a loop that starts
      below its limit never times out: it ends only on an answer that decides or on a
      failing analysis, and as long as the answers do not decide it asks for more. */
  lemma StalledPollNeverTimesOut(analyses: seq<Result<Dict, string>>, n: nat, limit: real, interval: real,
                                 kind: WaitKind)
    requires interval <= 0.0 && limit > 0.0
    ensures Poll(analyses, n, 0.0, limit, interval, kind).0 != Err(Timeout(kind, limit))
  {
    if Poll(analyses, n, 0.0, limit, interval, kind).0 == Err(Timeout(kind, limit)) {
      PollTimeout(analyses, n, 0.0, limit, interval, kind);
      var k := Poll(analyses, n, 0.0, limit, interval, kind).1;
      NotPositiveTimes(k, interval);
      assert false;
    }
  }

  lemma NotPositiveTimes(k: nat, interval: real)
    requires interval <= 0.0
    ensures k as real * interval <= 0.0
  {
  }

  /** Under the intended validation both waits are bounded by their limits, whatever the
      screens show: a loop polls at most ceil(limit / interval) times. */
  lemma IntendedValidationBoundsPolls(config: Config, executableExists: bool,
                                      analyses: seq<Result<Dict, string>>, n: nat, kind: WaitKind)
    requires ValidateConfigIntended(config, executableExists) == []
    ensures var k := Poll(analyses, n, 0.0, config.screenChangeTimeout, config.screenPollInterval, kind).1;
            k == 0 || (k - 1) as real * config.screenPollInterval < config.screenChangeTimeout
    ensures var k := Poll(analyses, n, 0.0, config.swapCompletionTimeout, config.statusPollInterval, kind).1;
            k == 0 || (k - 1) as real * config.statusPollInterval < config.swapCompletionTimeout
  {
    IntendedRejectsStalledPolls(config, executableExists);
    PollsWithin(analyses, n, config, kind);
  }

  /** With positive intervals both waits poll at most ceil(limit / interval) times. */
  lemma PollsWithin(analyses: seq<Result<Dict, string>>, n: nat, config: Config, kind: WaitKind)
    requires config.screenPollInterval > 0.0 && config.statusPollInterval > 0.0
    ensures var k := Poll(analyses, n, 0.0, config.screenChangeTimeout, config.screenPollInterval, kind).1;
            k == 0 || (k - 1) as real * config.screenPollInterval < config.screenChangeTimeout
    ensures var k := Poll(analyses, n, 0.0, config.swapCompletionTimeout, config.statusPollInterval, kind).1;
            k == 0 || (k - 1) as real * config.statusPollInterval < config.swapCompletionTimeout
  {
    PollBound(analyses, n, 0.0, config.screenChangeTimeout, config.screenPollInterval, kind);
    PollBound(analyses, n, 0.0, config.swapCompletionTimeout, config.statusPollInterval, kind);
  }

  /** What the orchestrator's parts are run against: its configuration, the script of
      analyses, and what the action executor does with an action (its platform and
      controllers do not change during a test). */
  datatype Setup = Setup(config: Config, analyses: seq<Result<Dict, string>>, perform: Json -> Effect<ExecError>)

  /** What a part of the test did: its outcome, the analyses it asked for and the actions it
      handed to the executor. */
  datatype Course = Course(result: Result<(), Failure>, asked: seq<Prompt>, handed: seq<Json>)

  /** The orchestrator's record: the analyses asked for, the actions handed over and the
      executor's input events. */
  datatype Trail = Trail(prompts: seq<Prompt>, handed: seq<Json>, events: seq<InputEvent>)

  /** The input events the executor emits for the actions handed to it, in order. */
  function Performed(s: Setup, actions: seq<Json>): seq<InputEvent>
  {
    if actions == [] then []
    else Performed(s, actions[..|actions| - 1]) + s.perform(actions[|actions| - 1]).events
  }

  lemma {:induction false} PerformedAppend(s: Setup, a: seq<Json>, b: seq<Json>)
    ensures Performed(s, a + b) == Performed(s, a) + Performed(s, b)
    decreases |b|
  {
    if b == [] {
      assert a + b == a;
    } else {
      assert (a + b)[..|a + b| - 1] == a + b[..|b| - 1];
      PerformedAppend(s, a, b[..|b| - 1]);
    }
  }

  lemma PerformedOne(s: Setup, action: Json)
    ensures Performed(s, [action]) == s.perform(action).events
  {
    assert [action][..0] == [];
  }

  /** The record after a part of the test has run. */
  function After(t: Trail, s: Setup, c: Course): Trail
  {
    Trail(t.prompts + c.asked, t.handed + c.handed, t.events + Performed(s, c.handed))
  }

  /** `first`, then, when it succeeded, `next`. */
  function Then(first: Course, next: Course): (c: Course)
    ensures first.result.Err? ==> c == first
    ensures first.result.Ok? ==> c.result == next.result
  {
    if first.result.Err? then first
    else Course(next.result, first.asked + next.asked, first.handed + next.handed)
  }

  /** What a part did, whatever its outcome. */
  function Done(c: Course): Course
  {
    Course(Ok(()), c.asked, c.handed)
  }

  /** Running two parts one after the other leaves the record their sequence describes. */
  lemma AfterThen(t: Trail, s: Setup, first: Course, next: Course)
    requires first.result.Ok?
    ensures After(After(t, s, first), s, next) == After(t, s, Then(first, next))
  {
    PerformedAppend(s, first.handed, next.handed);
    var p1 := Performed(s, first.handed);
    var p2 := Performed(s, next.handed);
    assert Performed(s, Then(first, next).handed) == p1 + p2;
    assert (t.events + p1) + p2 == t.events + (p1 + p2);
    assert (t.prompts + first.asked) + next.asked == t.prompts + (first.asked + next.asked);
    assert (t.handed + first.handed) + next.handed == t.handed + (first.handed + next.handed);
  }

  /** `_execute_ai_action` */
  function ActionCourse(s: Setup, action: Json): (c: Course)
    ensures c.asked == [] && (s.config.dryRun ==> c == Course(Ok(()), [], []))
    ensures !s.config.dryRun ==> c.handed == [action]
                                 && (c.result.Ok? <==> s.perform(action).failure.None?)
  {
    if s.config.dryRun then Course(Ok(()), [], [])
    else
      var e := s.perform(action);
      Course(if e.failure.Some? then Err(ActionFailed(e.failure.value)) else Ok(()), [], [action])
  }

  /** A polling loop that starts at the `n`-th analysis. */
  function WaitCourse(s: Setup, n: nat, kind: WaitKind, limit: real, interval: real): (c: Course)
    ensures c.handed == [] && forall i :: 0 <= i < |c.asked| ==> c.asked[i] == PromptFor(kind)
    ensures (c.result, |c.asked|) == Poll(s.analyses, n, 0.0, limit, interval, kind)
  {
    var (r, k) := Poll(s.analyses, n, 0.0, limit, interval, kind);
    Course(r, seq(k, _ => PromptFor(kind)), [])
  }

  /** A navigation, selection or swap-start step at the `n`-th analysis: when the answer
      asks for an action, the recommended action runs and, for a step that expects a
      screen, the wait for that screen follows. */
  function StepCourse(s: Setup, n: nat, p: Prompt, screen: Option<string>): (c: Course)
    ensures |c.asked| >= 1 && c.asked[0] == p && forall i :: 1 <= i < |c.asked| ==> c.asked[i].ScreenCheck?
    ensures var a := Answer(s.analyses, n);
            && (a.Err? ==> c == Course(Err(a.error), [p], []))
            && (a.Ok? && !Flag(a.value, "action_needed") ==> c == Course(Ok(()), [p], []))
            && (a.Ok? && Flag(a.value, "action_needed") && !s.config.dryRun ==>
                  c.handed == [Get(a.value, "recommended_action", JNull)])
  {
    var a := Answer(s.analyses, n);
    if a.Err? then Course(Err(a.error), [p], [])
    else if !Flag(a.value, "action_needed") then Course(Ok(()), [p], [])
    else
      var act := ActionCourse(s, Get(a.value, "recommended_action", JNull));
      var acted := Course(act.result, [p], act.handed);
      if screen.None? then acted
      else Then(acted, WaitCourse(s, n + 1, ForScreen(screen.value), s.config.screenChangeTimeout,
                                  s.config.screenPollInterval))
  }

  /** `_verify_swap_success` at the `n`-th analysis. */
  function VerifyCourse(s: Setup, n: nat): Course
  {
    var a := Answer(s.analyses, n);
    var r := if a.Err? then Err(a.error)
             else if Flag(a.value, "swap_successful") then Ok(())
             else Err(SwapNotVerified(Get(a.value, "reason", JNull)));
    Course(r, [SwapVerification], [])
  }

  /** `_execute_single_swap` from the `n`-th analysis: navigate to the system status
      screen, then the rest; the first failure ends the swap. */
  function SwapCourse(s: Setup, n: nat): Course
  {
    var navigated := StepCourse(s, n, Navigation, Some("system_status"));
    Then(navigated, SelectionOnward(s, n + |navigated.asked|))
  }

  /** The swap from the network selection on. */
  function SelectionOnward(s: Setup, n: nat): Course
  {
    var selected := StepCourse(s, n, NetworkSelection, Some("network_status"));
    Then(selected, StartOnward(s, n + |selected.asked|))
  }

  /** The swap from its start on. */
  function StartOnward(s: Setup, n: nat): Course
  {
    var started := StepCourse(s, n, SwapStart, None);
    Then(started, CompletionOnward(s, n + |started.asked|))
  }

  /** The swap from the wait for its completion on: the wait, then the verification. */
  function CompletionOnward(s: Setup, n: nat): Course
  {
    var waited := WaitCourse(s, n, ForCompletion, s.config.swapCompletionTimeout, s.config.statusPollInterval);
    Then(waited, VerifyCourse(s, n + |waited.asked|))
  }

  /** The swap, once its navigation has asked what it asks. */
  lemma SwapUnfolds(s: Setup, n: nat, after: nat)
    requires after == n + |StepCourse(s, n, Navigation, Some("system_status")).asked|
    ensures SwapCourse(s, n) == Then(StepCourse(s, n, Navigation, Some("system_status")), SelectionOnward(s, after))
  {
  }

  /** The swap from the network selection on, once the selection has asked what it asks. */
  lemma SelectionUnfolds(s: Setup, n: nat, after: nat)
    requires after == n + |StepCourse(s, n, NetworkSelection, Some("network_status")).asked|
    ensures SelectionOnward(s, n) == Then(StepCourse(s, n, NetworkSelection, Some("network_status")), StartOnward(s, after))
  {
  }

  /** The swap from its start on, once the start has asked what it asks. */
  lemma StartUnfolds(s: Setup, n: nat, after: nat)
    requires after == n + |StepCourse(s, n, SwapStart, None).asked|
    ensures StartOnward(s, n) == Then(StepCourse(s, n, SwapStart, None), CompletionOnward(s, after))
  {
  }

  /** The swap from the completion wait on, once the wait has asked what it asks. */
  lemma CompletionUnfolds(s: Setup, n: nat, after: nat)
    requires after == n + |WaitCourse(s, n, ForCompletion, s.config.swapCompletionTimeout, s.config.statusPollInterval).asked|
    ensures CompletionOnward(s, n) == Then(WaitCourse(s, n, ForCompletion, s.config.swapCompletionTimeout,
                                                      s.config.statusPollInterval), VerifyCourse(s, after))
  {
  }

  /** Nothing done leaves the record as it was, and running nothing more changes no course. */
  lemma NothingDone(t: Trail, s: Setup, c: Course)
    ensures After(t, s, Course(Ok(()), [], [])) == t
    ensures Then(Course(Ok(()), [], []), c) == c
    ensures c.result.Ok? ==> Then(c, Course(Ok(()), [], [])) == c
  {
    assert t.prompts + [] == t.prompts && t.handed + [] == t.handed && t.events + [] == t.events;
    assert [] + c.asked == c.asked && [] + c.handed == c.handed;
    assert c.asked + [] == c.asked && c.handed + [] == c.handed;
    if c.result.Ok? {
      assert c.result.value == ();
      assert c.result == Ok(());
    }
  }


  /** A step asks its own prompt, then only screen checks. */
  lemma StepAsksNoRecovery(s: Setup, n: nat, p: Prompt, screen: Option<string>)
    requires p != RecoveryQuestion
    ensures RecoveryQuestion !in StepCourse(s, n, p, screen).asked
  {
    var c := StepCourse(s, n, p, screen);
    assert forall j :: 1 <= j < |c.asked| ==> c.asked[j].ScreenCheck?;
  }

  /** Running `next` after `first` asks what the two ask, or less. */
  lemma ThenAsksNeither(first: Course, next: Course, q: Prompt)
    requires q !in first.asked && q !in next.asked
    ensures q !in Then(first, next).asked
  {
  }

  /** No part of the swap asks the recovery question. */
  lemma SwapAsksNoRecovery(s: Setup, n: nat)
    ensures RecoveryQuestion !in SwapCourse(s, n).asked
  {
    var navigated := StepCourse(s, n, Navigation, Some("system_status"));
    var n1 := n + |navigated.asked|;
    var selected := StepCourse(s, n1, NetworkSelection, Some("network_status"));
    var n2 := n1 + |selected.asked|;
    var started := StepCourse(s, n2, SwapStart, None);
    var n3 := n2 + |started.asked|;
    var waited := WaitCourse(s, n3, ForCompletion, s.config.swapCompletionTimeout, s.config.statusPollInterval);
    var n4 := n3 + |waited.asked|;
    SwapUnfolds(s, n, n1);
    SelectionUnfolds(s, n1, n2);
    StartUnfolds(s, n2, n3);
    CompletionUnfolds(s, n3, n4);
    StepAsksNoRecovery(s, n, Navigation, Some("system_status"));
    StepAsksNoRecovery(s, n1, NetworkSelection, Some("network_status"));
    StepAsksNoRecovery(s, n2, SwapStart, None);
    ThenAsksNeither(waited, VerifyCourse(s, n4), RecoveryQuestion);
    ThenAsksNeither(started, CompletionOnward(s, n3), RecoveryQuestion);
    ThenAsksNeither(selected, StartOnward(s, n2), RecoveryQuestion);
    ThenAsksNeither(navigated, SelectionOnward(s, n1), RecoveryQuestion);
  }

  /** `_attempt_recovery` at the `n`-th analysis. */
  function RecoveryCourse(s: Setup, n: nat): (c: Course)
    ensures c.asked == [RecoveryQuestion]
  {
    var a := Answer(s.analyses, n);
    if a.Err? then Course(Err(a.error), [RecoveryQuestion], [])
    else if Flag(a.value, "recovery_possible") then
      var act := ActionCourse(s, Get(a.value, "recovery_action", JNull));
      Course(act.result, [RecoveryQuestion], act.handed)
    else Course(Ok(()), [RecoveryQuestion], [])
  }

  /** A swap test from some iteration on: what it did, the outcome of each swap it ran
      (true for a swap that succeeded), the number of iterations it began and the number
      of swaps that succeeded. */
  datatype SwapRun = SwapRun(course: Course, outcomes: seq<bool>, begun: nat, successes: nat)

  /** `done`, the `outcomes` so far and the `wins` among them, followed by `rest`. */
  function Glue(done: Course, outcomes: seq<bool>, wins: nat, rest: SwapRun): SwapRun
  {
    SwapRun(Then(done, rest.course), outcomes + rest.outcomes, |outcomes| + rest.begun, wins + rest.successes)
  }

  /** One success for a swap that succeeded. */
  function Win(succeeded: bool): nat
  {
    if succeeded then 1 else 0
  }

  /** The loop of `_execute_swap_test`, given what a swap and a recovery attempt do from
      the `n`-th analysis, the iteration count, whether errors stop the test and whether
      abort is requested. */
  datatype Loop = Loop(swap: nat -> Course, recover: nat -> Course, count: int, stopOnError: bool, abort: bool)

  /** The loop of a test set up by `s`. */
  function TestLoop(s: Setup, abort: bool): Loop
  {
    Loop((m: nat) => SwapCourse(s, m), (m: nat) => RecoveryCourse(s, m), s.config.iterationCount, s.config.stopOnError, abort)
  }

  /** One iteration that was not aborted, from the `n`-th analysis: what it did, whether
      its swap succeeded, and whether the test goes on. A failed swap stops the test when
      errors stop it, and is followed by a recovery attempt otherwise, whose failure ends
      the test. */
  datatype Iteration = Iteration(course: Course, succeeded: bool, goOn: bool)

  function RunIteration(l: Loop, n: nat): (it: Iteration)
    ensures it.goOn ==> it.course.result.Ok?
  {
    var sw := l.swap(n);
    if sw.result.Ok? then Iteration(sw, true, true)
    else if l.stopOnError then Iteration(Done(sw), false, false)
    else
      var both := Then(Done(sw), l.recover(n + |sw.asked|));
      Iteration(both, false, both.result.Ok?)
  }

  /** The loop from iteration `i`, with its next analysis the `n`-th: abort stops it
      before a swap. */
  function SwapLoop(l: Loop, n: nat, i: int): SwapRun
    decreases l.count - i
  {
    if i > l.count then SwapRun(Course(Ok(()), [], []), [], 0, 0)
    else if l.abort then SwapRun(Course(Ok(()), [], []), [], 1, 0)
    else
      var it := RunIteration(l, n);
      if it.goOn then Glue(it.course, [it.succeeded], Win(it.succeeded), SwapLoop(l, n + |it.course.asked|, i + 1))
      else SwapRun(it.course, [it.succeeded], 1, Win(it.succeeded))
  }

  /** `_execute_swap_test` from the `n`-th analysis. */
  function SwapTest(s: Setup, n: nat, abort: bool): SwapRun
  {
    SwapLoop(TestLoop(s, abort), n, 1)
  }

  /** What an iteration from the `n`-th analysis does, in terms of the swap `sw` and the
      recovery attempt `rc` that would follow it. */
  lemma IterationParts(l: Loop, s: Setup, n: nat, after: nat) returns (sw: Course, rc: Course)
    requires Models(l, s, l.abort)
    requires after == n + |SwapCourse(s, n).asked|
    ensures sw == SwapCourse(s, n) && rc == RecoveryCourse(s, after)
    ensures var it := RunIteration(l, n);
            && it.succeeded == sw.result.Ok?
            && it.course == (if sw.result.Ok? then sw else if l.stopOnError then Done(sw) else Then(Done(sw), rc))
            && (sw.result.Ok? ==> it.course.result == sw.result)
            && (it.goOn <==> it.course.result.Ok? && (it.succeeded || !l.stopOnError))
  {
    sw := SwapCourse(s, n);
    rc := RecoveryCourse(s, after);
    assert l.swap(n) == sw && l.recover(after) == rc;
  }

  /** The record does not depend on the outcome of what was done. */
  lemma AfterDone(t: Trail, s: Setup, c: Course)
    ensures After(t, s, Done(c)) == After(t, s, c)
  {
  }

  /** What is left of the loop from iteration `i`, its next analysis the `n`-th, after one
      iteration: the rest after it when the test goes on, nothing more otherwise. */
  lemma RestStep(l: Loop, s: Setup, n: nat, i: int, x: Trail, next: nat) returns (it: Iteration)
    requires i <= l.count && !l.abort
    requires next == n + |RunIteration(l, n).course.asked|
    ensures it == RunIteration(l, n)
    ensures var r, r' := SwapLoop(l, n, i), SwapLoop(l, next, i + 1);
            && (it.goOn ==> && r.course.result == r'.course.result
                            && After(x, s, r.course) == After(After(x, s, it.course), s, r'.course)
                            && r.successes == Win(it.succeeded) + r'.successes
                            && r.begun == 1 + r'.begun)
            && (!it.goOn ==> && r.course.result == it.course.result
                             && After(x, s, r.course) == After(x, s, it.course)
                             && r.successes == Win(it.succeeded)
                             && r.begun == 1)
  {
    it := RunIteration(l, n);
    if it.goOn {
      AfterThen(x, s, it.course, SwapLoop(l, next, i + 1).course);
    }
  }

  /** Nothing is left of the loop once it has run out of iterations or abort stops it. */
  lemma RestEnds(l: Loop, s: Setup, n: nat, i: int, x: Trail)
    requires i > l.count || l.abort
    ensures var r := SwapLoop(l, n, i);
            && r.course.result.Ok? && After(x, s, r.course) == x
            && r.successes == 0 && r.begun == (if i <= l.count then 1 else 0)
  {
    NothingDone(x, s, SwapLoop(l, n, i).course);
  }

  /** `l` is the loop of a test set up by `s`: what its swaps and recovery attempts do is
      what they do in that test. */
  ghost predicate Models(l: Loop, s: Setup, abort: bool)
  {
    && l.count == s.config.iterationCount && l.stopOnError == s.config.stopOnError && l.abort == abort
    && (forall m {:trigger SwapCourse(s, m)} :: l.swap(m) == SwapCourse(s, m))
    && (forall m {:trigger RecoveryCourse(s, m)} :: l.recover(m) == RecoveryCourse(s, m))
  }

  /** The loop of the swap test set up by `s` models that test. */
  lemma TestLoopModels(s: Setup, abort: bool)
    ensures Models(TestLoop(s, abort), s, abort)
  {
  }

  /** Two loops that both model the test set up by `s` swap alike. */
  lemma SameSwap(l: Loop, l': Loop, s: Setup, abort: bool, n: nat)
    requires Models(l, s, abort) && Models(l', s, abort)
    ensures l.swap(n) == l'.swap(n)
  {
    var sw := SwapCourse(s, n);
  }

  /** Two loops that both model the test set up by `s` attempt recovery alike. */
  lemma SameRecovery(l: Loop, l': Loop, s: Setup, abort: bool, n: nat)
    requires Models(l, s, abort) && Models(l', s, abort)
    ensures l.recover(n) == l'.recover(n)
  {
    var rc := RecoveryCourse(s, n);
  }

  /** Two loops that both model the test set up by `s` run an iteration alike. */
  lemma SameIteration(l: Loop, l': Loop, s: Setup, abort: bool, n: nat)
    requires Models(l, s, abort) && Models(l', s, abort)
    ensures RunIteration(l, n) == RunIteration(l', n)
  {
    SameSwap(l, l', s, abort, n);
    SameRecovery(l, l', s, abort, n + |l.swap(n).asked|);
  }

  /** Two loops that both model the test set up by `s` run alike. */
  lemma {:induction false} ModelsAgree(l: Loop, l': Loop, s: Setup, abort: bool, n: nat, i: int)
    requires Models(l, s, abort) && Models(l', s, abort)
    ensures SwapLoop(l, n, i) == SwapLoop(l', n, i)
    decreases l.count - i
  {
    if i <= l.count && !l.abort {
      SameIteration(l, l', s, abort, n);
      var it := RunIteration(l, n);
      if it.goOn {
        ModelsAgree(l, l', s, abort, n + |it.course.asked|, i + 1);
      }
    }
  }

  /** Any loop that models the test set up by `s` runs as that test does. */
  lemma ModelIsTest(l: Loop, s: Setup, abort: bool, n: nat)
    requires Models(l, s, abort)
    ensures SwapLoop(l, n, 1) == SwapTest(s, n, abort)
  {
    ModelsAgree(l, TestLoop(s, abort), s, abort, n, 1);
  }

  /** An iteration begins for each iteration number left, until the test stops: every
      iteration it begins yields one outcome, except one that abort stops. */
  lemma {:induction false} SwapLoopBegins(l: Loop, n: nat, i: int)
    ensures var t := SwapLoop(l, n, i);
            var left := if i <= l.count then l.count - i + 1 else 0;
            && |t.outcomes| <= t.begun <= left
            && (t.begun == 0 <==> left == 0)
            && (!l.abort ==> |t.outcomes| == t.begun)
            && (l.abort ==> t.outcomes == [] && t.course.asked == [])
    decreases l.count - i
  {
    if i <= l.count && !l.abort {
      var it := RunIteration(l, n);
      if it.goOn {
        SwapLoopBegins(l, n + |it.course.asked|, i + 1);
      }
    }
  }

  /** A swap asks no recovery question; a recovery attempt asks it once and nothing else. */
  ghost predicate RecoveryAskedOnlyByRecovery(l: Loop)
  {
    && (forall m :: Occurrences(l.swap(m).asked, RecoveryQuestion) == 0)
    && (forall m :: l.recover(m).asked == [RecoveryQuestion])
  }

  /** An iteration asks the recovery question once when its swap failed and errors do
      not stop the test, and not otherwise. */
  lemma IterationRecovers(l: Loop, n: nat)
    requires RecoveryAskedOnlyByRecovery(l)
    ensures var it := RunIteration(l, n);
            Occurrences(it.course.asked, RecoveryQuestion) == if it.succeeded || l.stopOnError then 0 else 1
  {
    var sw := l.swap(n);
    assert Occurrences(sw.asked, RecoveryQuestion) == 0;
    if !sw.result.Ok? && !l.stopOnError {
      var rc := l.recover(n + |sw.asked|);
      assert rc.asked == [RecoveryQuestion];
      assert Then(Done(sw), rc).asked == sw.asked + [RecoveryQuestion];
      OccurrencesAppend(sw.asked, [RecoveryQuestion], RecoveryQuestion);
    }
  }

  /** The counts of a glued run add up. */
  lemma GluedCounts(c: Course, o: bool, rest: SwapRun)
    requires c.result.Ok?
    ensures var t := Glue(c, [o], Win(o), rest);
            && Occurrences(t.course.asked, RecoveryQuestion)
               == Occurrences(c.asked, RecoveryQuestion) + Occurrences(rest.course.asked, RecoveryQuestion)
            && Occurrences(t.outcomes, false) == (if o then 0 else 1) + Occurrences(rest.outcomes, false)
  {
    OccurrencesAppend(c.asked, rest.course.asked, RecoveryQuestion);
    OccurrencesAppend([o], rest.outcomes, false);
  }

  /** When errors stop the test, the test itself never fails. */
  lemma {:induction false} StopOnErrorNeverFails(l: Loop, n: nat, i: int)
    requires l.stopOnError
    ensures SwapLoop(l, n, i).course.result.Ok?
    decreases l.count - i
  {
    if i <= l.count && !l.abort && RunIteration(l, n).goOn {
      StopOnErrorNeverFails(l, n + |RunIteration(l, n).course.asked|, i + 1);
    }
  }

  /** When errors stop the test, no recovery is attempted. */
  lemma {:induction false} StopOnErrorAsksNoRecovery(l: Loop, n: nat, i: int)
    requires l.stopOnError && RecoveryAskedOnlyByRecovery(l)
    ensures Occurrences(SwapLoop(l, n, i).course.asked, RecoveryQuestion) == 0
    decreases l.count - i
  {
    if i <= l.count && !l.abort {
      var it := RunIteration(l, n);
      IterationRecovers(l, n);
      if it.goOn {
        var rest := SwapLoop(l, n + |it.course.asked|, i + 1);
        StopOnErrorAsksNoRecovery(l, n + |it.course.asked|, i + 1);
        GluedCounts(it.course, it.succeeded, rest);
      }
    }
  }

  /** When errors stop the test, only the last swap it ran can have failed. */
  lemma {:induction false} StopOnErrorStopsAtFailure(l: Loop, n: nat, i: int)
    requires l.stopOnError
    ensures forall j :: 0 <= j < |SwapLoop(l, n, i).outcomes| - 1 ==> SwapLoop(l, n, i).outcomes[j]
    decreases l.count - i
  {
    if i <= l.count && !l.abort {
      var it := RunIteration(l, n);
      if it.goOn {
        var rest := SwapLoop(l, n + |it.course.asked|, i + 1).outcomes;
        StopOnErrorStopsAtFailure(l, n + |it.course.asked|, i + 1);
        var o := SwapLoop(l, n, i).outcomes;
        assert o == [true] + rest;
        forall j | 0 <= j < |o| - 1
          ensures o[j]
        {
          if j > 0 {
            assert o[j] == rest[j - 1];
          }
        }
      }
    }
  }

  /** When errors do not stop the test, a test that ends normally ran every iteration. */
  lemma {:induction false} RecoveryContinues(l: Loop, n: nat, i: int)
    requires !l.stopOnError
    ensures SwapLoop(l, n, i).course.result.Ok? && !l.abort ==>
              |SwapLoop(l, n, i).outcomes| == if i <= l.count then l.count - i + 1 else 0
    decreases l.count - i
  {
    if i <= l.count && !l.abort {
      var it := RunIteration(l, n);
      if it.goOn {
        RecoveryContinues(l, n + |it.course.asked|, i + 1);
      }
    }
  }

  /** When errors do not stop the test, it asks the recovery question once for each swap
      that failed. */
  lemma {:induction false} RecoveryFollowsFailures(l: Loop, n: nat, i: int)
    requires !l.stopOnError && RecoveryAskedOnlyByRecovery(l)
    ensures Occurrences(SwapLoop(l, n, i).course.asked, RecoveryQuestion) == Occurrences(SwapLoop(l, n, i).outcomes, false)
    decreases l.count - i
  {
    var t := SwapLoop(l, n, i);
    if i > l.count || l.abort {
      assert t.course.asked == [] && t.outcomes == [];
    } else {
      var it := RunIteration(l, n);
      IterationRecovers(l, n);
      if it.goOn {
        var rest := SwapLoop(l, n + |it.course.asked|, i + 1);
        RecoveryFollowsFailures(l, n + |it.course.asked|, i + 1);
        assert t == Glue(it.course, [it.succeeded], Win(it.succeeded), rest);
        GluedCounts(it.course, it.succeeded, rest);
        assert Occurrences(t.course.asked, RecoveryQuestion) == Occurrences(it.course.asked, RecoveryQuestion) + Occurrences(rest.course.asked, RecoveryQuestion);
        assert Occurrences(t.outcomes, false) == (if it.succeeded then 0 else 1) + Occurrences(rest.outcomes, false);
        assert Occurrences(rest.course.asked, RecoveryQuestion) == Occurrences(rest.outcomes, false);
        assert Occurrences(it.course.asked, RecoveryQuestion) == if it.succeeded then 0 else 1;
        assert Occurrences(t.course.asked, RecoveryQuestion) == Occurrences(t.outcomes, false);
      } else {
        assert t == SwapRun(it.course, [it.succeeded], 1, Win(it.succeeded));
        assert !it.succeeded;
        assert Occurrences([it.succeeded], false) == 1;
        assert Occurrences(t.course.asked, RecoveryQuestion) == Occurrences(t.outcomes, false);
      }
    }
  }

  /** The successes a run counts are its true outcomes. */
  lemma {:induction false} SwapLoopCountsSuccesses(l: Loop, n: nat, i: int)
    ensures SwapLoop(l, n, i).successes == Occurrences(SwapLoop(l, n, i).outcomes, true)
    decreases l.count - i
  {
    var t := SwapLoop(l, n, i);
    if i <= l.count && !l.abort {
      var it := RunIteration(l, n);
      if it.goOn {
        var rest := SwapLoop(l, n + |it.course.asked|, i + 1);
        SwapLoopCountsSuccesses(l, n + |it.course.asked|, i + 1);
        assert t == Glue(it.course, [it.succeeded], Win(it.succeeded), rest);
        OccurrencesAppend([it.succeeded], rest.outcomes, true);
      } else {
        assert t.outcomes == [it.succeeded];
      }
    }
  }

  /** In the orchestrator's own test only a recovery attempt asks the recovery question. */
  lemma TestLoopAsksRecoveryOnlyToRecover(s: Setup, abort: bool)
    ensures RecoveryAskedOnlyByRecovery(TestLoop(s, abort))
  {
    forall m: nat
      ensures Occurrences(SwapCourse(s, m).asked, RecoveryQuestion) == 0
    {
      SwapAsksNoRecovery(s, m);
      NoOccurrences(SwapCourse(s, m).asked, RecoveryQuestion);
    }
  }

  /** The swap test counts its true outcomes as successes, and succeeds exactly when it
      ran every iteration and every swap succeeded: the count reaches the iteration count
      only then. */
  lemma SwapTestSucceedsIffAllSwapsDid(s: Setup, n: nat, abort: bool, totalTime: real)
    ensures var t := SwapTest(s, n, abort);
            && t.successes == Occurrences(t.outcomes, true)
            && (SwapResult(t.successes, s.config.iterationCount, totalTime).success
                <==> |t.outcomes| == s.config.iterationCount && forall j :: 0 <= j < |t.outcomes| ==> t.outcomes[j])
  {
    var t := SwapTest(s, n, abort);
    SwapLoopBegins(TestLoop(s, abort), n, 1);
    SwapLoopCountsSuccesses(TestLoop(s, abort), n, 1);
    TrueOccurrences(t.outcomes);
  }

  /** Without stop-on-error, a swap test that ends normally ran every iteration, and each
      failed swap was followed by exactly one recovery question. */
  lemma SwapTestRecovers(s: Setup, n: nat, abort: bool)
    requires !s.config.stopOnError
    ensures var t := SwapTest(s, n, abort);
            && (t.course.result.Ok? && !abort ==>
                  |t.outcomes| == if s.config.iterationCount >= 1 then s.config.iterationCount else 0)
            && Occurrences(t.course.asked, RecoveryQuestion) == Occurrences(t.outcomes, false)
  {
    TestLoopAsksRecoveryOnlyToRecover(s, abort);
    RecoveryContinues(TestLoop(s, abort), n, 1);
    RecoveryFollowsFailures(TestLoop(s, abort), n, 1);
  }

  /** With stop-on-error, the swap test never fails itself, asks no recovery question, and
      stops at its first failed swap. */
  lemma SwapTestStopsAtFailure(s: Setup, n: nat, abort: bool)
    requires s.config.stopOnError
    ensures var t := SwapTest(s, n, abort);
            && t.course.result.Ok?
            && RecoveryQuestion !in t.course.asked
            && forall j :: 0 <= j < |t.outcomes| - 1 ==> t.outcomes[j]
  {
    TestLoopAsksRecoveryOnlyToRecover(s, abort);
    StopOnErrorNeverFails(TestLoop(s, abort), n, 1);
    StopOnErrorAsksNoRecovery(TestLoop(s, abort), n, 1);
    StopOnErrorStopsAtFailure(TestLoop(s, abort), n, 1);
    NoOccurrences(SwapTest(s, n, abort).course.asked, RecoveryQuestion);
  }

  /** `_verify_application_ready` from the `n`-th analysis: the failure it raises, if any. */
  function ReadinessFailure(s: Setup, n: nat): Option<Failure>
  {
    var a := Answer(s.analyses, n);
    if a.Err? then Some(a.error)
    else if !Flag(a.value, "application_ready") then Some(NotReady(Get(a.value, "reason", JStr("Unknown"))))
    else None
  }

  /** What `run` makes of the readiness check and the scenario once the modules have
      started, from the `n`-th analysis, where `t` is what the swap test would do after the
      check: a failed or negative check is raised; swap_test gives the swap test's result;
      the other scenarios raise. */
  function ScenarioOutcome(s: Setup, n: nat, t: SwapRun, totalTime: real): Result<TestResult, Failure>
  {
    var ready := ReadinessFailure(s, n);
    if ready.Some? then Err(ready.value)
    else if s.config.scenario == "swap_test" then
      if t.course.result.Ok? then Ok(SwapResult(t.successes, s.config.iterationCount, totalTime))
      else Err(t.course.result.error)
    else if s.config.scenario == "startup_test" then Err(NotImplemented("Startup test not yet implemented"))
    else if s.config.scenario == "status_check" then Err(NotImplemented("Status check not yet implemented"))
    else Err(UnknownScenario(s.config.scenario))
  }

  /** The analyses asked for and the actions handed over after the readiness check: the swap
      test's when the application is ready and the scenario is swap_test, none otherwise. */
  function ScenarioCourse(s: Setup, n: nat, t: SwapRun): Course
  {
    if ReadinessFailure(s, n).None? && s.config.scenario == "swap_test" then t.course
    else Course(Ok(()), [], [])
  }

  /** A run reports success exactly when the application was ready, the scenario is
      swap_test, and that test ran every iteration with every swap succeeding; any result it
      returns without raising is the swap test's, counting its successful swaps. */
  lemma ScenarioSucceedsIffAllSwapsDid(s: Setup, n: nat, abort: bool, totalTime: real)
    ensures var t := SwapTest(s, n + 1, abort);
            var o := ScenarioOutcome(s, n, t, totalTime);
            && ((o.Ok? && o.value.success)
                <==> ReadinessFailure(s, n).None? && s.config.scenario == "swap_test" && t.course.result.Ok?
                     && |t.outcomes| == s.config.iterationCount && forall j :: 0 <= j < |t.outcomes| ==> t.outcomes[j])
            && (o.Ok? ==> ReadinessFailure(s, n).None? && s.config.scenario == "swap_test"
                          && o.value.iterationsCompleted == Occurrences(t.outcomes, true))
  {
    var t := SwapTest(s, n + 1, abort);
    SwapTestSucceedsIffAllSwapsDid(s, n + 1, abort, totalTime);
    if ReadinessFailure(s, n).None? && s.config.scenario == "swap_test" && t.course.result.Ok? {
      assert ScenarioOutcome(s, n, t, totalTime) == Ok(SwapResult(t.successes, s.config.iterationCount, totalTime));
    }
  }

  /** With stop-on-error, a ready swap_test run never raises: it returns the swap test's
      result, which stops at the first failed swap. */
  lemma StopOnErrorRunReturnsResult(s: Setup, n: nat, abort: bool, totalTime: real)
    requires s.config.stopOnError && s.config.scenario == "swap_test" && ReadinessFailure(s, n).None?
    ensures ScenarioOutcome(s, n, SwapTest(s, n + 1, abort), totalTime).Ok?
    ensures RecoveryQuestion !in ScenarioCourse(s, n, SwapTest(s, n + 1, abort)).asked
  {
    SwapTestStopsAtFailure(s, n + 1, abort);
  }

  /** How many entries of `s` equal `x`. */
  function Occurrences<T(==)>(s: seq<T>, x: T): (k: nat)
    ensures k <= |s|
  {
    if s == [] then 0 else (if s[0] == x then 1 else 0) + Occurrences(s[1..], x)
  }

  /** Counting agrees with the multiplicity in the multiset of the entries. */
  lemma {:induction false} OccurrencesAreMultiplicity<T>(s: seq<T>, x: T)
    ensures Occurrences(s, x) == multiset(s)[x]
  {
    if s != [] {
      OccurrencesAreMultiplicity(s[1..], x);
      assert s == [s[0]] + s[1..];
    }
  }

  /** A value occurs no times exactly when it is not an entry. */
  lemma {:induction false} NoOccurrences<T>(s: seq<T>, x: T)
    ensures Occurrences(s, x) == 0 <==> x !in s
  {
    if s != [] {
      NoOccurrences(s[1..], x);
      assert s == [s[0]] + s[1..];
    }
  }

  /** Counts over a concatenation add up. */
  lemma {:induction false} OccurrencesAppend<T>(a: seq<T>, b: seq<T>, x: T)
    ensures Occurrences(a + b, x) == Occurrences(a, x) + Occurrences(b, x)
  {
    if a == [] {
      assert a + b == b;
    } else {
      OccurrencesAppend(a[1..], b, x);
      assert (a + b)[0] == a[0] && (a + b)[1..] == a[1..] + b;
    }
  }

  /** The number of true entries equals the length exactly when every entry is true. */
  lemma {:induction false} TrueOccurrences(o: seq<bool>)
    ensures Occurrences(o, true) == |o| <==> forall j :: 0 <= j < |o| ==> o[j]
  {
    if o != [] {
      TrueOccurrences(o[1..]);
      assert Occurrences(o, true) == (if o[0] then 1 else 0) + Occurrences(o[1..], true);
      assert forall j :: 1 <= j < |o| ==> o[j] == o[1..][j - 1];
      assert (forall j :: 0 <= j < |o| ==> o[j]) <==> o[0] && forall j :: 0 <= j < |o[1..]| ==> o[1..][j];
    }
  }

  class AgentOrchestrator {
    const config: Config
    /** The outcomes of the screen analyses, in the order they are asked for. */
    const analyses: seq<Result<Dict, string>>
    /** The failure of the screen capture or the vision service while starting, if any. */
    const startup: Option<string>
    const executor: ActionExecutor
    const reporter: TestReporter
    /** The analyses asked for so far. */
    var prompts: seq<Prompt>
    /** The actions handed to the executor so far. */
    var handed: seq<Json>
    var currentIteration: int
    var shouldAbort: bool

    constructor (config: Config, platform: Platform, analyses: seq<Result<Dict, string>>, startup: Option<string>)
      ensures this.config == config && this.analyses == analyses && this.startup == startup
      ensures fresh(executor) && fresh(reporter)
      ensures executor.platform == platform && !executor.ready && executor.events == []
      ensures reporter.Valid() && reporter.config == config && reporter.info.None?
      ensures prompts == [] && handed == [] && currentIteration == 0 && !shouldAbort
    {
      this.config := config;
      this.analyses := analyses;
      this.startup := startup;
      executor := new ActionExecutor(platform);
      reporter := new TestReporter(config);
      prompts := [];
      handed := [];
      currentIteration := 0;
      shouldAbort := false;
    }

    /** What the test's parts run against, given whether the executor's controllers exist. */
    function Scene(ready: bool): Setup
    {
      var platform := executor.platform;
      Setup(config, analyses, action => Execution(platform, ready, action))
    }

    /** `s` describes the test run by this orchestrator while the executor's controllers
        exist exactly when `ready`: its settings, its analyses and what executing an action
        does. */
    ghost predicate Staged(s: Setup, ready: bool)
    {
      && s.config == config && s.analyses == analyses
      && forall a {:trigger Execution(executor.platform, ready, a)} :: s.perform(a) == Execution(executor.platform, ready, a)
    }

    /** The record of what has been done. */
    function Record(): Trail
      reads this`prompts, this`handed, executor`events
    {
      Trail(prompts, handed, executor.events)
    }

    /** One screen capture and analysis. */
    method Ask(p: Prompt) returns (r: Result<Dict, Failure>)
      modifies this`prompts
      ensures prompts == old(prompts) + [p]
      ensures r == Answer(analyses, |old(prompts)|)
    {
      r := Answer(analyses, |prompts|);
      prompts := prompts + [p];
    }

    /** `_execute_ai_action`: in a dry run nothing is executed; otherwise the action goes to
        the executor and its failure ends the step. */
    method ExecuteAiAction(ghost s: Setup, action: Json) returns (r: Result<(), Failure>)
      requires Staged(s, executor.ready)
      modifies this`handed, executor`events
      ensures config.dryRun ==> r.Ok? && handed == old(handed) && executor.events == old(executor.events)
      ensures !config.dryRun ==>
                handed == old(handed) + [action]
                && var e := Execution(executor.platform, executor.ready, action);
                   executor.events == old(executor.events) + e.events
                   && (e.failure.None? <==> r.Ok?)
                   && (e.failure.Some? ==> r == Err(ActionFailed(e.failure.value)))
      ensures Record() == After(old(Record()), s, ActionCourse(s, action)) && r == ActionCourse(s, action).result
    {
      if config.dryRun {
        return Ok(());
      }
      handed := handed + [action];
      var done := executor.ExecuteAction(action);
      PerformedOne(s, action);
      if done.Err? {
        return Err(ActionFailed(done.error));
      }
      r := Ok(());
    }

    /** `_wait_for_screen_change` and `_wait_for_swap_completion`: poll until the answer
        decides or the time spent reaches the limit. */
    method Wait(ghost s: Setup, kind: WaitKind, limit: real, interval: real) returns (r: Result<(), Failure>, ghost polls: nat)
      requires s.analyses == analyses
      modifies this`prompts
      ensures (r, polls) == Poll(analyses, |old(prompts)|, 0.0, limit, interval, kind)
      ensures |prompts| == |old(prompts)| + polls && prompts[..|old(prompts)|] == old(prompts)
      ensures forall i :: |old(prompts)| <= i < |prompts| ==> prompts[i] == PromptFor(kind)
      ensures Record() == After(old(Record()), s, WaitCourse(s, |old(prompts)|, kind, limit, interval))
    {
      ghost var start := |prompts|;
      var elapsed := 0.0;
      polls := 0;
      while elapsed < limit
        invariant |prompts| == start + polls && prompts[..start] == old(prompts)
        invariant forall i :: start <= i < |prompts| ==> prompts[i] == PromptFor(kind)
        invariant Poll(analyses, start, 0.0, limit, interval, kind)
                  == var rest := Poll(analyses, |prompts|, elapsed, limit, interval, kind); (rest.0, rest.1 + polls)
        decreases |analyses| - |prompts|
      {
        var answer := Ask(PromptFor(kind));
        polls := polls + 1;
        if answer.Err? {
          WaitRecord(s, kind, limit, interval, old(prompts));
          return Err(answer.error), polls;
        }
        var verdict := Verdict(kind, answer.value);
        if verdict.Some? {
          WaitRecord(s, kind, limit, interval, old(prompts));
          return verdict.value, polls;
        }
        elapsed := elapsed + interval;
      }
      r := Err(Timeout(kind, limit));
      WaitRecord(s, kind, limit, interval, old(prompts));
    }

    /** The record after a wait is the one its course describes. */
    lemma WaitRecord(s: Setup, kind: WaitKind, limit: real, interval: real, start: seq<Prompt>)
      requires s.analyses == analyses
      requires |prompts| >= |start| && prompts[..|start|] == start
      requires forall i :: |start| <= i < |prompts| ==> prompts[i] == PromptFor(kind)
      requires |prompts| - |start| == Poll(analyses, |start|, 0.0, limit, interval, kind).1
      ensures prompts == start + WaitCourse(s, |start|, kind, limit, interval).asked
    {
      var c := WaitCourse(s, |start|, kind, limit, interval);
      assert prompts == start + prompts[|start|..];
      assert prompts[|start|..] == c.asked;
    }

    /** `_navigate_to_system_status`, `_select_target_network` and
        `_initiate_controller_swap`: one analysis; when it asks for an action, the
        recommended action runs, and the first two then wait for their screen. */
    method ActionStep(ghost s: Setup, p: Prompt, screen: Option<string>) returns (r: Result<(), Failure>)
      requires Staged(s, executor.ready)
      modifies this`prompts, this`handed, executor`events
      ensures config.dryRun ==> handed == old(handed) && executor.events == old(executor.events)
      ensures var c := StepCourse(s, |old(prompts)|, p, screen);
              Record() == After(old(Record()), s, c) && r == c.result
    {
      ghost var t0 := Record();
      var answer := Ask(p);
      if answer.Err? {
        return Err(answer.error);
      }
      if Flag(answer.value, "action_needed") {
        var action := Get(answer.value, "recommended_action", JNull);
        var done := ExecuteAiAction(s, action);
        ghost var act := ActionCourse(s, action);
        ghost var acted := Course(act.result, [p], act.handed);
        assert Record() == After(t0, s, acted);
        if done.Err? {
          return done;
        }
        if screen.Some? {
          ghost var polls;
          ghost var t1 := Record();
          r, polls := Wait(s, ForScreen(screen.value), config.screenChangeTimeout, config.screenPollInterval);
          AfterThen(t0, s, acted, WaitCourse(s, |t1.prompts|, ForScreen(screen.value),
                                                   config.screenChangeTimeout, config.screenPollInterval));
          return;
        }
      }
      r := Ok(());
    }

    /** `_verify_swap_success` */
    method VerifySwapSuccess(ghost s: Setup) returns (r: Result<(), Failure>)
      requires s.analyses == analyses
      modifies this`prompts
      ensures prompts == old(prompts) + [SwapVerification]
      ensures var a := Answer(analyses, |old(prompts)|);
              (r.Ok? <==> a.Ok? && Flag(a.value, "swap_successful"))
              && (a.Ok? && !Flag(a.value, "swap_successful") ==> r == Err(SwapNotVerified(Get(a.value, "reason", JNull))))
      ensures Record() == After(old(Record()), s, VerifyCourse(s, |old(prompts)|)) && r == VerifyCourse(s, |old(prompts)|).result
    {
      var answer := Ask(SwapVerification);
      if answer.Err? {
        return Err(answer.error);
      }
      if !Flag(answer.value, "swap_successful") {
        return Err(SwapNotVerified(Get(answer.value, "reason", JNull)));
      }
      r := Ok(());
    }

    /** `_execute_single_swap`: navigate, select the network, start the swap, wait for it
        to complete and verify it; the first failure ends the swap. */
    method ExecuteSingleSwap(ghost s: Setup) returns (r: Result<(), Failure>)
      requires Staged(s, executor.ready)
      modifies this`prompts, this`handed, executor`events
      ensures var c := SwapCourse(s, |old(prompts)|);
              Record() == After(old(Record()), s, c) && r == c.result
      ensures config.dryRun ==> handed == old(handed) && executor.events == old(executor.events)
    {
      ghost var x, n := Record(), |prompts|;
      r := ActionStep(s, Navigation, Some("system_status"));
      SwapUnfolds(s, n, |prompts|);
      if r.Err? {
        return;
      }
      AfterThen(x, s, StepCourse(s, n, Navigation, Some("system_status")), SelectionOnward(s, |prompts|));
      x, n := Record(), |prompts|;
      r := ActionStep(s, NetworkSelection, Some("network_status"));
      SelectionUnfolds(s, n, |prompts|);
      if r.Err? {
        return;
      }
      AfterThen(x, s, StepCourse(s, n, NetworkSelection, Some("network_status")), StartOnward(s, |prompts|));
      x, n := Record(), |prompts|;
      r := ActionStep(s, SwapStart, None);
      StartUnfolds(s, n, |prompts|);
      if r.Err? {
        return;
      }
      AfterThen(x, s, StepCourse(s, n, SwapStart, None), CompletionOnward(s, |prompts|));
      x, n := Record(), |prompts|;
      ghost var polls;
      r, polls := Wait(s, ForCompletion, config.swapCompletionTimeout, config.statusPollInterval);
      CompletionUnfolds(s, n, |prompts|);
      if r.Err? {
        return;
      }
      AfterThen(x, s, WaitCourse(s, n, ForCompletion, config.swapCompletionTimeout, config.statusPollInterval),
                VerifyCourse(s, |prompts|));
      r := VerifySwapSuccess(s);
    }

    /** `_attempt_recovery`: one analysis; its recovery action runs only when it says
        recovery is possible. */
    method AttemptRecovery(ghost s: Setup) returns (r: Result<(), Failure>)
      requires Staged(s, executor.ready)
      modifies this`prompts, this`handed, executor`events
      ensures executor.ready == old(executor.ready)
      ensures prompts == old(prompts) + [RecoveryQuestion]
      ensures var a := Answer(analyses, |old(prompts)|);
              && (a.Err? ==> r == Err(a.error))
              && (a.Ok? && Flag(a.value, "recovery_possible") && !config.dryRun ==>
                    handed == old(handed) + [Get(a.value, "recovery_action", JNull)])
              && (!(a.Ok? && Flag(a.value, "recovery_possible")) || config.dryRun ==>
                    r.Ok? == a.Ok? && handed == old(handed) && executor.events == old(executor.events))
      ensures Record() == After(old(Record()), s, RecoveryCourse(s, |old(prompts)|))
              && r == RecoveryCourse(s, |old(prompts)|).result
    {
      var answer := Ask(RecoveryQuestion);
      if answer.Err? {
        return Err(answer.error);
      }
      if Flag(answer.value, "recovery_possible") {
        r := ExecuteAiAction(s, Get(answer.value, "recovery_action", JNull));
      } else {
        r := Ok(());
      }
    }

    /** The body of the loop of `_execute_swap_test` once abort has not stopped it: the
        swap; after a failure, unless errors stop the test, a recovery attempt, whose own
        failure is `r`. */
    method SwapIteration(ghost s: Setup, ghost l: Loop) returns (swapped: bool, r: Result<(), Failure>)
      requires Staged(s, executor.ready) && Models(l, s, l.abort)
      modifies this`prompts, this`handed, executor`events
      ensures var it := RunIteration(l, |old(prompts)|);
              && Record() == After(old(Record()), s, it.course)
              && swapped == it.succeeded && r == it.course.result
              && (it.goOn <==> r.Ok? && (swapped || !config.stopOnError))
      ensures config.dryRun ==> handed == old(handed) && executor.events == old(executor.events)
    {
      ghost var t0, it := Record(), RunIteration(l, |prompts|);
      var swap := ExecuteSingleSwap(s);
      ghost var sw, rc := IterationParts(l, s, |t0.prompts|, |prompts|);
      AfterDone(t0, s, sw);
      swapped := swap.Ok?;
      r := Ok(());
      if swap.Ok? {
        assert it.course == sw && sw.result == Ok(());
      } else if config.stopOnError {
        assert it.course == Done(sw);
      } else {
        r := AttemptRecovery(s);
        AfterThen(t0, s, Done(sw), rc);
        assert it.course == Then(Done(sw), rc);
      }
    }

    /** `_execute_swap_test`: swaps `1..iteration_count`, stopping before an iteration
        once abort is requested, and at a failure when errors stop the test; otherwise a
        failure is followed by a recovery attempt, whose own failure ends the test. The
        count of successful swaps is the number of swaps that succeeded, and the test
        succeeds exactly when it reaches the iteration count. */
    method ExecuteSwapTest(ghost s: Setup, ghost l: Loop, totalTime: real) returns (r: Result<TestResult, Failure>, successful: nat)
      requires Staged(s, executor.ready) && Models(l, s, shouldAbort)
      modifies this`currentIteration, this`prompts, this`handed, executor`events
      ensures executor.ready == old(executor.ready)
      ensures var t := SwapLoop(l, |old(prompts)|, 1);
              && Record() == After(old(Record()), s, t.course)
              && successful == t.successes
              && (t.course.result.Ok? ==> r == Ok(SwapResult(successful, config.iterationCount, totalTime)))
              && (t.course.result.Err? ==> r == Err(t.course.result.error))
              && currentIteration == if t.begun > 0 then t.begun else old(currentIteration)
      ensures config.dryRun ==> handed == old(handed) && executor.events == old(executor.events)
    {
      ghost var goal := SwapLoop(l, |prompts|, 1);
      ghost var t0, c0 := Record(), currentIteration;
      ghost var rest := goal;
      NothingDone(t0, s, goal.course);
      successful := 0;
      var failure: Option<Failure> := None;
      var count := config.iterationCount;
      var iteration := 1;
      while iteration <= count
        invariant 1 <= iteration
        invariant currentIteration == if iteration > 1 then iteration - 1 else c0
        invariant rest == SwapLoop(l, |prompts|, iteration)
        invariant goal.course.result == rest.course.result
        invariant After(t0, s, goal.course) == After(Record(), s, rest.course)
        invariant goal.successes == successful + rest.successes
        invariant goal.begun == iteration - 1 + rest.begun
        invariant config.dryRun ==> handed == t0.handed && executor.events == t0.events
        decreases count - iteration
      {
        currentIteration := iteration;
        if shouldAbort {
          RestEnds(l, s, |prompts|, iteration, Record());
          break;
        }
        ghost var x := Record();
        var swapped, recovery := SwapIteration(s, l);
        ghost var it := RestStep(l, s, |x.prompts|, iteration, x, |prompts|);
        if swapped {
          successful := successful + 1;
        }
        if recovery.Err? || (!swapped && config.stopOnError) {
          failure := if recovery.Err? then Some(recovery.error) else None;
          break;
        }
        rest := SwapLoop(l, |prompts|, iteration + 1);
        iteration := iteration + 1;
      }
      if iteration > count {
        RestEnds(l, s, |prompts|, iteration, Record());
      }
      if failure.Some? {
        r := Err(failure.value);
      } else {
        r := Ok(SwapResult(successful, count, totalTime));
      }
    }

    /** `_verify_application_ready` */
    method VerifyApplicationReady() returns (r: Result<(), Failure>)
      modifies this`prompts
      ensures prompts == old(prompts) + [ApplicationCheck]
      ensures var a := Answer(analyses, |old(prompts)|);
              && (a.Err? ==> r == Err(a.error))
              && (a.Ok? ==> (r.Ok? <==> Flag(a.value, "application_ready")))
              && (a.Ok? && !Flag(a.value, "application_ready") ==>
                    r == Err(NotReady(Get(a.value, "reason", JStr("Unknown")))))
    {
      var answer := Ask(ApplicationCheck);
      if answer.Err? {
        return Err(answer.error);
      }
      if !Flag(answer.value, "application_ready") {
        return Err(NotReady(Get(answer.value, "reason", JStr("Unknown"))));
      }
      r := Ok(());
    }

    /** `_initialize_modules`: the screen capture and the vision service start first, and a
        failure of theirs is raised before the executor and the reporter are touched. */
    method InitializeModules(start: real) returns (r: Result<(), Failure>)
      modifies executor`ready, reporter
      ensures startup.Some? ==> r == Err(StartupFailed(startup.value)) && unchanged(executor, reporter)
      ensures startup.None? ==> r.Ok? && executor.ready
      ensures startup.None? ==> reporter.Valid() && reporter.info.Some? && reporter.startTime == Some(start)
    {
      if startup.Some? {
        return Err(StartupFailed(startup.value));
      }
      executor.Initialize();
      reporter.Initialize(start);
      r := Ok(());
    }

    /** The `try` block of `run` up to the scenario's result: the modules start, then the
        readiness check and the scenario run against the ready executor. */
    method Attempt(ghost l: Loop, start: real, totalTime: real) returns (outcome: Result<TestResult, Failure>)
      requires reporter.Valid() && Models(l, Scene(true), shouldAbort)
      modifies this`currentIteration, this`prompts, this`handed, executor, reporter
      ensures reporter.Valid()
      ensures startup.Some? ==> outcome == Err(StartupFailed(startup.value)) && Record() == old(Record())
                                && reporter.info == old(reporter.info)
      ensures startup.None? ==> reporter.info.Some?
      ensures startup.None? ==> |prompts| > |old(prompts)| && prompts[|old(prompts)|] == ApplicationCheck
      ensures config.scenario != "swap_test" ==> outcome.Err?
      ensures config.dryRun ==> handed == old(handed) && executor.events == old(executor.events)
      ensures startup.None? ==> outcome == ScenarioOutcome(Scene(true), |old(prompts)|, SwapLoop(l, |old(prompts)| + 1, 1), totalTime)
      ensures startup.None? ==>
                Record() == After(Trail(old(prompts) + [ApplicationCheck], old(handed), old(executor.events)),
                                  Scene(true), ScenarioCourse(Scene(true), |old(prompts)|, SwapLoop(l, |old(prompts)| + 1, 1)))
    {
      var started := InitializeModules(start);
      if started.Err? {
        return Err(started.error);
      }
      outcome := RunScenario(Scene(true), l, totalTime);
    }

    /** `_generate_final_report`: the reporter records the result's summary; the result comes
        back with the report's path, or the reporter's error when it was never initialised. */
    method GenerateFinalReport(result: TestResult, finish: real) returns (r: Result<TestResult, ReportError>)
      requires reporter.config == config
      modifies reporter`summary, reporter`endTime
      ensures reporter.summary == Some(ReportSummary(finish, result.totalTime, result.success, result.iterationsCompleted,
                                                     config.iterationCount, result.summary, result.errorMessage))
      ensures reporter.endTime == Some(finish)
      ensures r.Err? <==> reporter.info.None?
      ensures r.Err? ==> r.error == NotInitialized
      ensures r.Ok? ==> r.value == result.(logFilePath := Some(JoinPath(config.outputDir, "test_report.txt")))
    {
      var path := reporter.GenerateReport(result.totalTime, result.success, result.iterationsCompleted,
                                          result.summary, result.errorMessage, finish);
      if path.Err? {
        return Err(path.error);
      }
      r := Ok(result.(logFilePath := Some(path.value)));
    }

    /** After the modules have started: the readiness check, then the scenario. */
    method RunScenario(ghost s: Setup, ghost l: Loop, totalTime: real) returns (r: Result<TestResult, Failure>)
      requires Staged(s, executor.ready) && Models(l, s, shouldAbort)
      modifies this`currentIteration, this`prompts, this`handed, executor`events
      ensures |prompts| > |old(prompts)| && prompts[|old(prompts)|] == ApplicationCheck
      ensures var a := Answer(analyses, |old(prompts)|);
              a.Ok? && Flag(a.value, "application_ready")
              && config.scenario != "swap_test" && config.scenario != "startup_test" && config.scenario != "status_check"
              ==> r == Err(UnknownScenario(config.scenario)) && currentIteration == old(currentIteration)
      ensures config.scenario != "swap_test" ==> r.Err?
      ensures config.dryRun ==> handed == old(handed) && executor.events == old(executor.events)
      ensures r == ScenarioOutcome(s, |old(prompts)|, SwapLoop(l, |old(prompts)| + 1, 1), totalTime)
      ensures Record() == After(Trail(old(prompts) + [ApplicationCheck], old(handed), old(executor.events)),
                                s, ScenarioCourse(s, |old(prompts)|, SwapLoop(l, |old(prompts)| + 1, 1)))
      ensures var n := |old(prompts)|;
              currentIteration == if ReadinessFailure(s, n).None? && config.scenario == "swap_test"
                                     && SwapLoop(l, n + 1, 1).begun > 0
                                  then SwapLoop(l, n + 1, 1).begun else old(currentIteration)
    {
      ghost var n := |prompts|;
      ghost var checked := Trail(prompts + [ApplicationCheck], handed, executor.events);
      var ready := VerifyApplicationReady();
      assert Record() == checked;
      if ready.Err? {
        assert ReadinessFailure(s, n) == Some(ready.error);
        NothingDone(checked, s, Course(Ok(()), [], []));
        return Err(ready.error);
      }
      assert ReadinessFailure(s, n).None?;
      if config.scenario == "swap_test" {
        var successful;
        r, successful := ExecuteSwapTest(s, l, totalTime);
      } else {
        NothingDone(checked, s, Course(Ok(()), [], []));
        if config.scenario == "startup_test" {
          r := Err(NotImplemented("Startup test not yet implemented"));
        } else if config.scenario == "status_check" {
          r := Err(NotImplemented("Status check not yet implemented"));
        } else {
          r := Err(UnknownScenario(config.scenario));
        }
      }
    }

    /** `run`: start the modules, run the scenario, and report. An exception becomes a
        failed result carrying its message and the current iteration. The report needs the
        reporter started: when a module fails to start before it, writing the report fails
        and `run` itself raises. The modules are cleaned up in every case. */
    method Run(ghost l: Loop, start: real, finish: real) returns (r: Result<TestResult, ReportError>, ghost raised: Option<Failure>)
      requires reporter.Valid() && reporter.config == config && Models(l, Scene(true), shouldAbort)
      modifies this`currentIteration, this`prompts, this`handed, executor, reporter
      ensures startup.Some? ==> raised == Some(StartupFailed(startup.value)) && prompts == old(prompts)
      ensures startup.Some? && old(reporter.info).None? ==> r == Err(NotInitialized)
      ensures startup.None? ==> r.Ok? && |prompts| > |old(prompts)| && prompts[|old(prompts)|] == ApplicationCheck
      ensures r.Ok? && raised.Some? ==>
                r.value == ErrorResult(raised.value, currentIteration, finish - start)
                           .(logFilePath := Some(JoinPath(config.outputDir, "test_report.txt")))
      ensures r.Ok? ==> r.value.logFilePath == Some(JoinPath(config.outputDir, "test_report.txt"))
                        && reporter.summary == Some(ReportSummary(finish, r.value.totalTime, r.value.success,
                                                                  r.value.iterationsCompleted, config.iterationCount,
                                                                  r.value.summary, r.value.errorMessage))
      ensures startup.None? && config.scenario != "swap_test" ==> raised.Some? && r.Ok? && !r.value.success
      ensures config.dryRun ==> handed == old(handed) && executor.events == old(executor.events)
      ensures reporter.endTime == Some(finish)
      ensures startup.None? ==>
                var o := ScenarioOutcome(Scene(true), |old(prompts)|, SwapLoop(l, |old(prompts)| + 1, 1), finish - start);
                && raised == (if o.Ok? then None else Some(o.error))
                && (o.Ok? ==> r == Ok(o.value.(logFilePath := Some(JoinPath(config.outputDir, "test_report.txt")))))
      ensures startup.None? ==>
                Record() == After(Trail(old(prompts) + [ApplicationCheck], old(handed), old(executor.events)),
                                  Scene(true), ScenarioCourse(Scene(true), |old(prompts)|, SwapLoop(l, |old(prompts)| + 1, 1)))
    {
      ghost var o := ScenarioOutcome(Scene(true), |prompts|, SwapLoop(l, |prompts| + 1, 1), finish - start);
      var outcome := Attempt(l, start, finish - start);
      assert startup.None? ==> outcome == o;
      var result: TestResult;
      if outcome.Ok? {
        result := outcome.value;
        raised := None;
      } else {
        result := ErrorResult(outcome.error, currentIteration, finish - start);
        raised := Some(outcome.error);
      }
      r := GenerateFinalReport(result, finish);
      reporter.Cleanup(finish);
    }
  }
}
