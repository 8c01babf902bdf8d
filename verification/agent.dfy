/** The computer-use agent (cua/agent.py): keeps the model's current response (the turn),
    projects it for the task loop, turns its output items into call outputs by driving
    the scaled computer, and sends the next request with a bounded retry policy. */
module CuaAgent {
  import opened Wrappers
  import opened Text
  import opened Computer
  import opened Scaling

  /** One content part of an output message. */
  datatype Content = Content(kind: string, text: string)

  /** One item of a response's output. `Unsupported` stands for any other item type. */
  datatype OutputItem =
    | Message(role: string, content: seq<Content>)
    | ComputerCall(callId: string, action: Action, checks: seq<string>)
    | FunctionCall(callId: string, name: string, arguments: string)
    | Reasoning(summary: seq<string>)
    | Unsupported(kind: string)

  datatype Response = Response(id: string, status: string, output: seq<OutputItem>)

  /** One item of a request's input. */
  datatype InputItem =
    | ComputerCallOutput(callId: string, screenshot: Shot, acknowledged: seq<string>)
    | FunctionCallOutput(callId: string, output: string)
    | UserMessage(text: string)

  /** What one request to the remote service comes back with. */
  datatype Outcome =
    | Answer(response: Response)
    | RateLimit(message: string)
    | ServerError(message: string)
    | OtherError(message: string)

  /** A custom function tool, as registered by `add_tool`. */
  datatype FunctionTool = FunctionTool(name: string, definition: string)

  /** A registered tool and the function that serves it (identified by a number). */
  datatype Registration = Registration(tool: FunctionTool, handler: nat)

  datatype ToolParam =
    | ComputerUse(displayWidth: int, displayHeight: int, environment: string)
    | Function(tool: FunctionTool)

  /** One request as sent, with the wait that preceded it in seconds. */
  datatype Request = Request(input: seq<InputItem>, previousId: Option<string>, tools: seq<ToolParam>,
                             temperature: Option<real>, wait: nat)

  /** Why `continue_task` raised. */
  datatype AgentError =
    | Device(fault: Fault)                    // the computer raised
    | BadArguments(callId: string)            // json.loads of a function call's arguments failed
    | UnsupportedTool(name: string)           // ValueError
    | ToolFailed(name: string, message: string)  // the tool function raised
    | UnsupportedOutput(kind: string)         // NotImplementedError
    | RateLimited(message: string)            // RateLimitError after the last attempt
    | ServerFailed(message: string)           // InternalServerError after the last attempt
    | RequestFailed(message: string)          // any other client error
    | Incomplete(status: string)              // the status assertion failed

  // ---------------------------------------------------------------------------------
  // Projections of the current turn

  /** `requires_user_input` */
  predicate RequiresUserInput(response: Option<Response>)
  {
    response.None? || |response.value.output| == 0
    || (var last := response.value.output[|response.value.output| - 1];
        last.Message? && last.role == "assistant")
  }

  /** `requires_consent` */
  predicate RequiresConsent(response: Option<Response>)
  {
    response.Some? && exists i :: 0 <= i < |response.value.output| && response.value.output[i].ComputerCall?
  }

  /** The actions of the computer calls among `items`, in order. */
  function ActionsOf(items: seq<OutputItem>): seq<Action>
  {
    if items == [] then []
    else (if items[0].ComputerCall? then [items[0].action] else []) + ActionsOf(items[1..])
  }

  /** The pending safety checks of the computer calls among `items`, in order. */
  function ChecksOf(items: seq<OutputItem>): seq<string>
  {
    if items == [] then []
    else (if items[0].ComputerCall? then items[0].checks else []) + ChecksOf(items[1..])
  }

  function Join(parts: seq<string>): string
  {
    if parts == [] then "" else parts[0] + Join(parts[1..])
  }

  /** The summary texts of the reasoning items among `items`, concatenated in order. */
  function SummaryOf(items: seq<OutputItem>): string
  {
    if items == [] then ""
    else (if items[0].Reasoning? then Join(items[0].summary) else "") + SummaryOf(items[1..])
  }

  function OutputTexts(content: seq<Content>): seq<string>
  {
    if content == [] then []
    else (if content[0].kind == "output_text" then [content[0].text] else []) + OutputTexts(content[1..])
  }

  /** The output_text parts of the message items among `items`, in order. */
  function MessagesOf(items: seq<OutputItem>): seq<string>
  {
    if items == [] then []
    else (if items[0].Message? then OutputTexts(items[0].content) else []) + MessagesOf(items[1..])
  }

  function Output(response: Option<Response>): seq<OutputItem>
  {
    if response.Some? then response.value.output else []
  }

  /** `actions` */
  function Actions(response: Option<Response>): seq<Action> { ActionsOf(Output(response)) }

  /** `pending_safety_checks` */
  function PendingSafetyChecks(response: Option<Response>): seq<string> { ChecksOf(Output(response)) }

  /** `reasoning_summary` */
  function ReasoningSummary(response: Option<Response>): string { SummaryOf(Output(response)) }

  /** `messages` */
  function Messages(response: Option<Response>): seq<string> { MessagesOf(Output(response)) }

  /** The projections distribute over concatenation of the output: each item contributes
      independently, in order. */
  lemma {:induction false} ProjectionsOfConcat(a: seq<OutputItem>, b: seq<OutputItem>)
    ensures ActionsOf(a + b) == ActionsOf(a) + ActionsOf(b)
    ensures ChecksOf(a + b) == ChecksOf(a) + ChecksOf(b)
    ensures SummaryOf(a + b) == SummaryOf(a) + SummaryOf(b)
    ensures MessagesOf(a + b) == MessagesOf(a) + MessagesOf(b)
  {
    if a != [] {
      var t := a[1..];
      ProjectionsOfConcat(t, b);
      assert (a + b)[0] == a[0];
      assert (a + b)[1..] == t + b;
    } else {
      assert a + b == b;
    }
  }

  /** The number of actions is the number of computer calls, and each action is its call's. */
  lemma {:induction false} ActionsAreTheComputerCalls(items: seq<OutputItem>, i: int)
    requires 0 <= i < |items| && items[i].ComputerCall?
    ensures ActionsOf(items) != []
    ensures ActionsOf(items[..i + 1]) == ActionsOf(items[..i]) + [items[i].action]
  {
    assert items[..i + 1] == items[..i] + [items[i]];
    ProjectionsOfConcat(items[..i], [items[i]]);
    assert ActionsOf([items[i]]) == [items[i].action];
    assert items == items[..i + 1] + items[i + 1..];
    ProjectionsOfConcat(items[..i + 1], items[i + 1..]);
  }

  lemma {:induction false} NoCallsNoActions(items: seq<OutputItem>)
    requires forall i :: 0 <= i < |items| ==> !items[i].ComputerCall?
    ensures ActionsOf(items) == [] && ChecksOf(items) == []
  {
    if items != [] {
      NoCallsNoActions(items[1..]);
    }
  }

  /** Consent is required exactly when the turn has actions. */
  lemma ConsentIffActions(response: Option<Response>)
    ensures RequiresConsent(response) <==> Actions(response) != []
  {
    if RequiresConsent(response) {
      var i :| 0 <= i < |response.value.output| && response.value.output[i].ComputerCall?;
      ActionsAreTheComputerCalls(response.value.output, i);
    } else {
      NoCallsNoActions(Output(response));
    }
  }

  /** Safety checks can only be pending when consent is required. */
  lemma ChecksNeedConsent(response: Option<Response>)
    requires PendingSafetyChecks(response) != []
    ensures RequiresConsent(response)
  {
    if !RequiresConsent(response) {
      NoCallsNoActions(Output(response));
    }
  }

  // ---------------------------------------------------------------------------------
  // The tool registry: a dictionary keyed by tool name, in insertion order

  function Names(regs: seq<Registration>): seq<string>
  {
    seq(|regs|, i requires 0 <= i < |regs| => regs[i].tool.name)
  }

  /** The registration under `name`, if any. */
  function Lookup(regs: seq<Registration>, name: string): (r: Option<Registration>)
    ensures r.Some? ==> r.value in regs && r.value.tool.name == name
    ensures r.None? <==> name !in Names(regs)
  {
    if regs == [] then None
    else if regs[0].tool.name == name then
      assert Names(regs)[0] == name;
      Some(regs[0])
    else
      var r := Lookup(regs[1..], name);
      assert Names(regs) == [regs[0].tool.name] + Names(regs[1..]);
      r
  }

  /** `tools[name] = (tool, func)`: replaces the entry with that name where it stands,
      or appends a new one. */
  function Assign(regs: seq<Registration>, reg: Registration): seq<Registration>
  {
    if regs == [] then [reg]
    else if regs[0].tool.name == reg.tool.name then [reg] + regs[1..]
    else [regs[0]] + Assign(regs[1..], reg)
  }

  /** Assignment behaves as a dictionary update: the name now maps to the new entry, every
      other name keeps its entry, and the key order is kept with a new name last. */
  lemma {:induction false} AssignIsDictionaryUpdate(regs: seq<Registration>, reg: Registration, name: string)
    ensures Lookup(Assign(regs, reg), name) == if name == reg.tool.name then Some(reg) else Lookup(regs, name)
    ensures Names(Assign(regs, reg)) ==
              if reg.tool.name in Names(regs) then Names(regs) else Names(regs) + [reg.tool.name]
  {
    AssignLooksUp(regs, reg, name);
    AssignKeepsOrder(regs, reg);
  }

  /** The lookup half of `AssignIsDictionaryUpdate`. */
  lemma {:induction false} AssignLooksUp(regs: seq<Registration>, reg: Registration, name: string)
    ensures Lookup(Assign(regs, reg), name) == if name == reg.tool.name then Some(reg) else Lookup(regs, name)
  {
    if regs != [] && regs[0].tool.name != reg.tool.name {
      AssignLooksUp(regs[1..], reg, name);
    }
  }

  /** The key-order half of `AssignIsDictionaryUpdate`. */
  lemma {:induction false} AssignKeepsOrder(regs: seq<Registration>, reg: Registration)
    ensures Names(Assign(regs, reg)) ==
              if reg.tool.name in Names(regs) then Names(regs) else Names(regs) + [reg.tool.name]
  {
    if regs != [] {
      AssignKeepsOrder(regs[1..], reg);
      assert Names(regs) == [regs[0].tool.name] + Names(regs[1..]);
      if regs[0].tool.name == reg.tool.name {
        assert Names(Assign(regs, reg)) == [reg.tool.name] + Names(regs[1..]);
      } else {
        assert Names(Assign(regs, reg)) == [regs[0].tool.name] + Names(Assign(regs[1..], reg));
      }
    }
  }

  /** `get_tools`: the computer tool, built from the computer's environment then its
      dimensions, followed by the registered tools in insertion order. */
  function ToolsFor(rig: Rig, regs: seq<Registration>): (r: Result<seq<ToolParam>, AgentError>)
    ensures rig.environment.Err? ==> r == Err(Device(rig.environment.error))
    ensures rig.environment.Ok? && rig.dims.Err? ==> r == Err(Device(rig.dims.error))
    ensures r.Ok? ==> |r.value| == |regs| + 1
    ensures r.Ok? ==> r.value[0] == ComputerUse(rig.dims.value.width, rig.dims.value.height, rig.environment.value)
    ensures r.Ok? ==> forall i :: 0 <= i < |regs| ==> r.value[i + 1] == Function(regs[i].tool)
  {
    if rig.environment.Err? then Err(Device(rig.environment.error))
    else if rig.dims.Err? then Err(Device(rig.dims.error))
    else
      Ok([ComputerUse(rig.dims.value.width, rig.dims.value.height, rig.environment.value)]
         + seq(|regs|, i requires 0 <= i < |regs| => Function(regs[i].tool)))
  }

  // ---------------------------------------------------------------------------------
  // Turning the previous turn's output into call outputs

  /** Everything a turn's output items are handled against. `decodes` says whether
      json.loads accepts a text; `invoke` applies a registered function to its argument
      text, giving its JSON-encoded result or the message it raised. */
  datatype Context = Context(rig: Rig, prev: Response, regs: seq<Registration>,
                             decodes: string -> bool, invoke: (nat, string) -> Result<string, string>)

  /** The state reached while handling output items: the scaler's frame, the primitive
      events caused, the call outputs built, and the error raised if any. */
  datatype Progress = Progress(frame: Frame, events: seq<Event>, inputs: seq<InputItem>, failure: Option<AgentError>)

  predicate FrameOk(f: Frame)
  {
    f.Calibrated? ==> f.screen.width > 0 && f.screen.height > 0
  }

  predicate RigOk(rig: Rig)
  {
    rig.display.width > 0 && rig.display.height > 0
  }

  /** Handling one output item. A computer call performs the turn's first action (a
      screenshot action is not performed), then captures a screenshot and answers with
      it and every pending safety check; a function call runs its registered tool. */
  function Step(c: Context, p: Progress, item: OutputItem): (q: Progress)
    requires RigOk(c.rig) && FrameOk(p.frame)
    requires item.ComputerCall? ==> ActionsOf(c.prev.output) != []
    ensures FrameOk(q.frame)
    ensures p.failure.Some? ==> q == p
    ensures p.events <= q.events && p.inputs <= q.inputs
  {
    if p.failure.Some? then p
    else
      match item
      case ComputerCall(callId, _, _) =>
        var acted := Effect(p.frame, ActionsOf(c.prev.output)[0]);
        if acted.Err? then p.(failure := Some(Device(acted.error)))
        else
          var events := p.events + acted.value;
          if !c.rig.captureWorks then Progress(p.frame, events, p.inputs, Some(Device(CaptureFailed)))
          else
            var frame := Calibrated(c.rig.target, c.rig.display);
            (match Rescale(c.rig.target, c.rig.display)
             case Err(e) => Progress(frame, events + [Capture], p.inputs, Some(Device(e)))
             case Ok(shot) =>
               Progress(frame, events + [Capture],
                        p.inputs + [ComputerCallOutput(callId, shot, ChecksOf(c.prev.output))], None))
      case FunctionCall(callId, name, arguments) =>
        if !c.decodes(arguments) then p.(failure := Some(BadArguments(callId)))
        else
          (match Lookup(c.regs, name)
           case None => p.(failure := Some(UnsupportedTool(name)))
           case Some(reg) =>
             (match c.invoke(reg.handler, arguments)
              case Err(message) => p.(failure := Some(ToolFailed(name, message)))
              case Ok(out) => p.(inputs := p.inputs + [FunctionCallOutput(callId, out)])))
      case Message(_, _) => p
      case Reasoning(_) => p
      case Unsupported(kind) => p.(failure := Some(UnsupportedOutput(kind)))
  }

  /** Handling the first |items| output items of the previous turn, in order. */
  function Conduct(c: Context, start: Progress, items: seq<OutputItem>): (p: Progress)
    requires RigOk(c.rig) && FrameOk(start.frame) && items <= c.prev.output
    ensures FrameOk(p.frame)
    ensures start.events <= p.events && start.inputs <= p.inputs
    decreases |items|
  {
    if items == [] then start
    else
      var front := items[..|items| - 1];
      var last := items[|items| - 1];
      if last.ComputerCall? then
        ActionsAreTheComputerCalls(c.prev.output, |items| - 1);
        Step(c, Conduct(c, start, front), last)
      else
        Step(c, Conduct(c, start, front), last)
  }

  /** Handling one more item is one more step. */
  lemma ConductSnoc(c: Context, start: Progress, items: seq<OutputItem>, i: nat)
    requires RigOk(c.rig) && FrameOk(start.frame) && items <= c.prev.output && i < |items|
    ensures items[i].ComputerCall? ==> ActionsOf(c.prev.output) != []
    ensures Conduct(c, start, items[..i + 1]) == Step(c, Conduct(c, start, items[..i]), items[i])
  {
    assert items[..i + 1][..i] == items[..i];
    if items[i].ComputerCall? {
      ActionsAreTheComputerCalls(c.prev.output, i);
    }
  }

  /** The call ids a turn must be answered with: one per computer or function call. */
  function CallIdsOf(items: seq<OutputItem>): seq<string>
  {
    if items == [] then []
    else CallIdsOf(items[..|items| - 1])
         + (var last := items[|items| - 1];
            if last.ComputerCall? || last.FunctionCall? then [last.callId] else [])
  }

  function AnsweredIds(inputs: seq<InputItem>): seq<string>
  {
    if inputs == [] then []
    else AnsweredIds(inputs[..|inputs| - 1])
         + (var last := inputs[|inputs| - 1];
            if last.ComputerCallOutput? || last.FunctionCallOutput? then [last.callId] else [])
  }

  lemma AnsweredIdsAppend(inputs: seq<InputItem>, x: InputItem)
    ensures AnsweredIds(inputs + [x]) == AnsweredIds(inputs) + (if x.UserMessage? then [] else [x.callId])
  {
    assert (inputs + [x])[..|inputs|] == inputs;
  }

  /** A step that raises nothing answers a computer or function call with one output
      carrying its call id, and adds nothing for any other item. */
  lemma StepAnswers(c: Context, p: Progress, item: OutputItem)
    requires RigOk(c.rig) && FrameOk(p.frame)
    requires item.ComputerCall? ==> ActionsOf(c.prev.output) != []
    requires Step(c, p, item).failure.None?
    ensures p.failure.None?
    ensures AnsweredIds(Step(c, p, item).inputs)
            == AnsweredIds(p.inputs) + (if item.ComputerCall? || item.FunctionCall? then [item.callId] else [])
  {
    var q := Step(c, p, item);
    if item.ComputerCall? || item.FunctionCall? {
      var x := q.inputs[|q.inputs| - 1];
      assert q.inputs == p.inputs + [x] && x.callId == item.callId && !x.UserMessage?;
      AnsweredIdsAppend(p.inputs, x);
    }
  }

  /** When no item raised, every computer and function call is answered exactly once, in
      the order of the items. */
  lemma {:induction false} EveryCallAnswered(c: Context, start: Progress, items: seq<OutputItem>)
    requires RigOk(c.rig) && FrameOk(start.frame) && items <= c.prev.output
    requires Conduct(c, start, items).failure.None?
    ensures AnsweredIds(Conduct(c, start, items).inputs) == AnsweredIds(start.inputs) + CallIdsOf(items)
    decreases |items|
  {
    if items != [] {
      var front := items[..|items| - 1];
      var last := items[|items| - 1];
      if last.ComputerCall? {
        ActionsAreTheComputerCalls(c.prev.output, |items| - 1);
      }
      StepAnswers(c, Conduct(c, start, front), last);
      EveryCallAnswered(c, start, front);
    }
  }

  /** Every computer call output built carries all the turn's pending safety checks. */
  lemma {:induction false} ChecksAcknowledged(c: Context, start: Progress, items: seq<OutputItem>)
    requires RigOk(c.rig) && FrameOk(start.frame) && items <= c.prev.output
    ensures forall i | |start.inputs| <= i < |Conduct(c, start, items).inputs| ::
              Conduct(c, start, items).inputs[i].ComputerCallOutput? ==>
              Conduct(c, start, items).inputs[i].acknowledged == ChecksOf(c.prev.output)
    decreases |items|
  {
    if items != [] {
      if items[|items| - 1].ComputerCall? {
        ActionsAreTheComputerCalls(c.prev.output, |items| - 1);
      }
      ChecksAcknowledged(c, start, items[..|items| - 1]);
    }
  }

  // ---------------------------------------------------------------------------------
  // The retry policy

  const Attempts: nat := 10

  /** The phrase a rate-limit message may carry before its suggested wait. */
  const TryAgainPhrase: string := "Please try again in "

  /** The first `TryAgainPhrase` followed by digits and "s", as the pattern
      "Please try again in (\d+)s" finds it: the number, if any. */
  function SuggestedWait(message: string): (r: Option<nat>)
    decreases |message|
  {
    if |message| < |TryAgainPhrase| then None
    else if message[..|TryAgainPhrase|] == TryAgainPhrase
         && (var j := DigitRunEnd(message, |TryAgainPhrase|);
             j > |TryAgainPhrase| && j < |message| && message[j] == 's')
    then Some(ParseNat(message[|TryAgainPhrase|..DigitRunEnd(message, |TryAgainPhrase|)]))
    else SuggestedWait(message[1..])
  }

  /** The wait after a rate-limit error: the suggested one, else 10 seconds. */
  function RetryWait(message: string): (w: nat)
    ensures SuggestedWait(message) == Some(w) || (SuggestedWait(message).None? && w == 10)
  {
    match SuggestedWait(message)
    case Some(n) => n
    case None => 10
  }

  /** A message that starts with the phrase, a number and "s" yields that number. */
  lemma SuggestedWaitReadsNumber(n: nat, rest: string)
    ensures SuggestedWait(TryAgainPhrase + NatToString(n) + "s" + rest) == Some(n)
  {
    var digits := NatToString(n);
    var m := TryAgainPhrase + digits + "s" + rest;
    var k := |TryAgainPhrase|;
    assert m[..k] == TryAgainPhrase;
    assert forall i :: k <= i < k + |digits| ==> m[i] == digits[i - k];
    DigitRunEndAt(m, k, k + |digits|);
    assert m[k + |digits|] == 's';
    assert m[k..k + |digits|] == digits;
    ParseNatToString(n);
  }

  lemma DigitRunEndAt(s: string, i: nat, j: nat)
    requires i <= j < |s| && AllDigits(s[i..j]) && !IsDigit(s[j])
    ensures DigitRunEnd(s, i) == j
    decreases j - i
  {
    if i < j {
      assert IsDigit(s[i..j][0]);
      assert s[i + 1..j] == s[i..j][1..];
      DigitRunEndAt(s, i + 1, j);
    }
  }

  lemma RetryWaitExamples()
    ensures RetryWait("Rate limit reached. Please try again in 7s.") == 7
    ensures RetryWait("Rate limit reached.") == 10
  {
    var m := "Rate limit reached. Please try again in 7s.";
    assert m == "Rate limit reached. " + (TryAgainPhrase + NatToString(7) + "s" + ".");
    SuggestedWaitReadsNumber(7, ".");
    SuggestedWaitSkipsPrefix("Rate limit reached. ", TryAgainPhrase + NatToString(7) + "s" + ".");
  }

  /** Leading text without a 'P' cannot start the phrase and is skipped. */
  lemma {:induction false} SuggestedWaitSkipsPrefix(prefix: string, m: string)
    requires forall i :: 0 <= i < |prefix| ==> prefix[i] != 'P'
    ensures SuggestedWait(prefix + m) == SuggestedWait(m)
  {
    if prefix != [] {
      assert (prefix + m)[0] == prefix[0];
      assert TryAgainPhrase[0] == 'P';
      if |prefix + m| >= |TryAgainPhrase| {
        assert (prefix + m)[..|TryAgainPhrase|][0] != TryAgainPhrase[0];
      }
      assert (prefix + m)[1..] == prefix[1..] + m;
      SuggestedWaitSkipsPrefix(prefix[1..], m);
    } else {
      assert prefix + m == m;
    }
  }

  /** The service's answer to request number n: the n-th scripted outcome; a request
      beyond the script fails. */
  function Reply(script: seq<Outcome>, n: nat): Outcome
  {
    if n < |script| then script[n] else OtherError("no response")
  }

  /** The attempts of one `continue_task` request: the waits that preceded them, the
      result, and the response the agent is left holding. */
  datatype Exchange = Exchange(waits: seq<nat>, result: Result<(), AgentError>, kept: Option<Response>)

  /** The attempts made with `retry` attempts left and `wait` seconds to wait first, when
      the service answers request number `next` with `Reply(respond, next)`. */
  function Exchanged(respond: seq<Outcome>, next: nat, retry: nat, wait: nat): (x: Exchange)
    requires retry >= 1
    ensures 1 <= |x.waits| <= retry && x.waits[0] == wait
    ensures x.result.Ok? ==> x.kept.Some? && x.kept.value.status == "completed"
    ensures x.result.Err? && x.kept.Some? ==> x.result.error == Incomplete(x.kept.value.status)
    decreases retry
  {
    match Reply(respond, next)
    case Answer(response) =>
      if response.status == "completed" then Exchange([wait], Ok(()), Some(response))
      else Exchange([wait], Err(Incomplete(response.status)), Some(response))
    case RateLimit(message) =>
      if retry == 1 then Exchange([wait], Err(RateLimited(message)), None)
      else
        var x := Exchanged(respond, next + 1, retry - 1, RetryWait(message));
        x.(waits := [wait] + x.waits)
    case ServerError(message) =>
      if retry == 1 then Exchange([wait], Err(ServerFailed(message)), None)
      else
        var x := Exchanged(respond, next + 1, retry - 1, wait);
        x.(waits := [wait] + x.waits)
    case OtherError(message) => Exchange([wait], Err(RequestFailed(message)), None)
  }

  /** One attempt of the policy: the first outcome either decides the exchange or leaves
      it to the attempts that remain. */
  lemma ExchangedUnfold(respond: seq<Outcome>, next: nat, retry: nat, wait: nat)
    requires retry >= 1
    ensures var x := Exchanged(respond, next, retry, wait);
      var o := Reply(respond, next);
      (o.Answer? && o.response.status == "completed" ==> x == Exchange([wait], Ok(()), Some(o.response)))
      && (o.Answer? && o.response.status != "completed" ==>
            x == Exchange([wait], Err(Incomplete(o.response.status)), Some(o.response)))
      && (o.OtherError? ==> x == Exchange([wait], Err(RequestFailed(o.message)), None))
      && (o.RateLimit? && retry == 1 ==> x == Exchange([wait], Err(RateLimited(o.message)), None))
      && (o.ServerError? && retry == 1 ==> x == Exchange([wait], Err(ServerFailed(o.message)), None))
      && (o.RateLimit? && retry > 1 ==>
            var y := Exchanged(respond, next + 1, retry - 1, RetryWait(o.message)); x == y.(waits := [wait] + y.waits))
      && (o.ServerError? && retry > 1 ==>
            var y := Exchanged(respond, next + 1, retry - 1, wait); x == y.(waits := [wait] + y.waits))
  {
  }

  /** What the retry loop makes of one outcome when `retry` attempts are left after it:
      the turn ends with a result and the response kept, or it goes on after a wait. */
  datatype Verdict = Done(result: Result<(), AgentError>, kept: Option<Response>) | Again(wait: nat)

  /** The body of the retry loop after the request: a completed response returns, any
      other response fails its status assertion, a rate limit waits as the message
      suggests, a server error keeps the wait, and the last attempt re-raises. */
  function Judge(o: Outcome, retry: nat, wait: nat): (v: Verdict)
    ensures v.Again? ==> retry > 0 && (o.RateLimit? || o.ServerError?)
    ensures v.Done? && v.result.Ok? ==> o.Answer? && v.kept == Some(o.response) && o.response.status == "completed"
    ensures o.Answer? ==> v.Done? && v.kept == Some(o.response)
    ensures o.OtherError? ==> v == Done(Err(RequestFailed(o.message)), None)
  {
    match o
    case Answer(response) =>
      if response.status == "completed" then Done(Ok(()), Some(response))
      else Done(Err(Incomplete(response.status)), Some(response))
    case RateLimit(message) =>
      if retry == 0 then Done(Err(RateLimited(message)), None) else Again(RetryWait(message))
    case ServerError(message) =>
      if retry == 0 then Done(Err(ServerFailed(message)), None) else Again(wait)
    case OtherError(message) => Done(Err(RequestFailed(message)), None)
  }

  /** The exchange as the retry loop builds it: `sent` are the waits of the attempts
      already made, and the loop goes on from request number `next`. */
  function ExchangedFrom(respond: seq<Outcome>, next: nat, retry: nat, wait: nat, sent: seq<nat>): (x: Exchange)
    requires retry >= 1
    decreases retry
  {
    match Judge(Reply(respond, next), retry - 1, wait)
    case Done(result, kept) => Exchange(sent + [wait], result, kept)
    case Again(w) => ExchangedFrom(respond, next + 1, retry - 1, w, sent + [wait])
  }

  /** One round of the loop: the verdict on the outcome either ends the exchange or hands
      it on to the next request. */
  lemma ExchangedFromStep(respond: seq<Outcome>, next: nat, retry: nat, wait: nat, sent: seq<nat>, v: Verdict)
    requires retry >= 1 && v == Judge(Reply(respond, next), retry - 1, wait)
    ensures v.Done? ==> ExchangedFrom(respond, next, retry, wait, sent) == Exchange(sent + [wait], v.result, v.kept)
    ensures v.Again? ==> retry >= 2 && ExchangedFrom(respond, next, retry, wait, sent)
                                       == ExchangedFrom(respond, next + 1, retry - 1, v.wait, sent + [wait])
  {
  }

  /** The loop's accumulated exchange is the policy's exchange behind the attempts made. */
  lemma {:induction false} ExchangedFromPrefix(respond: seq<Outcome>, next: nat, retry: nat, wait: nat, sent: seq<nat>)
    requires retry >= 1
    ensures var x := Exchanged(respond, next, retry, wait);
      ExchangedFrom(respond, next, retry, wait, sent) == x.(waits := sent + x.waits)
    decreases retry
  {
    var o := Reply(respond, next);
    if (o.RateLimit? || o.ServerError?) && retry > 1 {
      var w := if o.RateLimit? then RetryWait(o.message) else wait;
      ExchangedFromPrefix(respond, next + 1, retry - 1, w, sent + [wait]);
      var y := Exchanged(respond, next + 1, retry - 1, w);
      assert sent + [wait] + y.waits == sent + ([wait] + y.waits);
    }
  }

  /** A retried attempt waits as the policy says: after a rate limit, the suggested wait
      or 10 seconds; after a server error, the same wait as before. Only rate limits and
      server errors are retried. */
  lemma {:induction false} RetriesFollowPolicy(respond: seq<Outcome>, next: nat, retry: nat, wait: nat, k: nat)
    requires retry >= 1
    requires k + 1 < |Exchanged(respond, next, retry, wait).waits|
    ensures Reply(respond, next + k).RateLimit? || Reply(respond, next + k).ServerError?
    ensures Reply(respond, next + k).RateLimit? ==>
              Exchanged(respond, next, retry, wait).waits[k + 1] == RetryWait(Reply(respond, next + k).message)
    ensures Reply(respond, next + k).ServerError? ==>
              Exchanged(respond, next, retry, wait).waits[k + 1] == Exchanged(respond, next, retry, wait).waits[k]
    decreases k
  {
    var x := Exchanged(respond, next, retry, wait);
    ExchangedUnfold(respond, next, retry, wait);
    assert !Reply(respond, next).Answer? && !Reply(respond, next).OtherError? && retry > 1;
    var w := if Reply(respond, next).RateLimit? then RetryWait(Reply(respond, next).message) else wait;
    var y := Exchanged(respond, next + 1, retry - 1, w);
    assert x.waits == [wait] + y.waits;
    if k > 0 {
      RetriesFollowPolicy(respond, next + 1, retry - 1, w, k - 1);
      assert next + 1 + (k - 1) == next + k;
    }
  }

  /** The error after the last attempt is that attempt's own. */
  lemma {:induction false} LastAttemptDecides(respond: seq<Outcome>, next: nat, retry: nat, wait: nat)
    requires retry >= 1
    ensures var x := Exchanged(respond, next, retry, wait);
      var last := Reply(respond, next + |x.waits| - 1);
      (last.Answer? ==> x.kept == Some(last.response))
      && (last.RateLimit? ==> x.result == Err(RateLimited(last.message)) && |x.waits| == retry)
      && (last.ServerError? ==> x.result == Err(ServerFailed(last.message)) && |x.waits| == retry)
      && (last.OtherError? ==> x.result == Err(RequestFailed(last.message)))
    decreases retry
  {
    var x := Exchanged(respond, next, retry, wait);
    match Reply(respond, next)
    case Answer(_) =>
    case OtherError(_) =>
    case RateLimit(message) =>
      if retry > 1 {
        LastAttemptDecides(respond, next + 1, retry - 1, RetryWait(message));
      }
    case ServerError(_) =>
      if retry > 1 {
        LastAttemptDecides(respond, next + 1, retry - 1, wait);
      }
  }

  /** The requests of the attempts that waited `waits`, in order. */
  function Requests(input: seq<InputItem>, previousId: Option<string>, tools: seq<ToolParam>,
                    temperature: Option<real>, waits: seq<nat>): (r: seq<Request>)
  {
    seq(|waits|, i requires 0 <= i < |waits| => Request(input, previousId, tools, temperature, waits[i]))
  }

  lemma RequestsSnoc(input: seq<InputItem>, previousId: Option<string>, tools: seq<ToolParam>,
                     temperature: Option<real>, waits: seq<nat>, wait: nat)
    ensures Requests(input, previousId, tools, temperature, waits + [wait])
            == Requests(input, previousId, tools, temperature, waits) + [Request(input, previousId, tools, temperature, wait)]
  {
  }

  lemma ConcatAssoc<T>(a: seq<T>, b: seq<T>, c: seq<T>)
    ensures a + b + c == a + (b + c)
  {
  }

  /** The requests sent for one turn and the response kept, as the retry policy has them:
      none when the tools cannot be built, else one per attempt. */
  predicate Delivered(rig: Rig, regs: seq<Registration>, respond: seq<Outcome>,
                      before: seq<Request>, after: seq<Request>, input: seq<InputItem>,
                      previousId: Option<string>, temperature: Option<real>,
                      kept: Option<Response>, r: Result<(), AgentError>)
  {
    match ToolsFor(rig, regs)
    case Err(e) => r == Err(e) && after == before && kept == None
    case Ok(tools) =>
      var x := Exchanged(respond, |before|, Attempts, 0);
      after == before + Requests(input, previousId, tools, temperature, x.waits)
      && kept == x.kept
      && r == x.result
  }

  /** When the retry loop has built the whole exchange, the requests sent and the
      response kept are those the policy delivers. */
  lemma DeliveredWhole(rig: Rig, regs: seq<Registration>, respond: seq<Outcome>,
                       before: seq<Request>, after: seq<Request>, input: seq<InputItem>,
                       previousId: Option<string>, temperature: Option<real>, whole: Exchange)
    requires ToolsFor(rig, regs).Ok?
    requires whole == ExchangedFrom(respond, |before|, Attempts, 0, [])
    requires after == before + Requests(input, previousId, ToolsFor(rig, regs).value, temperature, whole.waits)
    ensures Delivered(rig, regs, respond, before, after, input, previousId, temperature, whole.kept, whole.result)
  {
    ExchangedFromPrefix(respond, |before|, Attempts, 0, []);
    var x := Exchanged(respond, |before|, Attempts, 0);
    assert [] + x.waits == x.waits;
  }

  /** The previous turn, or an empty one when there is none. */
  function Previous(response: Option<Response>): (r: Response)
    ensures r.output == Output(response)
  {
    if response.Some? then response.value else Response("", "", [])
  }

  function PreviousId(response: Option<Response>): Option<string>
  {
    if response.Some? then Some(response.value.id) else None
  }

  /** The remote service: answers the n-th request it ever receives with `Reply(respond, n)`. */
  class Client {
    const respond: seq<Outcome>
    var requests: seq<Request>

    constructor (respond: seq<Outcome>)
      ensures this.respond == respond && requests == []
    {
      this.respond := respond;
      requests := [];
    }

    /** `responses.create` */
    method Create(request: Request) returns (o: Outcome)
      modifies this`requests
      ensures requests == old(requests) + [request]
      ensures o == Reply(respond, |old(requests)|)
    {
      o := Reply(respond, |requests|);
      requests := requests + [request];
    }
  }

  class Agent {
    const client: Client
    const model: string
    const computer: Scaler
    const decodes: string -> bool
    const invoke: (nat, string) -> Result<string, string>
    /** `self.tools`, in insertion order. */
    var tools: seq<Registration>
    /** `self.response`: the current turn. */
    var response: Option<Response>
    /** The response held after each continue_task call so far, in order. */
    ghost var kept: seq<Option<Response>>

    ghost predicate Valid()
      reads this, computer, computer.computer
    {
      computer.Valid()
    }

    ghost function Ctx(prev: Response): Context
      reads this, computer, computer.computer
      requires Valid()
    {
      Context(computer.CurrentRig(), prev, tools, decodes, invoke)
    }

    /** A new agent has no response. */
    constructor (client: Client, model: string, computer: Scaler,
                 decodes: string -> bool, invoke: (nat, string) -> Result<string, string>)
      requires computer.Valid()
      ensures Valid()
      ensures this.client == client && this.model == model && this.computer == computer
      ensures this.decodes == decodes && this.invoke == invoke
      ensures tools == [] && response == None && kept == []
    {
      this.client := client;
      this.model := model;
      this.computer := computer;
      this.decodes := decodes;
      this.invoke := invoke;
      tools := [];
      response := None;
      kept := [];
    }

    /** `add_tool` */
    method AddTool(tool: FunctionTool, handler: nat)
      modifies this`tools
      ensures tools == Assign(old(tools), Registration(tool, handler))
    {
      tools := Assign(tools, Registration(tool, handler));
    }

    /** `start_task` */
    method StartTask()
      modifies this`response
      ensures response == None
    {
      response := None;
    }

    /** `computer_tool` */
    method ComputerTool() returns (r: Result<ToolParam, AgentError>)
      requires Valid()
      modifies computer`size, computer.computer`size
      ensures Valid() && computer.CurrentRig() == old(computer.CurrentRig())
      ensures computer.Frame() == old(computer.Frame()) && computer.computer.trace == old(computer.computer.trace)
      ensures r.Err? <==> ToolsFor(old(computer.CurrentRig()), tools).Err?
      ensures r.Err? ==> r.error == ToolsFor(old(computer.CurrentRig()), tools).error
      ensures r.Ok? ==> r.value == ToolsFor(old(computer.CurrentRig()), tools).value[0]
    {
      var environment := computer.Environment();
      if environment.Err? {
        return Err(Device(environment.error));
      }
      var dims := computer.Dimensions();
      if dims.Err? {
        return Err(Device(dims.error));
      }
      r := Ok(ComputerUse(dims.value.width, dims.value.height, environment.value));
    }

    /** `get_tools` */
    method GetTools() returns (r: Result<seq<ToolParam>, AgentError>)
      requires Valid()
      modifies computer`size, computer.computer`size
      ensures Valid() && computer.CurrentRig() == old(computer.CurrentRig())
      ensures computer.Frame() == old(computer.Frame()) && computer.computer.trace == old(computer.computer.trace)
      ensures r == ToolsFor(old(computer.CurrentRig()), tools)
    {
      var first := ComputerTool();
      if first.Err? {
        return Err(first.error);
      }
      var regs := tools;
      var custom := seq(|regs|, i requires 0 <= i < |regs| => Function(regs[i].tool));
      r := Ok([first.value] + custom);
    }

    /** Performs one action on the scaled computer, as `getattr(computer, action)(**args)`. */
    method Perform(a: Action) returns (r: Result<(), Fault>)
      requires Valid()
      modifies computer.computer
      ensures Valid() && computer.CurrentRig() == old(computer.CurrentRig()) && computer.Frame() == old(computer.Frame())
      ensures Applied(Effect(old(computer.Frame()), a), r, old(computer.computer.trace), computer.computer.trace)
    {
      match a
      case Click(x, y, button) => r := computer.Click(x, y, button);
      case DoubleClick(x, y) => r := computer.DoubleClick(x, y);
      case Scroll(x, y, scrollX, scrollY) => r := computer.Scroll(x, y, scrollX, scrollY);
      case Type(text) => r := computer.Type(text);
      case Wait(ms) => r := computer.Wait(ms);
      case Move(x, y) => r := computer.Move(x, y);
      case Keypress(keys) => r := computer.Keypress(keys);
      case Drag(path) => r := computer.Drag(path);
      case Screenshot => r := Ok(());
    }

    /** Handles one output item of the previous turn (the body of the item loop). The
        events the item causes are appended to those caused since `trace0`. */
    method HandleItem(prev: Response, item: OutputItem, inputs: seq<InputItem>,
                      ghost c: Context, ghost trace0: seq<Event>)
      returns (out: seq<InputItem>, failure: Option<AgentError>)
      requires Valid() && c == Ctx(prev) && trace0 <= computer.computer.trace
      requires item.ComputerCall? ==> ActionsOf(prev.output) != []
      modifies computer, computer.computer
      ensures Valid() && computer.CurrentRig() == c.rig && trace0 <= computer.computer.trace
      ensures Step(c, Progress(old(computer.Frame()), old(computer.computer.trace)[|trace0|..], inputs, None), item)
              == Progress(computer.Frame(), computer.computer.trace[|trace0|..], out, failure)
    {
      ghost var done := computer.computer.trace[|trace0|..];
      out, failure := inputs, None;
      match item
      case ComputerCall(callId, _, _) =>
        var a := ActionsOf(prev.output)[0];
        if !a.Screenshot? {
          var acted := Perform(a);
          if acted.Err? {
            return out, Some(Device(acted.error));
          }
        }
        ghost var events := computer.computer.trace[|trace0|..];
        assert events == done + Effect(old(computer.Frame()), a).value;
        var shot := computer.Screenshot();
        assert computer.computer.trace[|trace0|..] == events + (if computer.computer.captureWorks then [Capture] else []);
        if shot.Err? {
          return out, Some(Device(shot.error));
        }
        out := out + [ComputerCallOutput(callId, shot.value, ChecksOf(prev.output))];
      case FunctionCall(callId, name, arguments) =>
        if !decodes(arguments) {
          return out, Some(BadArguments(callId));
        }
        var reg := Lookup(tools, name);
        if reg.None? {
          return out, Some(UnsupportedTool(name));
        }
        var result := invoke(reg.value.handler, arguments);
        if result.Err? {
          return out, Some(ToolFailed(name, result.error));
        }
        out := out + [FunctionCallOutput(callId, result.value)];
      case Message(_, _) =>
      case Reasoning(_) =>
      case Unsupported(kind) =>
        return out, Some(UnsupportedOutput(kind));
    }

    /** The item loop of `continue_task`: every output item of the previous turn in order,
        stopping at the first that raises. */
    method BuildInputs(prev: Response) returns (inputs: seq<InputItem>, failure: Option<AgentError>)
      requires Valid()
      modifies computer, computer.computer
      ensures Valid() && computer.CurrentRig() == old(computer.CurrentRig())
      ensures old(computer.computer.trace) <= computer.computer.trace
      ensures Conduct(old(Ctx(prev)), Progress(old(computer.Frame()), [], [], None), prev.output)
              == Progress(computer.Frame(), computer.computer.trace[|old(computer.computer.trace)|..], inputs, failure)
    {
      ghost var c := Ctx(prev);
      ghost var start := Progress(computer.Frame(), [], [], None);
      ghost var trace0 := computer.computer.trace;
      inputs, failure := [], None;
      var i := 0;
      while i < |prev.output|
        invariant i <= |prev.output|
        invariant Valid() && c == Ctx(prev) && trace0 <= computer.computer.trace && failure.None?
        invariant Conduct(c, start, prev.output[..i])
                  == Progress(computer.Frame(), computer.computer.trace[|trace0|..], inputs, None)
      {
        ConductSnoc(c, start, prev.output, i);
        inputs, failure := HandleItem(prev, prev.output[i], inputs, c, trace0);
        if failure.Some? {
          FailureIsFinal(c, start, prev.output, i + 1);
          return;
        }
        i := i + 1;
      }
      assert prev.output[..i] == prev.output;
    }

    /** The agent is valid and its computer is in the given state. */
    ghost predicate Steady(rig: Rig, frame: Frame, trace: seq<Event>)
      reads this, computer, computer.computer
    {
      Valid() && computer.CurrentRig() == rig && computer.Frame() == frame && computer.computer.trace == trace
    }

    /** One attempt of the retry loop: the tool list is built afresh, the request sent and
        its outcome judged. `sent` are the waits of the attempts already made. */
    method Attempt(inputs: seq<InputItem>, previousId: Option<string>, temperature: Option<real>,
                   wait: nat, retry: nat, ghost rig: Rig, ghost frame: Frame, ghost trace: seq<Event>,
                   ghost before: seq<Request>, ghost sent: seq<nat>, ghost params: seq<ToolParam>, ghost next: nat)
      returns (v: Result<Verdict, AgentError>)
      requires Steady(rig, frame, trace) && next == |before| + |sent|
      requires client.requests == before + Requests(inputs, previousId, params, temperature, sent)
      requires ToolsFor(rig, tools).Ok? ==> params == ToolsFor(rig, tools).value
      requires sent != [] ==> ToolsFor(rig, tools).Ok?
      modifies client`requests, computer`size, computer.computer`size
      ensures Steady(rig, frame, trace)
      ensures v.Err? ==> sent == [] && ToolsFor(rig, tools) == Err(v.error) && client.requests == before
      ensures v.Ok? ==> ToolsFor(rig, tools) == Ok(params)
                        && client.requests == before + Requests(inputs, previousId, params, temperature, sent + [wait])
                        && v.value == Judge(Reply(client.respond, next), retry, wait)
    {
      var got := GetTools();
      if got.Err? {
        return Err(got.error);
      }
      RequestsSnoc(inputs, previousId, params, temperature, sent, wait);
      ConcatAssoc(before, Requests(inputs, previousId, params, temperature, sent), [Request(inputs, previousId, params, temperature, wait)]);
      var outcome := client.Create(Request(inputs, previousId, got.value, temperature, wait));
      v := Ok(Judge(outcome, retry, wait));
    }

    /** The state of the retry loop: the computer as it was, one request per attempt made,
        and `whole`, the exchange the loop is building. */
    ghost predicate Retrying(rig: Rig, frame: Frame, trace: seq<Event>, before: seq<Request>,
                             inputs: seq<InputItem>, previousId: Option<string>, temperature: Option<real>,
                             params: seq<ToolParam>, sent: seq<nat>, next: nat, retry: nat, wait: nat, whole: Exchange)
      reads this, client, computer, computer.computer
    {
      Steady(rig, frame, trace)
      && (ToolsFor(rig, tools).Ok? ==> params == ToolsFor(rig, tools).value)
      && client.requests == before + Requests(inputs, previousId, params, temperature, sent)
      && (sent != [] ==> ToolsFor(rig, tools).Ok?)
      && next == |before| + |sent| && retry >= 1
    }

    /** One round of the retry loop: an attempt, and what it means for the turn. */
    method Round(inputs: seq<InputItem>, previousId: Option<string>, temperature: Option<real>,
                 wait: nat, retry: nat, ghost rig: Rig, ghost frame: Frame, ghost trace: seq<Event>,
                 ghost before: seq<Request>, ghost sent: seq<nat>, ghost params: seq<ToolParam>, ghost next: nat,
                 ghost whole: Exchange)
      returns (v: Result<Verdict, AgentError>)
      requires Retrying(rig, frame, trace, before, inputs, previousId, temperature, params, sent, next, retry, wait, whole)
      requires ExchangedFrom(client.respond, next, retry, wait, sent) == whole
      modifies client`requests, computer`size, computer.computer`size
      ensures Steady(rig, frame, trace)
      ensures v.Err? ==> ToolsFor(rig, tools) == Err(v.error) && client.requests == before
      ensures v.Ok? && v.value.Done? ==>
                ToolsFor(rig, tools) == Ok(params) && whole == Exchange(sent + [wait], v.value.result, v.value.kept)
                && client.requests == before + Requests(inputs, previousId, params, temperature, whole.waits)
      ensures v.Ok? && v.value.Again? ==>
                retry >= 2 && Retrying(rig, frame, trace, before, inputs, previousId, temperature, params,
                                       sent + [wait], next + 1, retry - 1, v.value.wait, whole)
                && ExchangedFrom(client.respond, next + 1, retry - 1, v.value.wait, sent + [wait]) == whole
    {
      v := Attempt(inputs, previousId, temperature, wait, retry - 1, rig, frame, trace, before, sent, params, next);
      if v.Ok? {
        ExchangedFromStep(client.respond, next, retry, wait, sent, v.value);
      }
    }

    /** The retry loop of `continue_task`. */
    method Send(inputs: seq<InputItem>, previousId: Option<string>, temperature: Option<real>)
      returns (r: Result<(), AgentError>, kept: Option<Response>)
      requires Valid()
      modifies client`requests, computer`size, computer.computer`size
      ensures Steady(old(computer.CurrentRig()), old(computer.Frame()), old(computer.computer.trace))
      ensures Delivered(old(computer.CurrentRig()), tools, client.respond, old(client.requests), client.requests,
                        inputs, previousId, temperature, kept, r)
    {
      ghost var rig := computer.CurrentRig();
      ghost var frame := computer.Frame();
      ghost var trace := computer.computer.trace;
      ghost var before := client.requests;
      ghost var params := if ToolsFor(rig, tools).Ok? then ToolsFor(rig, tools).value else [];
      ghost var whole := ExchangedFrom(client.respond, |before|, Attempts, 0, []);
      ghost var sent: seq<nat> := [];
      ghost var next: nat := |before|;
      var wait: nat := 0;
      var retry: nat := Attempts;
      assert before + Requests(inputs, previousId, params, temperature, sent) == before;
      while true
        invariant Retrying(rig, frame, trace, before, inputs, previousId, temperature, params, sent, next, retry, wait, whole)
        invariant ExchangedFrom(client.respond, next, retry, wait, sent) == whole
        decreases retry
      {
        var v := Round(inputs, previousId, temperature, wait, retry, rig, frame, trace, before, sent, params, next, whole);
        if v.Err? {
          r, kept := Err(v.error), None;
          break;
        }
        if v.value.Done? {
          DeliveredWhole(rig, tools, client.respond, before, client.requests, inputs, previousId, temperature, whole);
          r, kept := v.value.result, v.value.kept;
          break;
        }
        sent, next, wait, retry := sent + [wait], next + 1, v.value.wait, retry - 1;
      }
    }

    /** `continue_task`: answer the previous turn's calls, then request the next turn. */
    method ContinueTask(userMessage: string, temperature: Option<real>) returns (r: Result<(), AgentError>)
      requires Valid()
      modifies this`response, this`kept, client`requests, computer, computer.computer
      ensures Valid() && computer.CurrentRig() == old(computer.CurrentRig())
      ensures kept == old(kept) + [response]
      ensures var p := Conduct(old(Ctx(Previous(response))), Progress(old(computer.Frame()), [], [], None),
                               Output(old(response)));
        computer.Frame() == p.frame
        && computer.computer.trace == old(computer.computer.trace) + p.events
        && (p.failure.Some? ==>
              r == Err(p.failure.value) && response == old(response) && client.requests == old(client.requests))
        && (p.failure.None? ==>
              Delivered(old(computer.CurrentRig()), tools, client.respond, old(client.requests), client.requests,
                        p.inputs + (if userMessage != "" then [UserMessage(userMessage)] else []),
                        PreviousId(old(response)), temperature, response, r))
    {
      var prev := Previous(response);
      var previousId := PreviousId(response);
      ghost var trace0 := computer.computer.trace;
      var inputs, failure := BuildInputs(prev);
      assert computer.computer.trace == trace0 + computer.computer.trace[|trace0|..];
      if failure.Some? {
        kept := kept + [response];
        return Err(failure.value);
      }
      ghost var p := Conduct(old(Ctx(Previous(response))), Progress(old(computer.Frame()), [], [], None), Output(old(response)));
      if userMessage != "" {
        inputs := inputs + [UserMessage(userMessage)];
      }
      assert inputs == p.inputs + (if userMessage != "" then [UserMessage(userMessage)] else []);
      assert computer.CurrentRig() == old(computer.CurrentRig());
      r, response := Send(inputs, previousId, temperature);
      kept := kept + [response];
      assert Delivered(old(computer.CurrentRig()), tools, client.respond, old(client.requests), client.requests,
                        inputs, PreviousId(old(response)), temperature, response, r);
    }
  }

  /** Once an item raises, the remaining items change nothing. */
  lemma {:induction false} FailureIsFinal(c: Context, start: Progress, items: seq<OutputItem>, k: nat)
    requires RigOk(c.rig) && FrameOk(start.frame) && items <= c.prev.output
    requires k <= |items| && Conduct(c, start, items[..k]).failure.Some?
    ensures Conduct(c, start, items) == Conduct(c, start, items[..k])
    decreases |items| - k
  {
    if k < |items| {
      ConductSnoc(c, start, items, k);
      FailureIsFinal(c, start, items, k + 1);
    } else {
      assert items[..k] == items;
    }
  }
}
