/** The test agent's action executor (src/core/action_executor.py): it dispatches an action
    dictionary to key presses, key sequences, clicks and waits, and translates the actions
    the vision service recommends into that form. The keyboard and mouse are an appended
    trace of input events; the pauses between inputs are not modelled. */
module Executor {
  import opened Wrappers
  import opened Text
  import opened JsonValues

  /** A key as the input layer presses it: a named key of the keyboard library, a
      character key, or the numpad '+' virtual key sent through the Windows API. */
  datatype Key = Named(name: string) | Character(text: string) | VkAdd

  datatype InputEvent =
    | Press(key: Key)
    | Release(key: Key)
    | MoveTo(x: Json, y: Json)
    | LeftClick
    | Typed(text: string)

  /** What the executor runs on: Windows or not, and the names the keyboard library's
      `Key` enumeration defines (the `hasattr(keyboard.Key, name)` test). */
  datatype Platform = Platform(windows: bool, namedKeys: set<string>)

  /** Why a handler failed. */
  datatype Cause =
    | UnknownType
    | KeyNotSpecified
    | KeySequenceNotSpecified
    | NotText(value: Json)
    | NotIterable(value: Json)
    | BadCoordinates
    | NoMouse
    | BadDuration
    | PressFailed(key: string)
    | CombinationFailed
    | SendFailed

  /** The errors `execute_action` raises: an action that is not a dictionary fails on
      `.get`; a missing type is reported as such; every failure of a handler is re-raised
      as a failure to execute that type. */
  datatype ExecError = NotADict | TypeMissing | Failed(actionType: Json, cause: Cause)

  /** The events a handler emitted, and its failure if it stopped on one. */
  datatype Effect<E> = Effect(events: seq<InputEvent>, failure: Option<E>)

  /** `key_mappings` */
  const KeyMappings: map<string, string> :=
    map["click" := "num_add", "enter" := "enter", "escape" := "escape", "up" := "up", "down" := "down",
        "left" := "left", "right" := "right", "tab" := "tab", "space" := "space"]

  function Mapped(name: string): string
  {
    if name in KeyMappings then KeyMappings[name] else name
  }

  /** The key pressed for a (mapped) key name: numpad '+' through the Windows API on
      Windows and the ctrl placeholder elsewhere, else a named key when the library has
      one, else a character key. */
  function KeyObject(p: Platform, name: string): Key
  {
    if name == "num_add" then (if p.windows then VkAdd else Named("ctrl"))
    else if name in p.namedKeys then Named(name)
    else Character(name)
  }

  /** Pressing and releasing one key. Only the Windows numpad path works without the
      keyboard controller that `initialize` creates. */
  function Tap(p: Platform, ready: bool, name: string): Result<seq<InputEvent>, Cause>
  {
    if (name == "num_add" && p.windows) || ready then Ok([Press(KeyObject(p, name)), Release(KeyObject(p, name))])
    else Err(PressFailed(name))
  }

  /** `_execute_key_press`: the key is lower-cased, must be non-empty, and is mapped
      through the table before it is pressed. */
  function KeyPress(p: Platform, ready: bool, action: Dict): Result<seq<InputEvent>, Cause>
  {
    var key := Get(action, "key", JStr(""));
    if !key.JStr? then Err(NotText(key))
    else if Lower(key.s) == "" then Err(KeyNotSpecified)
    else Tap(p, ready, Mapped(Lower(key.s)))
  }

  /** The elements `for key in keys` visits: the items of a list, the characters of a
      string. */
  function KeysOf(v: Json): Result<seq<Json>, Cause>
  {
    match v
    case JArr(items) => Ok(items)
    case JStr(s) => Ok(seq(|s|, i requires 0 <= i < |s| => JStr([s[i]])))
    case _ => Err(NotIterable(v))
  }

  /** One key of a sequence, pressed as `_execute_key_press` presses it. */
  function KeyStep(p: Platform, ready: bool, key: Json): Result<seq<InputEvent>, Cause>
  {
    KeyPress(p, ready, map["key" := key])
  }

  /** What pressing each key of a sequence on its own would give. */
  function Outcomes(p: Platform, ready: bool, keys: seq<Json>): (r: seq<Result<seq<InputEvent>, Cause>>)
    ensures |r| == |keys|
  {
    seq(|keys|, i requires 0 <= i < |keys| => KeyStep(p, ready, keys[i]))
  }

  /** Key presses run one after the other, up to the first that fails. */
  function RunOutcomes(outcomes: seq<Result<seq<InputEvent>, Cause>>): Effect<Cause>
  {
    if outcomes == [] then Effect([], None)
    else
      match outcomes[0]
      case Err(c) => Effect([], Some(c))
      case Ok(t) =>
        var rest := RunOutcomes(outcomes[1..]);
        Effect(t + rest.events, rest.failure)
  }

  /** The keys of a sequence pressed one after the other, up to the first that fails. */
  function SequenceRun(p: Platform, ready: bool, keys: seq<Json>): Effect<Cause>
  {
    RunOutcomes(Outcomes(p, ready, keys))
  }

  /** The first step of a key sequence: a failing key stops it, else its events come first. */
  lemma SequenceRunCons(p: Platform, ready: bool, keys: seq<Json>)
    requires keys != []
    ensures var t := KeyStep(p, ready, keys[0]);
            (t.Err? ==> SequenceRun(p, ready, keys) == Effect([], Some(t.error)))
            && (t.Ok? ==> SequenceRun(p, ready, keys)
                          == Effect(t.value + SequenceRun(p, ready, keys[1..]).events,
                                    SequenceRun(p, ready, keys[1..]).failure))
  {
    assert Outcomes(p, ready, keys)[1..] == Outcomes(p, ready, keys[1..]);
  }

  /** `whole` is `done` followed by `rest`. */
  predicate Splits(whole: Effect<Cause>, done: seq<InputEvent>, rest: Effect<Cause>)
  {
    whole.events == done + rest.events && whole.failure == rest.failure
  }

  /** One step of the key-sequence loop: a failing key ends the run with the events so far,
      else its events are done and the run continues with the next key. */
  lemma RunAdvance(outcomes: seq<Result<seq<InputEvent>, Cause>>, i: nat, done: seq<InputEvent>,
                   whole: Effect<Cause>)
    requires i < |outcomes| && Splits(whole, done, RunOutcomes(outcomes[i..]))
    ensures outcomes[i].Err? ==> whole == Effect(done, Some(outcomes[i].error))
    ensures outcomes[i].Ok? ==> Splits(whole, done + outcomes[i].value, RunOutcomes(outcomes[i + 1..]))
  {
    assert outcomes[i..][0] == outcomes[i] && outcomes[i..][1..] == outcomes[i + 1..];
  }

  /** `_execute_key_sequence`: an absent or empty list is rejected. */
  function KeySequence(p: Platform, ready: bool, action: Dict): Effect<Cause>
  {
    var keys := Get(action, "keys", JArr([]));
    if !TruthyValue(keys) then Effect([], Some(KeySequenceNotSpecified))
    else
      match KeysOf(keys)
      case Err(c) => Effect([], Some(c))
      case Ok(ks) => SequenceRun(p, ready, ks)
  }

  /** `_execute_click`: with coordinates, move there and click the left button once;
      without, press the key mapped from 'click'. */
  function Click(p: Platform, ready: bool, action: Dict): Effect<Cause>
  {
    var coordinates := Get(action, "coordinates", JNull);
    if TruthyValue(coordinates) then
      if !(coordinates.JArr? && |coordinates.items| == 2) then Effect([], Some(BadCoordinates))
      else if !ready then Effect([], Some(NoMouse))
      else Effect([MoveTo(coordinates.items[0], coordinates.items[1]), LeftClick], None)
    else
      match KeyPress(p, ready, map["key" := JStr("click")])
      case Ok(t) => Effect(t, None)
      case Err(c) => Effect([], Some(c))
  }

  /** `_execute_wait`: the pause itself is not modelled; a duration that is not a number
      makes the sleep fail. */
  function Wait(action: Dict): Option<Cause>
  {
    var duration := Get(action, "duration", JReal(1.0));
    if duration.JInt? || duration.JReal? || duration.JBool? then None else Some(BadDuration)
  }

  function FromResult(r: Result<seq<InputEvent>, Cause>): Effect<Cause>
  {
    if r.Ok? then Effect(r.value, None) else Effect([], Some(r.error))
  }

  /** The handler `execute_action` selects for a type. */
  function Dispatch(p: Platform, ready: bool, actionType: Json, action: Dict): Effect<Cause>
  {
    if actionType == JStr("key_press") then FromResult(KeyPress(p, ready, action))
    else if actionType == JStr("key_sequence") then KeySequence(p, ready, action)
    else if actionType == JStr("click") then Click(p, ready, action)
    else if actionType == JStr("wait") then Effect([], Wait(action))
    else if actionType == JStr("focus_window") then Effect([], None)
    else Effect([], Some(UnknownType))
  }

  /** `execute_action`, as a function of the platform, the controllers and the action. */
  function Execution(p: Platform, ready: bool, action: Json): Effect<ExecError>
  {
    if !action.JObj? then Effect([], Some(NotADict))
    else
      var t := Get(action.fields, "type", JNull);
      if !TruthyValue(t) then Effect([], Some(TypeMissing))
      else
        var e := Dispatch(p, ready, t, action.fields);
        Effect(e.events, if e.failure.Some? then Some(Failed(t, e.failure.value)) else None)
  }

  /** The key `press_key_combination` presses for a name: no lower-casing or mapping. */
  function ComboKey(p: Platform, name: string): Key
  {
    if name in p.namedKeys then Named(name) else Character(name)
  }

  /** The keys `press_key_combination` presses, in order. */
  function ComboKeys(p: Platform, names: seq<string>): (r: seq<Key>)
    ensures |r| == |names| && forall i :: 0 <= i < |r| ==> r[i] == ComboKey(p, names[i])
  {
    seq(|names|, i requires 0 <= i < |names| => ComboKey(p, names[i]))
  }

  /** Pressing keys, one after the other. */
  function PressOrder(keys: seq<Key>): (r: seq<InputEvent>)
    ensures |r| == |keys|
  {
    seq(|keys|, i requires 0 <= i < |keys| => Press(keys[i]))
  }

  /** Releasing keys in the opposite order, the last one first. */
  function ReleaseOrder(keys: seq<Key>): (r: seq<InputEvent>)
    ensures |r| == |keys|
  {
    seq(|keys|, i requires 0 <= i < |keys| => Release(keys[|keys| - 1 - i]))
  }

  class ActionExecutor {
    const platform: Platform
    /** The keyboard and mouse controllers exist (`initialize` has run). */
    var ready: bool
    var events: seq<InputEvent>

    constructor (platform: Platform)
      ensures this.platform == platform && !ready && events == []
    {
      this.platform := platform;
      ready := false;
      events := [];
    }

    /** `initialize`: create the keyboard and mouse controllers. */
    method Initialize()
      modifies this`ready
      ensures ready
    {
      ready := true;
    }

    method ExecuteKeyPress(action: Dict) returns (r: Result<(), Cause>)
      modifies this`events
      ensures var k := KeyPress(platform, ready, action);
              (k.Ok? ==> r.Ok? && events == old(events) + k.value)
              && (k.Err? ==> r == Err(k.error) && events == old(events))
    {
      var key := Get(action, "key", JStr(""));
      if !key.JStr? {
        return Err(NotText(key));
      }
      var name := Lower(key.s);
      if name == "" {
        return Err(KeyNotSpecified);
      }
      name := Mapped(name);
      if name == "num_add" && platform.windows {
        events := events + [Press(VkAdd), Release(VkAdd)];
        return Ok(());
      }
      if !ready {
        return Err(PressFailed(name));
      }
      var k := KeyObject(platform, name);
      events := events + [Press(k), Release(k)];
      return Ok(());
    }

    /** `_execute_key_sequence`: the keys are pressed in list order; a failing key stops
        the sequence, leaving the earlier presses done. */
    method ExecuteKeySequence(action: Dict) returns (r: Result<(), Cause>)
      modifies this`events
      ensures var e := KeySequence(platform, ready, action);
              events == old(events) + e.events
              && (e.failure.None? ==> r.Ok?) && (e.failure.Some? ==> r == Err(e.failure.value))
    {
      var keys := Get(action, "keys", JArr([]));
      if !TruthyValue(keys) {
        return Err(KeySequenceNotSpecified);
      }
      var ks := KeysOf(keys);
      if ks.Err? {
        return Err(ks.error);
      }
      r := PressKeys(ks.value);
    }

    /** One key of a sequence, handed to `_execute_key_press`. */
    method PressSequenceKey(key: Json) returns (r: Result<(), Cause>)
      modifies this`events
      ensures var t := KeyStep(platform, ready, key);
              (t.Ok? ==> r.Ok? && events == old(events) + t.value)
              && (t.Err? ==> r == Err(t.error) && events == old(events))
    {
      r := ExecuteKeyPress(map["key" := key]);
    }

    /** The loop of `_execute_key_sequence`: the keys are pressed in order, up to the first
        that fails. */
    method PressKeys(all: seq<Json>) returns (r: Result<(), Cause>)
      modifies this`events
      ensures var e := SequenceRun(platform, ready, all);
              events == old(events) + e.events
              && (e.failure.None? ==> r.Ok?) && (e.failure.Some? ==> r == Err(e.failure.value))
    {
      ghost var outcomes := Outcomes(platform, ready, all);
      ghost var whole := RunOutcomes(outcomes);
      ghost var done: seq<InputEvent> := [];
      var i := 0;
      while i < |all|
        invariant i <= |all|
        invariant events == old(events) + done
        invariant Splits(whole, done, RunOutcomes(outcomes[i..]))
      {
        RunAdvance(outcomes, i, done, whole);
        assert outcomes[i] == KeyStep(platform, ready, all[i]);
        var pressed := PressSequenceKey(all[i]);
        if pressed.Err? {
          return Err(pressed.error);
        }
        done := done + outcomes[i].value;
        i := i + 1;
      }
      assert outcomes[i..] == [];
      return Ok(());
    }

    method ExecuteClick(action: Dict) returns (r: Result<(), Cause>)
      modifies this`events
      ensures var e := Click(platform, ready, action);
              events == old(events) + e.events
              && (e.failure.None? ==> r.Ok?) && (e.failure.Some? ==> r == Err(e.failure.value))
    {
      var coordinates := Get(action, "coordinates", JNull);
      if TruthyValue(coordinates) {
        if !(coordinates.JArr? && |coordinates.items| == 2) {
          return Err(BadCoordinates);
        }
        if !ready {
          return Err(NoMouse);
        }
        events := events + [MoveTo(coordinates.items[0], coordinates.items[1]), LeftClick];
        return Ok(());
      }
      r := ExecuteKeyPress(map["key" := JStr("click")]);
    }

    /** `execute_action`: the type must be present and truthy; the handler for it runs and
        any failure is reported as a failure to execute that type. */
    method ExecuteAction(action: Json) returns (r: Result<(), ExecError>)
      modifies this`events
      ensures var e := Execution(platform, ready, action);
              events == old(events) + e.events
              && (e.failure.None? ==> r.Ok?) && (e.failure.Some? ==> r == Err(e.failure.value))
    {
      if !action.JObj? {
        return Err(NotADict);
      }
      var t := Get(action.fields, "type", JNull);
      if !TruthyValue(t) {
        return Err(TypeMissing);
      }
      var outcome: Result<(), Cause>;
      if t == JStr("key_press") {
        outcome := ExecuteKeyPress(action.fields);
      } else if t == JStr("key_sequence") {
        outcome := ExecuteKeySequence(action.fields);
      } else if t == JStr("click") {
        outcome := ExecuteClick(action.fields);
      } else if t == JStr("wait") {
        var w := Wait(action.fields);
        outcome := if w.Some? then Err(w.value) else Ok(());
      } else if t == JStr("focus_window") {
        outcome := Ok(());
      } else {
        outcome := Err(UnknownType);
      }
      if outcome.Err? {
        return Err(Failed(t, outcome.error));
      }
      return Ok(());
    }

    /** `send_text` */
    method SendText(text: string) returns (r: Result<(), Cause>)
      modifies this`events
      ensures ready ==> r.Ok? && events == old(events) + [Typed(text)]
      ensures !ready ==> r == Err(SendFailed) && events == old(events)
    {
      if !ready {
        return Err(SendFailed);
      }
      events := events + [Typed(text)];
      return Ok(());
    }

    /** `press_key_combination`: every key is pressed in order, then all are released in
        the reverse order. Without a keyboard controller the first press fails. */
    method PressKeyCombination(keys: seq<string>) returns (r: Result<(), Cause>)
      modifies this`events
      ensures keys != [] && !ready ==> r == Err(CombinationFailed) && events == old(events)
      ensures keys == [] || ready ==>
                r.Ok? && events == old(events) + PressOrder(ComboKeys(platform, keys))
                                   + ReleaseOrder(ComboKeys(platform, keys))
    {
      var pressed: seq<Key> := [];
      var i := 0;
      while i < |keys|
        invariant i <= |keys| && (i > 0 ==> ready)
        invariant pressed == ComboKeys(platform, keys[..i])
        invariant events == old(events) + PressOrder(pressed)
      {
        var key := ComboKey(platform, keys[i]);
        assert keys[..i + 1] == keys[..i] + [keys[i]];
        if !ready {
          return Err(CombinationFailed);
        }
        assert PressOrder(pressed + [key]) == PressOrder(pressed) + [Press(key)];
        pressed := pressed + [key];
        events := events + [Press(key)];
        i := i + 1;
      }
      assert keys[..i] == keys;
      ghost var before := events;
      var k := |pressed|;
      while k > 0
        invariant 0 <= k <= |pressed|
        invariant events == before + ReleaseOrder(pressed)[..|pressed| - k]
      {
        assert ReleaseOrder(pressed)[..|pressed| - k + 1]
               == ReleaseOrder(pressed)[..|pressed| - k] + [Release(pressed[k - 1])];
        k := k - 1;
        events := events + [Release(pressed[k])];
      }
      assert ReleaseOrder(pressed)[..|pressed|] == ReleaseOrder(pressed);
      return Ok(());
    }
  }

  /** `translate_ai_action` fails when the type or the direction is not a string, or the
      count of a navigation is not an integer. */
  datatype TranslateError = TypeNotText(value: Json) | DirectionNotText(value: Json) | CountNotInteger(value: Json)

  const Directions: seq<string> := ["up", "down", "left", "right"]

  /** `[x] * count`: `count` copies, none for a count below one. */
  function Repeat(x: Json, count: int): (r: seq<Json>)
    ensures |r| == (if count > 0 then count else 0) && forall i :: 0 <= i < |r| ==> r[i] == x
  {
    if count > 0 then seq(count, _ => x) else []
  }

  /** `translate_ai_action`: click and press become a press of the 'click' key; key_press
      and key_sequence keep their key or keys; a navigation in one of the four directions
      becomes that direction pressed `count` times; anything else is returned unchanged. */
  function Translate(a: Dict): Result<Dict, TranslateError>
  {
    var t := Get(a, "type", JStr(""));
    if !t.JStr? then Err(TypeNotText(t))
    else
      var kind := Lower(t.s);
      if kind == "click" || kind == "press" then Ok(map["type" := JStr("key_press"), "key" := JStr("click")])
      else if kind == "key_press" then Ok(map["type" := JStr("key_press"), "key" := Get(a, "key", JStr(""))])
      else if kind == "key_sequence" then Ok(map["type" := JStr("key_sequence"), "keys" := Get(a, "keys", JArr([]))])
      else if kind == "navigate" then
        var direction := Get(a, "direction", JStr(""));
        var count := Get(a, "count", JInt(1));
        if !direction.JStr? then Err(DirectionNotText(direction))
        else if Lower(direction.s) in Directions then
          if count.JInt? then Ok(map["type" := JStr("key_sequence"), "keys" := JArr(Repeat(JStr(Lower(direction.s)), count.i))])
          else if count.JBool? then
            Ok(map["type" := JStr("key_sequence"), "keys" := JArr(Repeat(JStr(Lower(direction.s)), if count.b then 1 else 0))])
          else Err(CountNotInteger(count))
        else Ok(a)
      else Ok(a)
  }

  /** Translating a translated action changes nothing more. */
  lemma TranslateIdempotent(a: Dict)
    requires Translate(a).Ok?
    ensures Translate(Translate(a).value) == Translate(a)
  {
    var t := Get(a, "type", JStr(""));
    var kind := Lower(t.s);
    LowerIdempotent(t.s);
    if kind == "click" || kind == "press" {
      assert Lower("key_press") == "key_press";
    } else if kind == "key_press" || kind == "key_sequence" {
      LowerIdempotent(t.s);
    } else if kind == "navigate" {
      var direction := Get(a, "direction", JStr(""));
      if Lower(direction.s) in Directions {
        assert Lower("key_sequence") == "key_sequence";
      }
    }
  }

  /** The key `_execute_key_press` presses for a key name given as text. */
  function SequenceKey(p: Platform, v: Json): Key
    requires v.JStr?
  {
    KeyObject(p, Mapped(Lower(v.s)))
  }

  /** The first key of a successful sequence is text, pressed and released before the rest. */
  lemma SequenceRunStep(p: Platform, ready: bool, keys: seq<Json>)
    requires keys != [] && SequenceRun(p, ready, keys).failure.None?
    ensures keys[0].JStr? && SequenceRun(p, ready, keys[1..]).failure.None?
    ensures SequenceRun(p, ready, keys).events
            == [Press(SequenceKey(p, keys[0])), Release(SequenceKey(p, keys[0]))]
               + SequenceRun(p, ready, keys[1..]).events
  {
    SequenceRunCons(p, ready, keys);
    var t := KeyStep(p, ready, keys[0]);
    assert t == Tap(p, ready, Mapped(Lower(keys[0].s)));
  }

  /** A successful key sequence presses and releases each key in list order. */
  lemma {:induction false} SequencePressesInOrder(p: Platform, ready: bool, keys: seq<Json>)
    requires SequenceRun(p, ready, keys).failure.None?
    ensures |SequenceRun(p, ready, keys).events| == 2 * |keys|
    ensures forall k :: 0 <= k < |keys| ==>
              keys[k].JStr?
              && SequenceRun(p, ready, keys).events[2 * k] == Press(SequenceKey(p, keys[k]))
              && SequenceRun(p, ready, keys).events[2 * k + 1] == Release(SequenceKey(p, keys[k]))
    decreases |keys|
  {
    if keys != [] {
      SequenceRunStep(p, ready, keys);
      SequencePressesInOrder(p, ready, keys[1..]);
      var e, rest := SequenceRun(p, ready, keys).events, SequenceRun(p, ready, keys[1..]).events;
      forall k | 1 <= k < |keys|
        ensures keys[k].JStr? && e[2 * k] == Press(SequenceKey(p, keys[k]))
                && e[2 * k + 1] == Release(SequenceKey(p, keys[k]))
      {
        assert keys[k] == keys[1..][k - 1];
        assert e[2 * k] == rest[2 * (k - 1)] && e[2 * k + 1] == rest[2 * (k - 1) + 1];
      }
    }
  }

  /** A navigation of `count` steps in a direction, as the vision service recommends it. */
  function Navigation(direction: string, count: int): Dict
  {
    map["type" := JStr("navigate"), "direction" := JStr(direction), "count" := JInt(count)]
  }

  /** Executing a translated navigation presses the direction key `count` times; a count
      below one gives an empty key sequence, which the executor rejects. */
  lemma NavigationPressesDirection(p: Platform, direction: string, count: int)
    requires direction in Directions
    ensures Translate(Navigation(direction, count)).Ok?
    ensures var e := Execution(p, true, JObj(Translate(Navigation(direction, count)).value));
            (count < 1 ==> e.failure == Some(Failed(JStr("key_sequence"), KeySequenceNotSpecified)))
            && (count >= 1 ==>
                  e.failure.None? && |e.events| == 2 * count
                  && forall k :: 0 <= k < count ==>
                       e.events[2 * k] == Press(KeyObject(p, direction))
                       && e.events[2 * k + 1] == Release(KeyObject(p, direction)))
  {
    TranslatedNavigation(direction, count);
    var keys := Repeat(JStr(direction), count);
    if count >= 1 {
      DirectionKey(direction);
      SequenceNeverFailsWhenReady(p, keys);
      SequencePressesInOrder(p, true, keys);
    }
  }

  /** A navigation in one of the four directions becomes that direction repeated. */
  lemma TranslatedNavigation(direction: string, count: int)
    requires direction in Directions
    ensures Translate(Navigation(direction, count))
            == Ok(map["type" := JStr("key_sequence"), "keys" := JArr(Repeat(JStr(direction), count))])
  {
    DirectionKey(direction);
    assert Lower("navigate") == "navigate";
  }

  /** A direction is its own lower-case form and its own key mapping. */
  lemma DirectionKey(direction: string)
    requires direction in Directions
    ensures Lower(direction) == direction && Mapped(direction) == direction
  {
  }

  /** With the controllers ready, a sequence of non-empty key names never fails. */
  lemma {:induction false} SequenceNeverFailsWhenReady(p: Platform, keys: seq<Json>)
    requires forall k :: 0 <= k < |keys| ==> keys[k].JStr? && Lower(keys[k].s) != ""
    ensures SequenceRun(p, true, keys).failure.None?
    decreases |keys|
  {
    if keys != [] {
      SequenceRunCons(p, true, keys);
      SequenceNeverFailsWhenReady(p, keys[1..]);
    }
  }

  /** A recommended click, translated and executed, presses the numpad '+' key. */
  lemma ClickPressesNumpadAdd(p: Platform, ready: bool)
    ensures Translate(map["type" := JStr("click")]).Ok?
    ensures var e := Execution(p, ready, JObj(Translate(map["type" := JStr("click")]).value));
            (p.windows || ready) ==> e == Effect([Press(KeyObject(p, "num_add")), Release(KeyObject(p, "num_add"))], None)
  {
    assert Lower("click") == "click";
  }
}
