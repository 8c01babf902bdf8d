/** The local computer (cua/local_computer.py): the capability that performs screenshots
    and primitive input on the real display. Every primitive call the source makes
    (pyautogui.moveTo, click, keyDown, ...) is appended to an event trace. */
module Computer {
  import opened Wrappers
  import opened Text

  datatype Size = Size(width: int, height: int)

  datatype Point = Point(x: int, y: int)

  /** One computer-use action proposed by the remote model: a closed variant with one
      case per action kind, each with its own parameters. */
  datatype Action =
    | Click(x: int, y: int, button: string)
    | DoubleClick(x: int, y: int)
    | Scroll(x: int, y: int, scrollX: int, scrollY: int)
    | Type(text: string)
    /** The pause the service sends; `wait` itself defaults to 1000 ms when it sends none. */
    | Wait(ms: int)
    | Move(x: int, y: int)
    | Keypress(keys: seq<string>)
    | Drag(path: seq<Point>)
    | Screenshot
  {
    /** The action's type tag as the service spells it. */
    function Kind(): string
    {
      match this
      case Click(_, _, _) => "click"
      case DoubleClick(_, _) => "double_click"
      case Scroll(_, _, _, _) => "scroll"
      case Type(_) => "type"
      case Wait(_) => "wait"
      case Move(_, _) => "move"
      case Keypress(_) => "keypress"
      case Drag(_) => "drag"
      case Screenshot => "screenshot"
    }
  }

  /** Why a computer operation raised. */
  datatype Fault =
    | CaptureFailed               // the screen capture raised
    | UnsupportedPlatform(system: string)  // NotImplementedError from `environment`
    | NotCalibrated               // a pointer action before any screenshot fixed the scale
    | ZeroRatio                   // ZeroDivisionError: the scale ratio is zero
    | BadImageSize                // ValueError: the screenshot would be resized to an empty edge

  /** A primitive call on the operating system. */
  datatype Event =
    | MoveTo(x: int, y: int)
    | ClickAt(x: int, y: int, button: string)
    | DoubleClickAt(x: int, y: int)
    | VScroll(clicks: int)
    | HScroll(clicks: int)
    | Write(text: string)
    | Pause(ms: int)
    | KeyDown(key: string)
    | KeyUp(key: string)
    | MouseDown
    | MouseUp
    | DragTo(x: int, y: int, mouseDownUp: bool)
    | Capture

  /** An encoded screenshot: a canvas of some size whose top-left `image` rectangle holds
      the captured screen (the pixels themselves are not modelled). */
  datatype Shot = Shot(canvas: Size, image: Size)

  predicate InBounds(x: int, y: int, bounds: Size)
  {
    0 <= x < bounds.width && 0 <= y < bounds.height
  }

  /** `environment`: the platform name mapped to the service's environment id. */
  function EnvironmentOf(system: string): (r: Result<string, Fault>)
    ensures r.Ok? <==> system in {"Windows", "Darwin", "Linux"}
    ensures r.Ok? ==> r.value in {"windows", "mac", "linux"}
    ensures r.Err? ==> r.error == UnsupportedPlatform(system)
  {
    if system == "Windows" then Ok("windows")
    else if system == "Darwin" then Ok("mac")
    else if system == "Linux" then Ok("linux")
    else Err(UnsupportedPlatform(system))
  }

  /** What `click` does: nothing outside the screen, else move there and click, with the
      "wheel" button mapped to "middle". */
  function ClickEvents(x: int, y: int, button: string, bounds: Size): (r: seq<Event>)
    ensures r != [] <==> InBounds(x, y, bounds)
    ensures r != [] ==> r == [MoveTo(x, y), ClickAt(x, y, ButtonName(button))]
  {
    if InBounds(x, y, bounds) then [MoveTo(x, y), ClickAt(x, y, ButtonName(button))] else []
  }

  function ButtonName(button: string): (r: string)
    ensures r != "wheel"
    ensures button != "wheel" ==> r == button
  {
    if button == "wheel" then "middle" else button
  }

  function DoubleClickEvents(x: int, y: int, bounds: Size): (r: seq<Event>)
    ensures r != [] <==> InBounds(x, y, bounds)
  {
    if InBounds(x, y, bounds) then [MoveTo(x, y), DoubleClickAt(x, y)] else []
  }

  /** `scroll`: move, then vertical scroll by -scrollY (natural scrolling), then horizontal. */
  function ScrollEvents(x: int, y: int, scrollX: int, scrollY: int): seq<Event>
  {
    [MoveTo(x, y), VScroll(-scrollY), HScroll(scrollX)]
  }

  /** Key normalisation in `keypress`: lower-case, then the arrow names mapped. */
  function NormalizeKey(key: string): (r: string)
    ensures r in {"down", "left", "right", "up"} || r == Lower(key)
    ensures r != Lower(key) ==> Lower(key) in {"arrowdown", "arrowleft", "arrowright", "arrowup"}
  {
    var k := Lower(key);
    if k == "arrowdown" then "down"
    else if k == "arrowleft" then "left"
    else if k == "arrowright" then "right"
    else if k == "arrowup" then "up"
    else k
  }

  function NormalizeKeys(keys: seq<string>): seq<string>
  {
    seq(|keys|, i requires 0 <= i < |keys| => NormalizeKey(keys[i]))
  }

  /** A chord of keys as nested press/release pairs: the first key pressed is the last
      released. This is the reference definition `keypress` is proved against. */
  function Chord(keys: seq<string>): seq<Event>
  {
    if keys == [] then [] else [KeyDown(keys[0])] + Chord(keys[1..]) + [KeyUp(keys[0])]
  }

  function Downs(keys: seq<string>): seq<Event>
  {
    seq(|keys|, i requires 0 <= i < |keys| => KeyDown(keys[i]))
  }

  function UpsReversed(keys: seq<string>): seq<Event>
  {
    seq(|keys|, i requires 0 <= i < |keys| => KeyUp(keys[|keys| - 1 - i]))
  }

  /** The nested chord is all presses in order followed by all releases in reverse. */
  lemma {:induction false} ChordIsPressesThenReleases(keys: seq<string>)
    ensures Chord(keys) == Downs(keys) + UpsReversed(keys)
  {
    if keys != [] {
      var rest := keys[1..];
      ChordIsPressesThenReleases(rest);
      assert Downs(keys) == [KeyDown(keys[0])] + Downs(rest);
      assert UpsReversed(keys) == UpsReversed(rest) + [KeyUp(keys[0])];
    }
  }

  function DragSteps(points: seq<Point>): seq<Event>
  {
    seq(|points|, i requires 0 <= i < |points| => DragTo(points[i].x, points[i].y, false))
  }

  /** `drag` */
  function DragEvents(path: seq<Point>): seq<Event>
  {
    if |path| <= 1 then []
    else if |path| == 2 then [MoveTo(path[0].x, path[0].y), DragTo(path[1].x, path[1].y, true)]
    else [MoveTo(path[0].x, path[0].y), MouseDown] + DragSteps(path[1..]) + [MouseUp]
  }

  /** A drag does nothing for fewer than two points and is a single held-button dragTo for
      two; a longer path presses the button, drags through every later point in order and
      releases it. */
  lemma DragShape(path: seq<Point>)
    ensures var r := DragEvents(path);
            && (|path| <= 1 <==> r == [])
            && (|path| >= 2 ==> r[0] == MoveTo(path[0].x, path[0].y))
            && (|path| == 2 ==> |r| == 2 && r[1] == DragTo(path[1].x, path[1].y, true))
            && (|path| >= 3 ==> |r| == |path| + 2 && r[1] == MouseDown && r[|r| - 1] == MouseUp)
            && (|path| >= 3 ==> forall k :: 1 <= k < |path| ==> r[k + 1] == DragTo(path[k].x, path[k].y, false))
  {
  }

  class LocalComputer {
    /** platform.system() */
    const system: string
    /** The size every capture of the physical screen reports. */
    const display: Size
    /** Whether capturing the screen succeeds. */
    const captureWorks: bool
    /** The memoised screen size (`self.size`). */
    var size: Option<Size>
    /** Every primitive call made so far, oldest first. */
    var trace: seq<Event>

    ghost predicate Valid()
      reads this
    {
      display.width > 0 && display.height > 0 && (size.None? || size == Some(display))
    }

    constructor (system: string, display: Size, captureWorks: bool)
      requires display.width > 0 && display.height > 0
      ensures Valid()
      ensures this.system == system && this.display == display && this.captureWorks == captureWorks
      ensures size == None && trace == []
    {
      this.system := system;
      this.display := display;
      this.captureWorks := captureWorks;
      size := None;
      trace := [];
    }

    function Environment(): (r: Result<string, Fault>)
      ensures r == EnvironmentOf(system)
    {
      EnvironmentOf(system)
    }

    /** What `dimensions` returns without changing anything observable: the memoised size,
        else the size a fresh capture reports. */
    function Dims(): Result<Size, Fault>
      reads this
    {
      if size.Some? then Ok(size.value) else if captureWorks then Ok(display) else Err(CaptureFailed)
    }

    /** `dimensions`: memoised; the first call captures the screen to learn its size. */
    method Dimensions() returns (r: Result<Size, Fault>)
      requires Valid()
      modifies this`size
      ensures Valid()
      ensures r == old(Dims())
      ensures r.Ok? ==> size == Some(r.value) && r.value == display
      ensures r.Err? ==> size == old(size) && old(size).None? && !captureWorks
    {
      if size.None? {
        if !captureWorks {
          return Err(CaptureFailed);
        }
        size := Some(display);
      }
      r := Ok(size.value);
    }

    /** `screenshot`: capture the screen and refresh the memoised size. */
    method Screenshot() returns (r: Result<Shot, Fault>)
      requires Valid()
      modifies this
      ensures Valid()
      ensures r.Ok? <==> captureWorks
      ensures r.Ok? ==> r.value == Shot(display, display)
      ensures r.Ok? ==> size == Some(display) && trace == old(trace) + [Capture]
      ensures r.Err? ==> size == old(size) && trace == old(trace) && r.error == CaptureFailed
    {
      if !captureWorks {
        return Err(CaptureFailed);
      }
      size := Some(display);
      trace := trace + [Capture];
      r := Ok(Shot(display, display));
    }

    /** `click`: acts only inside the screen bounds. */
    method Click(x: int, y: int, button: string) returns (r: Result<(), Fault>)
      requires Valid()
      modifies this
      ensures Valid()
      ensures r.Ok? <==> old(Dims()).Ok?
      ensures r.Ok? ==> size == Some(display) && trace == old(trace) + ClickEvents(x, y, button, display)
      ensures r.Err? ==> size == old(size) && trace == old(trace) && r.error == CaptureFailed
    {
      var bounds := Dimensions();
      if bounds.Err? {
        return Err(bounds.error);
      }
      trace := trace + ClickEvents(x, y, button, bounds.value);
      r := Ok(());
    }

    /** `double_click`: acts only inside the screen bounds. */
    method DoubleClick(x: int, y: int) returns (r: Result<(), Fault>)
      requires Valid()
      modifies this
      ensures Valid()
      ensures r.Ok? <==> old(Dims()).Ok?
      ensures r.Ok? ==> size == Some(display) && trace == old(trace) + DoubleClickEvents(x, y, display)
      ensures r.Err? ==> size == old(size) && trace == old(trace) && r.error == CaptureFailed
    {
      var bounds := Dimensions();
      if bounds.Err? {
        return Err(bounds.error);
      }
      trace := trace + DoubleClickEvents(x, y, bounds.value);
      r := Ok(());
    }

    method Scroll(x: int, y: int, scrollX: int, scrollY: int)
      modifies this`trace
      ensures trace == old(trace) + ScrollEvents(x, y, scrollX, scrollY)
    {
      trace := trace + [MoveTo(x, y)];
      trace := trace + [VScroll(-scrollY)];
      trace := trace + [HScroll(scrollX)];
    }

    method Type(text: string)
      modifies this`trace
      ensures trace == old(trace) + [Write(text)]
    {
      trace := trace + [Write(text)];
    }

    method Wait(ms: int)
      modifies this`trace
      ensures trace == old(trace) + [Pause(ms)]
    {
      trace := trace + [Pause(ms)];
    }

    method Move(x: int, y: int)
      modifies this`trace
      ensures trace == old(trace) + [MoveTo(x, y)]
    {
      trace := trace + [MoveTo(x, y)];
    }

    /** `keypress`: normalise the keys, press them all in order, release them in reverse. */
    method Keypress(keys: seq<string>)
      modifies this`trace
      ensures trace == old(trace) + Chord(NormalizeKeys(keys))
    {
      var ks := NormalizeKeys(keys);
      var i := 0;
      while i < |ks|
        invariant 0 <= i <= |ks|
        invariant trace == old(trace) + Downs(ks[..i])
      {
        assert Downs(ks[..i + 1]) == Downs(ks[..i]) + [KeyDown(ks[i])];
        trace := trace + [KeyDown(ks[i])];
        i := i + 1;
      }
      assert ks[..|ks|] == ks;
      var j := |ks|;
      while j > 0
        invariant 0 <= j <= |ks|
        invariant trace == old(trace) + Downs(ks) + UpsReversed(ks[j..])
      {
        j := j - 1;
        assert UpsReversed(ks[j..]) == UpsReversed(ks[j + 1..]) + [KeyUp(ks[j])];
        trace := trace + [KeyUp(ks[j])];
      }
      ChordIsPressesThenReleases(ks);
    }

    /** `drag` along a path of points. */
    method Drag(path: seq<Point>)
      modifies this`trace
      ensures trace == old(trace) + DragEvents(path)
    {
      if |path| <= 1 {
        return;
      } else if |path| == 2 {
        trace := trace + [MoveTo(path[0].x, path[0].y)];
        trace := trace + [DragTo(path[1].x, path[1].y, true)];
      } else {
        trace := trace + [MoveTo(path[0].x, path[0].y), MouseDown];
        var rest := path[1..];
        var i := 0;
        while i < |rest|
          invariant 0 <= i <= |rest|
          invariant trace == old(trace) + [MoveTo(path[0].x, path[0].y), MouseDown] + DragSteps(rest[..i])
        {
          assert DragSteps(rest[..i + 1]) == DragSteps(rest[..i]) + [DragTo(rest[i].x, rest[i].y, false)];
          trace := trace + [DragTo(rest[i].x, rest[i].y, false)];
          i := i + 1;
        }
        assert rest[..|rest|] == rest;
        trace := trace + [MouseUp];
      }
    }
  }
}
