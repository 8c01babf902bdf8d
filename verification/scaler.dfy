/** The screen scaler (cua/scaler.py): presents a logical display of bounded size to the
    model, downsizes screenshots onto a logical canvas and translates logical points back
    to physical pixels. Python's float arithmetic is modelled with exact reals; `int()`
    on a float truncates toward zero (Trunc). */
module Scaling {
  import opened Wrappers
  import opened Computer

  /** The longest edge the logical display may have. */
  const MaxEdge: int := 2048

  /** int(r) for a Python float: truncation toward zero. */
  function Trunc(r: real): (n: int)
    ensures r >= 0.0 ==> 0 <= n && n as real <= r < n as real + 1.0
    ensures r < 0.0 ==> n <= 0 && n as real - 1.0 < r <= n as real
  {
    if r >= 0.0 then r.Floor else -((-r).Floor)
  }

  function Max(a: int, b: int): int { if a >= b then a else b }

  function MinReal(a: real, b: real): real { if a <= b then a else b }

  /** The logical size `dimensions` settles on for a physical screen: unchanged when its
      longest edge fits in 2048, otherwise both edges scaled by 2048/longest. */
  function LogicalSize(screen: Size): (r: Size)
    requires screen.width > 0 && screen.height > 0
    ensures Max(screen.width, screen.height) <= MaxEdge ==> r == screen
    ensures 0 <= r.width <= MaxEdge && 0 <= r.height <= MaxEdge
    ensures r.width <= screen.width && r.height <= screen.height
  {
    var longest := Max(screen.width, screen.height);
    if longest <= MaxEdge then screen
    else Size(ScaledEdge(screen.width, longest), ScaledEdge(screen.height, longest))
  }

  /** `int(edge * scale)` with `scale = 2048 / longest`. */
  function ScaledEdge(edge: int, longest: int): (n: int)
    requires 0 < edge <= longest && longest > MaxEdge
    ensures 0 <= n <= MaxEdge && n <= edge
  {
    var scale := MaxEdge as real / longest as real;
    ScaledEdgeBounds(edge, longest, scale);
    Trunc(edge as real * scale)
  }

  lemma ScaledEdgeBounds(edge: int, longest: int, scale: real)
    requires 0 < edge <= longest && longest > MaxEdge
    requires scale == MaxEdge as real / longest as real
    ensures 0 <= Trunc(edge as real * scale) <= MaxEdge
    ensures Trunc(edge as real * scale) <= edge
  {
    QuotientBelowOne(MaxEdge as real, longest as real);
    TimesQuotient(MaxEdge as real, longest as real);
    ScaleMonotone(edge as real, longest as real, scale);
    ScaleMonotone(scale, 1.0, edge as real);
  }

  /** Multiplying by a non-negative factor keeps the order. */
  lemma ScaleMonotone(a: real, b: real, c: real)
    requires a <= b && 0.0 <= c
    ensures a * c <= b * c
  {
  }

  /** A quotient of a non-negative value by a larger one lies in [0, 1). */
  lemma QuotientBelowOne(a: real, b: real)
    requires 0.0 <= a < b
    ensures 0.0 <= a / b < 1.0
  {
    var q := a / b;
    TimesQuotient(a, b);
    if q >= 1.0 {
      ScaleMonotone(1.0, q, b);
      assert false;
    }
    if q < 0.0 {
      ScaleMonotone(q, 0.0, b);
      assert false;
    }
  }

  /** Multiplying a quotient by its divisor gives back the dividend. */
  lemma TimesQuotient(a: real, b: real)
    requires b != 0.0
    ensures b * (a / b) == a
  {
  }

  /** A screen too large for the model has its longest edge scaled to exactly 2048. */
  lemma {:induction false} LongestEdgeBecomesMax(screen: Size)
    requires screen.width > 0 && screen.height > 0
    requires Max(screen.width, screen.height) > MaxEdge
    ensures Max(LogicalSize(screen).width, LogicalSize(screen).height) == MaxEdge
  {
    var longest := Max(screen.width, screen.height);
    var scale := MaxEdge as real / longest as real;
    assert longest as real * scale == MaxEdge as real;
    if screen.width == longest {
      assert LogicalSize(screen).width == Trunc(MaxEdge as real);
    } else {
      assert LogicalSize(screen).height == Trunc(MaxEdge as real);
    }
  }

  /** The uniform ratio `min(tw/sw, th/sh)` from the logical size to the screen size. */
  function Ratio(logical: Size, screenWidth: int, screenHeight: int): (ratio: real)
    requires screenWidth != 0 && screenHeight != 0
    ensures ratio <= logical.width as real / screenWidth as real
    ensures ratio <= logical.height as real / screenHeight as real
    ensures ratio == logical.width as real / screenWidth as real
         || ratio == logical.height as real / screenHeight as real
  {
    MinReal(logical.width as real / screenWidth as real, logical.height as real / screenHeight as real)
  }

  /** The size bookkeeping of `screenshot`: the screen image is resized by the ratio and
      pasted at the origin of a logical-size canvas; a resize to an empty edge raises. */
  function Rescale(logical: Size, screen: Size): (r: Result<Shot, Fault>)
    requires screen.width > 0 && screen.height > 0
    ensures r.Err? <==> (Trunc(screen.width as real * Ratio(logical, screen.width, screen.height)) < 1
                      || Trunc(screen.height as real * Ratio(logical, screen.width, screen.height)) < 1)
    ensures r.Ok? ==> r.value.canvas == logical
  {
    var ratio := Ratio(logical, screen.width, screen.height);
    var image := Size(Trunc(screen.width as real * ratio), Trunc(screen.height as real * ratio));
    if image.width < 1 || image.height < 1 then Err(BadImageSize) else Ok(Shot(logical, image))
  }

  /** The resized image fits inside the canvas and fills it along at least one edge. */
  lemma ImageFitsCanvas(logical: Size, screen: Size)
    requires screen.width > 0 && screen.height > 0
    requires Rescale(logical, screen).Ok?
    ensures var shot := Rescale(logical, screen).value;
      1 <= shot.image.width <= shot.canvas.width && 1 <= shot.image.height <= shot.canvas.height
      && (shot.image.width == shot.canvas.width || shot.image.height == shot.canvas.height)
  {
    var ratio := Ratio(logical, screen.width, screen.height);
    var sw, sh := screen.width as real, screen.height as real;
    assert sw * (logical.width as real / sw) == logical.width as real;
    assert sh * (logical.height as real / sh) == logical.height as real;
    assert sw * ratio <= logical.width as real;
    assert sh * ratio <= logical.height as real;
  }

  /** `_point_to_screen_coords` as written: the ratio of the current logical size to the
      recorded screen size, whatever that record holds; a zero ratio divides by zero. */
  function PointToScreenAsWritten(logical: Size, screenWidth: int, screenHeight: int, x: int, y: int): (r: Result<Point, Fault>)
    requires screenWidth != 0 && screenHeight != 0
    ensures r.Err? <==> Ratio(logical, screenWidth, screenHeight) == 0.0
    ensures r.Ok? && Ratio(logical, screenWidth, screenHeight) > 0.0 && x >= 0 ==>
              0 <= r.value.x && r.value.x as real * Ratio(logical, screenWidth, screenHeight) <= x as real
  {
    var ratio := Ratio(logical, screenWidth, screenHeight);
    if ratio == 0.0 then Err(ZeroRatio)
    else
      var p := Point(Trunc(x as real / ratio), Trunc(y as real / ratio));
      assert ratio > 0.0 && x >= 0 ==> p.x as real * ratio <= x as real by {
        if ratio > 0.0 && x >= 0 {
          assert p.x as real <= x as real / ratio;
          assert (x as real / ratio) * ratio == x as real;
        }
      }
      Ok(p)
  }

  /** What the scaler knows about the screen: nothing before the first screenshot, then
      the logical size and the recorded physical screen size. */
  datatype Frame = Uncalibrated | Calibrated(logical: Size, screen: Size)

  /** Pointer translation with the missing guard: refused until a screenshot has
      recorded the screen size. */
  function ToScreen(f: Frame, x: int, y: int): (r: Result<Point, Fault>)
    requires f.Calibrated? ==> f.screen.width > 0 && f.screen.height > 0
    ensures f.Uncalibrated? ==> r == Err(NotCalibrated)
    ensures f.Calibrated? ==> r == PointToScreenAsWritten(f.logical, f.screen.width, f.screen.height, x, y)
    ensures r.Ok? <==> f.Calibrated? && Ratio(f.logical, f.screen.width, f.screen.height) != 0.0
  {
    match f
    case Uncalibrated => Err(NotCalibrated)
    case Calibrated(logical, screen) => PointToScreenAsWritten(logical, screen.width, screen.height, x, y)
  }

  /** Before the first screenshot the recorded size is (-1, -1), the ratio is negative,
      and every point of the logical display is translated to the screen origin. */
  lemma UncalibratedCollapsesToOrigin(logical: Size, x: int, y: int)
    requires logical.width > 0 && logical.height > 0
    requires 0 <= x < logical.width && 0 <= y < logical.height
    ensures PointToScreenAsWritten(logical, -1, -1, x, y) == Ok(Point(0, 0))
  {
    var ratio := Ratio(logical, -1, -1);
    var m := Max(logical.width, logical.height) as real;
    assert ratio == -m;
    NegativeQuotient(x as real, m);
    NegativeQuotient(y as real, m);
  }

  /** Dividing a value below `m` by -m gives a quotient in (-1, 0]. */
  lemma NegativeQuotient(v: real, m: real)
    requires 0.0 <= v < m
    ensures -1.0 < v / -m <= 0.0
  {
    assert v / -m == -(v / m);
    QuotientBelowOne(v, m);
  }

  /** The concrete case: logical display 1024x768 on a 1920x1080 screen. After calibration
      the logical point (100, 50) is pixel (187, 93); before it, pixel (0, 0). */
  lemma UncalibratedClickExample()
    ensures ToScreen(Calibrated(Size(1024, 768), Size(1920, 1080)), 100, 50) == Ok(Point(187, 93))
    ensures PointToScreenAsWritten(Size(1024, 768), -1, -1, 100, 50) == Ok(Point(0, 0))
  {
    var ratio := Ratio(Size(1024, 768), 1920, 1080);
    assert ratio == 1024.0 / 1920.0;
    assert 100.0 / ratio == 187.5;
    assert 50.0 / ratio == 93.75;
    UncalibratedCollapsesToOrigin(Size(1024, 768), 100, 50);
  }

  /** When the logical display is the screen itself, translation is the identity. */
  lemma UnscaledIsIdentity(screen: Size, x: int, y: int)
    requires screen.width > 0 && screen.height > 0
    ensures ToScreen(Calibrated(screen, screen), x, y) == Ok(Point(x, y))
  {
    assert Ratio(screen, screen.width, screen.height) == 1.0;
  }

  /** A logical point inside the resized image is translated to a pixel on the screen. */
  lemma ImagePointsLandOnScreen(logical: Size, screen: Size, x: int, y: int)
    requires screen.width > 0 && screen.height > 0
    requires Rescale(logical, screen).Ok?
    requires 0 <= x < Rescale(logical, screen).value.image.width
    requires 0 <= y < Rescale(logical, screen).value.image.height
    ensures ToScreen(Calibrated(logical, screen), x, y).Ok?
    ensures InBounds(ToScreen(Calibrated(logical, screen), x, y).value.x,
                     ToScreen(Calibrated(logical, screen), x, y).value.y, screen)
  {
    var ratio := Ratio(logical, screen.width, screen.height);
    var sw, sh := screen.width as real, screen.height as real;
    assert sw * ratio >= 1.0;
    assert ratio > 0.0;
    EdgeBack(x, screen.width, ratio);
    EdgeBack(y, screen.height, ratio);
  }

  lemma EdgeBack(x: int, edge: int, ratio: real)
    requires ratio > 0.0 && edge > 0 && 0 <= x < Trunc(edge as real * ratio)
    ensures 0 <= Trunc(x as real / ratio) < edge
  {
    assert x as real < edge as real * ratio;
    var q := x as real / ratio;
    assert q * ratio == x as real;
    assert (edge as real - q) * ratio == edge as real * ratio - q * ratio;
    assert (edge as real - q) * ratio > 0.0;
    assert q < edge as real;
  }

  /** Translates a drag path point by point, in order. Whether translation raises does
      not depend on the point, so the path raises exactly when its first point does. */
  function PathToScreen(f: Frame, path: seq<Point>): (r: Result<seq<Point>, Fault>)
    requires f.Calibrated? ==> f.screen.width > 0 && f.screen.height > 0
    ensures r.Ok? ==> |r.value| == |path|
    ensures r.Ok? ==> forall i :: 0 <= i < |path| ==> ToScreen(f, path[i].x, path[i].y) == Ok(r.value[i])
    ensures r.Err? ==> path != [] && ToScreen(f, path[0].x, path[0].y) == Err(r.error)
  {
    if path == [] then Ok([])
    else
      match ToScreen(f, path[0].x, path[0].y)
      case Err(e) => Err(e)
      case Ok(_) =>
        Ok(seq(|path|, i requires 0 <= i < |path| => ToScreen(f, path[i].x, path[i].y).value))
  }

  /** The primitive events one action causes through the scaler, or the fault it raises:
      pointer actions are translated; type, wait and keypress are forwarded unchanged;
      a screenshot action causes nothing here. */
  function Effect(f: Frame, a: Action): (r: Result<seq<Event>, Fault>)
    requires f.Calibrated? ==> f.screen.width > 0 && f.screen.height > 0
    ensures a.Type? ==> r == Ok([Write(a.text)])
    ensures a.Wait? ==> r == Ok([Pause(a.ms)])
    ensures a.Keypress? ==> r == Ok(Chord(NormalizeKeys(a.keys)))
    ensures a.Screenshot? ==> r == Ok([])
    ensures (a.Click? || a.DoubleClick? || a.Scroll? || a.Move?) && f.Uncalibrated? ==> r == Err(NotCalibrated)
    ensures a.Scroll? && r.Ok? ==> |r.value| == 3 && r.value[1] == VScroll(-a.scrollY) && r.value[2] == HScroll(a.scrollX)
  {
    match a
    case Click(x, y, button) =>
      (match ToScreen(f, x, y)
       case Err(e) => Err(e)
       case Ok(p) => Ok(ClickEvents(p.x, p.y, button, f.screen)))
    case DoubleClick(x, y) =>
      (match ToScreen(f, x, y)
       case Err(e) => Err(e)
       case Ok(p) => Ok(DoubleClickEvents(p.x, p.y, f.screen)))
    case Scroll(x, y, scrollX, scrollY) =>
      (match ToScreen(f, x, y)
       case Err(e) => Err(e)
       case Ok(p) => Ok(ScrollEvents(p.x, p.y, scrollX, scrollY)))
    case Type(text) => Ok([Write(text)])
    case Wait(ms) => Ok([Pause(ms)])
    case Move(x, y) =>
      (match ToScreen(f, x, y)
       case Err(e) => Err(e)
       case Ok(p) => Ok([MoveTo(p.x, p.y)]))
    case Keypress(keys) => Ok(Chord(NormalizeKeys(keys)))
    case Drag(path) =>
      (match PathToScreen(f, path)
       case Err(e) => Err(e)
       case Ok(points) => Ok(DragEvents(points)))
    case Screenshot => Ok([])
  }

  /** A click on the resized screenshot image always reaches the screen: it is never
      dropped by the local computer's bounds guard. */
  lemma ImageClickIsPerformed(logical: Size, screen: Size, x: int, y: int, button: string)
    requires screen.width > 0 && screen.height > 0
    requires Rescale(logical, screen).Ok?
    requires 0 <= x < Rescale(logical, screen).value.image.width
    requires 0 <= y < Rescale(logical, screen).value.image.height
    ensures Effect(Calibrated(logical, screen), Click(x, y, button)).Ok?
    ensures |Effect(Calibrated(logical, screen), Click(x, y, button)).value| == 2
  {
    ImagePointsLandOnScreen(logical, screen, x, y);
  }

  /** The facts about the scaler that no operation changes: the logical size it settles
      on, the screen, whether capture works, what `dimensions` yields and what
      `environment` yields. */
  datatype Rig = Rig(target: Size, display: Size, captureWorks: bool,
                     dims: Result<Size, Fault>, environment: Result<string, Fault>)

  /** The effect of `screenshot` on a scaler: capture, then record the screen size. */
  function ShotOf(rig: Rig): (r: Result<Shot, Fault>)
    requires rig.display.width > 0 && rig.display.height > 0
    ensures !rig.captureWorks ==> r == Err(CaptureFailed)
    ensures rig.captureWorks ==> r == Rescale(rig.target, rig.display)
  {
    if rig.captureWorks then Rescale(rig.target, rig.display) else Err(CaptureFailed)
  }

  /** The outcome `r` of a forwarded action and the trace it leaves (`after`, from
      `before`) are those its effect `e` prescribes. */
  predicate Applied(e: Result<seq<Event>, Fault>, r: Result<(), Fault>, before: seq<Event>, after: seq<Event>)
  {
    (r.Ok? <==> e.Ok?)
    && (e.Ok? ==> after == before + e.value)
    && (e.Err? ==> r.error == e.error && after == before)
  }

  class Scaler {
    const computer: LocalComputer
    /** The logical size `dimensions` yields: the configured one, else LogicalSize. */
    ghost const target: Size
    /** `self.size`: the configured or memoised logical size. */
    var size: Option<Size>
    /** The screen size recorded by the last screenshot; -1 before any. */
    var screenWidth: int
    var screenHeight: int

    ghost predicate Valid()
      reads this, computer
    {
      computer.Valid()
      && (size.None? || size == Some(target))
      && (size.None? ==> target == LogicalSize(computer.display))
      && ((screenWidth == -1 && screenHeight == -1)
          || (screenWidth == computer.display.width && screenHeight == computer.display.height
              && size == Some(target) && computer.size == Some(computer.display)))
    }

    function Frame(): (f: Frame)
      reads this, computer
      requires Valid()
      ensures f.Calibrated? ==> f.logical == target && f.screen == computer.display
      ensures f.Calibrated? ==> f.screen.width > 0 && f.screen.height > 0
    {
      if screenWidth < 0 then Uncalibrated else Calibrated(size.value, Size(screenWidth, screenHeight))
    }

    /** What `dimensions` yields, without the memoisation it performs. */
    ghost function Dims(): (r: Result<Size, Fault>)
      reads this, computer
      requires Valid()
      ensures r.Ok? ==> r.value == target
    {
      if size.Some? || computer.size.Some? || computer.captureWorks then Ok(target) else Err(CaptureFailed)
    }

    ghost function CurrentRig(): Rig
      reads this, computer
      requires Valid()
    {
      Rig(target, computer.display, computer.captureWorks, Dims(), computer.Environment())
    }

    constructor (computer: LocalComputer, dimensions: Option<Size>)
      requires computer.Valid()
      ensures Valid()
      ensures this.computer == computer && size == dimensions
      ensures target == (if dimensions.Some? then dimensions.value else LogicalSize(computer.display))
      ensures Frame() == Uncalibrated
    {
      this.computer := computer;
      size := dimensions;
      target := if dimensions.Some? then dimensions.value else LogicalSize(computer.display);
      screenWidth := -1;
      screenHeight := -1;
    }

    /** `environment` is the wrapped computer's. */
    function Environment(): (r: Result<string, Fault>)
      reads this
      ensures r == EnvironmentOf(computer.system)
    {
      computer.Environment()
    }

    /** `dimensions`: the configured size; else, on first use, the wrapped computer's
        dimensions capped to 2048 on the longest edge, memoised. */
    method Dimensions() returns (r: Result<Size, Fault>)
      requires Valid()
      modifies this`size, computer`size
      ensures Valid() && CurrentRig() == old(CurrentRig()) && Frame() == old(Frame())
      ensures r == old(Dims())
      ensures old(size).Some? ==> r == Ok(old(size).value) && size == old(size)
      ensures r.Ok? ==> size == Some(r.value)
      ensures old(size).None? && r.Ok? ==> r.value == LogicalSize(computer.display)
      ensures computer.size == old(computer.size) || computer.size == Some(computer.display)
    {
      if size.None? {
        var d := computer.Dimensions();
        if d.Err? {
          return Err(d.error);
        }
        size := Some(LogicalSize(d.value));
      }
      r := Ok(size.value);
    }

    /** `screenshot`: capture the screen, record its size, then fit it on the canvas. */
    method Screenshot() returns (r: Result<Shot, Fault>)
      requires Valid()
      modifies this, computer
      ensures Valid() && CurrentRig() == old(CurrentRig())
      ensures r == ShotOf(old(CurrentRig()))
      ensures computer.trace == old(computer.trace) + (if computer.captureWorks then [Capture] else [])
      ensures Frame() == if computer.captureWorks then Calibrated(target, computer.display) else old(Frame())
    {
      var capture := computer.Screenshot();
      if capture.Err? {
        return Err(capture.error);
      }
      assert computer.size == Some(computer.display) && capture.value.image == computer.display;
      var logical := Dimensions();
      assert logical == Ok(target) && size == Some(target);
      screenWidth, screenHeight := capture.value.image.width, capture.value.image.height;
      assert Size(screenWidth, screenHeight) == computer.display;
      r := Rescale(logical.value, computer.display);
      assert screenWidth == computer.display.width && screenHeight == computer.display.height;
      assert size == Some(target) && computer.size == Some(computer.display);
      assert computer.Valid();
    }

    method Click(x: int, y: int, button: string) returns (r: Result<(), Fault>)
      requires Valid()
      modifies computer
      ensures Valid() && CurrentRig() == old(CurrentRig()) && Frame() == old(Frame())
      ensures Applied(Effect(old(Frame()), Action.Click(x, y, button)), r, old(computer.trace), computer.trace)
    {
      var p := ToScreen(Frame(), x, y);
      if p.Err? {
        return Err(p.error);
      }
      r := computer.Click(p.value.x, p.value.y, button);
    }

    method DoubleClick(x: int, y: int) returns (r: Result<(), Fault>)
      requires Valid()
      modifies computer
      ensures Valid() && CurrentRig() == old(CurrentRig()) && Frame() == old(Frame())
      ensures Applied(Effect(old(Frame()), Action.DoubleClick(x, y)), r, old(computer.trace), computer.trace)
    {
      var p := ToScreen(Frame(), x, y);
      if p.Err? {
        return Err(p.error);
      }
      r := computer.DoubleClick(p.value.x, p.value.y);
    }

    method Scroll(x: int, y: int, scrollX: int, scrollY: int) returns (r: Result<(), Fault>)
      requires Valid()
      modifies computer`trace
      ensures Valid() && CurrentRig() == old(CurrentRig()) && Frame() == old(Frame())
      ensures Applied(Effect(old(Frame()), Action.Scroll(x, y, scrollX, scrollY)), r, old(computer.trace), computer.trace)
    {
      var p := ToScreen(Frame(), x, y);
      if p.Err? {
        return Err(p.error);
      }
      computer.Scroll(p.value.x, p.value.y, scrollX, scrollY);
      r := Ok(());
    }

    method Type(text: string) returns (r: Result<(), Fault>)
      requires Valid()
      modifies computer`trace
      ensures Valid() && CurrentRig() == old(CurrentRig()) && Frame() == old(Frame())
      ensures Applied(Effect(old(Frame()), Action.Type(text)), r, old(computer.trace), computer.trace)
    {
      computer.Type(text);
      r := Ok(());
    }

    method Wait(ms: int) returns (r: Result<(), Fault>)
      requires Valid()
      modifies computer`trace
      ensures Valid() && CurrentRig() == old(CurrentRig()) && Frame() == old(Frame())
      ensures Applied(Effect(old(Frame()), Action.Wait(ms)), r, old(computer.trace), computer.trace)
    {
      computer.Wait(ms);
      r := Ok(());
    }

    method Move(x: int, y: int) returns (r: Result<(), Fault>)
      requires Valid()
      modifies computer`trace
      ensures Valid() && CurrentRig() == old(CurrentRig()) && Frame() == old(Frame())
      ensures Applied(Effect(old(Frame()), Action.Move(x, y)), r, old(computer.trace), computer.trace)
    {
      var p := ToScreen(Frame(), x, y);
      if p.Err? {
        return Err(p.error);
      }
      computer.Move(p.value.x, p.value.y);
      r := Ok(());
    }

    method Keypress(keys: seq<string>) returns (r: Result<(), Fault>)
      requires Valid()
      modifies computer`trace
      ensures Valid() && CurrentRig() == old(CurrentRig()) && Frame() == old(Frame())
      ensures Applied(Effect(old(Frame()), Action.Keypress(keys)), r, old(computer.trace), computer.trace)
    {
      computer.Keypress(keys);
      r := Ok(());
    }

    method Drag(path: seq<Point>) returns (r: Result<(), Fault>)
      requires Valid()
      modifies computer`trace
      ensures Valid() && CurrentRig() == old(CurrentRig()) && Frame() == old(Frame())
      ensures Applied(Effect(old(Frame()), Action.Drag(path)), r, old(computer.trace), computer.trace)
    {
      var points := PathToScreen(Frame(), path);
      if points.Err? {
        return Err(points.error);
      }
      computer.Drag(points.value);
      r := Ok(());
    }
  }
}
