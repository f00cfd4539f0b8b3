/** The validation of a request before anything is touched (ComputerTool._validate_batch_action and
    _prepare_calls), against what executing it goes on to demand (ComputerTool._run). */
module Validator {
  import opened Wrappers
  import opened Actions
  import Geometry
  import Batch

  /** A parameter as it arrives. NonFinite is a float that is no number, or infinite. */
  datatype Val =
    | Nothing
    | Bool(b: bool)
    | Int(n: int)
    | Float(r: real)
    | NonFinite
    | Text(s: string)
    | List(items: seq<Val>)
    | Tuple(items: seq<Val>)
    | Object(fields: map<string, Val>, oddNames: bool)

  type Params = map<string, Val>

  predicate Truthy(v: Val) {
    match v
    case Nothing => false
    case Bool(b) => b
    case Int(n) => n != 0
    case Float(r) => r != 0.0
    case NonFinite => true
    case Text(s) => s != ""
    case List(items) => items != []
    case Tuple(items) => items != []
    case Object(fields, oddNames) => fields != map[] || oddNames
  }

  lemma FalsyExactlyWhen(v: Val)
    ensures !Truthy(v) <==>
      || v == Nothing || v == Bool(false) || v == Int(0) || v == Float(0.0) || v == Text("")
      || v == List([]) || v == Tuple([]) || v == Object(map[], false)
  {
  }

  predicate Sequential(v: Val) { v.List? || v.Tuple? }

  function Get(p: Params, key: string): Val { if key in p then p[key] else Nothing }

  /** The first of two parameters that is there and not empty, else the second as it is. */
  function Either(p: Params, a: string, b: string): Val { if Truthy(Get(p, a)) then Get(p, a) else Get(p, b) }

  /* What validation accepts. */

  datatype Reason =
    | NotAnObject | OddNames | UnknownAction | ZoomDisabled | BadRepeat | Unsupported
    | BadPoint(key: string) | NoGeometry | OutOfRange(key: string) | Missing | NoText | NoHandle
    | BadDuration | BadDirection | BadAmount
    | BadBatch | BadVersion | BadCaptureAfter | NoActions | Member(index: nat, reason: Reason)

  predicate Allowed(a: Action, key: string) {
    || key == "action"
    || (key == "coordinate" &&
        (IsClick(a) || a.MouseMove? || a.LeftMouseDown? || a.LeftMouseUp? || a.LeftClickDrag? || a.Scroll? || a.Zoom?))
    || (key == "start_coordinate" && (a.LeftClickDrag? || a.Zoom?))
    || (key == "region" && a.Zoom?)
    || ((key == "text" || key == "key") && (a.Key? || a.HoldKey? || a.Type?))
    || (key == "repeat" && a.Key?)
    || (key == "duration" && (a.Wait? || a.HoldKey?))
    || (key in ["scroll_direction", "direction", "scroll_amount", "amount"] && a.Scroll?)
    || (key == "handle" && a.FocusWindow?)
  }

  /** A plain number: neither a truth value nor anything that is not finite. */
  function NumberOf(v: Val): Option<real> {
    match v case Int(n) => Some(n as real) case Float(r) => Some(r) case _ => None
  }

  function PairReason(key: string, display: Geometry.Display, x: Val, y: Val): Option<Reason>
    requires NumberOf(x).Some? && NumberOf(y).Some?
  {
    if Geometry.ToScreen(display, NumberOf(x).value, NumberOf(y).value).Ok? then None else Some(OutOfRange(key))
  }

  function PointReason(key: string, v: Val, size: nat, display: Option<Geometry.Display>): Option<Reason>
    requires size == 2 || size == 4
  {
    if !Sequential(v) || |v.items| != size then Some(BadPoint(key))
    else if exists i | 0 <= i < size :: NumberOf(v.items[i]).None? then Some(BadPoint(key))
    else if display.None? then Some(NoGeometry)
    else if PairReason(key, display.value, v.items[0], v.items[1]).Some? || size == 2
      then PairReason(key, display.value, v.items[0], v.items[1])
    else PairReason(key, display.value, v.items[2], v.items[3])
  }

  function SizeOf(a: Action, key: string, v: Val): nat {
    if key == "region" || (key == "coordinate" && a.Zoom? && Sequential(v) && |v.items| == 4) then 4 else 2
  }

  function KeyReason(a: Action, p: Params, key: string, flat: bool, display: Option<Geometry.Display>): Option<Reason> {
    if (flat && !Allowed(a, key)) || key !in p then None
    else PointReason(key, p[key], SizeOf(a, key, p[key]), display)
  }

  function First(a: Option<Reason>, b: Option<Reason>): Option<Reason> { if a.Some? then a else b }

  function PointsReason(a: Action, p: Params, flat: bool, display: Option<Geometry.Display>): Option<Reason> {
    First(KeyReason(a, p, "coordinate", flat, display),
      First(KeyReason(a, p, "start_coordinate", flat, display), KeyReason(a, p, "region", flat, display)))
  }

  function ShapeReason(a: Action, p: Params): Option<Reason> {
    var raw := Either(p, "coordinate", "region");
    if (a.MouseMove? || a.LeftClickDrag?) && "coordinate" !in p then Some(Missing)
    else if a.Zoom? && (!Sequential(raw) || |raw.items| != 4) && ("start_coordinate" !in p || "coordinate" !in p)
    then Some(Missing)
    else None
  }

  function TextReason(a: Action, p: Params): Option<Reason> {
    var text := Either(p, "text", "key");
    if (a.Key? || a.HoldKey? || a.Type?) && (!text.Text? || text.s == "") then Some(NoText)
    else if a.FocusWindow? && (!Get(p, "handle").Text? || Get(p, "handle").s == "") then Some(NoHandle)
    else None
  }

  const MAX_DURATION := 60.0

  function DurationReason(a: Action, p: Params): Option<Reason> {
    if (a.Wait? || a.HoldKey?) && "duration" in p &&
       (NumberOf(p["duration"]).None? || !(0.0 <= NumberOf(p["duration"]).value <= MAX_DURATION))
    then Some(BadDuration) else None
  }

  predicate GoodAmount(p: Params, key: string) { key in p ==> p[key].Int? && p[key].n >= 0 }

  function ScrollReason(a: Action, p: Params): Option<Reason> {
    var direction := Either(p, "scroll_direction", "direction");
    if !a.Scroll? then None
    else if !direction.Text? || direction.s !in ["up", "down", "left", "right"] then Some(BadDirection)
    else if !GoodAmount(p, "scroll_amount") || !GoodAmount(p, "amount") then Some(BadAmount)
    else None
  }

  /** The `repeat` of a key action, as Batch counts it. */
  function RepeatOf(p: Params): Batch.Repeat {
    if "repeat" !in p then Batch.Absent else if p["repeat"].Int? then Batch.Count(p["repeat"].n) else Batch.NotACount
  }

  function CallOf(a: Action, p: Params): Batch.Call { Batch.Call(a, RepeatOf(p)) }

  /** The checks once the action is known. */
  function ActionReason(a: Action, p: Params, flat: bool, display: Option<Geometry.Display>): Option<Reason> {
    if Batch.Times(CallOf(a, p)).None? then Some(BadRepeat)
    else if !flat && exists key | key in p :: !Allowed(a, key) then Some(Unsupported)
    else
      First(PointsReason(a, p, flat, display),
        First(ShapeReason(a, p), First(TextReason(a, p), First(DurationReason(a, p), ScrollReason(a, p)))))
  }

  /** _validate_batch_action: why the parameters are refused, if they are. */
  function Refusal(v: Val, display: Option<Geometry.Display>, flat: bool, zoomEnabled: bool): Option<Reason> {
    if !v.Object? then Some(NotAnObject)
    else if v.oddNames then Some(OddNames)
    else
      var name := Get(v.fields, "action");
      if !name.Text? || Named(name.s).None? then Some(UnknownAction)
      else if Named(name.s) == Some(Zoom) && !zoomEnabled then Some(ZoomDisabled)
      else ActionReason(Named(name.s).value, v.fields, flat, display)
  }

  /* What running it demands. */

  type Point = (int, int)

  datatype BackendCall =
    | Capture
    | CaptureRegion(x1: int, y1: int, x2: int, y2: int)
    | Cursor
    | Info
    | Windows
    | Focus(handle: string)
    | Click(button: string, count: nat, at: Option<Point>)
    | Move(to: Point)
    | Down(at: Option<Point>)
    | Up(at: Option<Point>)
    | Drag(start: Option<Point>, end: Point)
    | ScrollBy(at: Option<Point>, direction: Val, amount: int)
    | Press(text: Val)
    | Hold(text: Val, seconds: real)
    | Typing(text: Val)
    | Sleep(seconds: real)

  datatype RunError = Parameter | Range

  /** float() of a value that is no text. */
  function FloatOf(v: Val): Option<real> {
    match v case Bool(b) => Some(if b then 1.0 else 0.0) case _ => NumberOf(v)
  }

  function IntOf(v: Val): Option<int> {
    match v
    case Int(n) => Some(n)
    case Bool(b) => Some(if b then 1 else 0)
    case Float(r) => Some(if r >= 0.0 then r.Floor else -((-r).Floor))
    case _ => None
  }

  /** int(): a fraction is cut off towards zero, and a truth value counts as one or nothing. */
  lemma {:induction false} IntsAreCutTowardsZero(v: Val)
    ensures IntOf(v).Some? <==> v.Int? || v.Float? || v.Bool?
    ensures v.Bool? ==> IntOf(v) == IntOf(Int(if v.b then 1 else 0))
    ensures v.Int? ==> IntOf(v) == Some(v.n)
    ensures v.Float? && v.r >= 0.0 ==> IntOf(v).value as real <= v.r < (IntOf(v).value + 1) as real
    ensures v.Float? && v.r <= 0.0 ==> (IntOf(v).value - 1) as real < v.r <= IntOf(v).value as real
  {
  }

  function Located(display: Geometry.Display, x: Option<real>, y: Option<real>): Result<Point, RunError> {
    if x.None? || y.None? then Err(Parameter)
    else
      match Geometry.ToScreen(display, x.value, y.value)
      case Ok(p) => Ok(p)
      case Err(_) => Err(Range)
  }

  function Coord(p: Params, key: string, display: Geometry.Display): Result<Point, RunError> {
    var raw := Get(p, key);
    if !Sequential(raw) || |raw.items| < 2 then Err(Parameter)
    else Located(display, FloatOf(raw.items[0]), FloatOf(raw.items[1]))
  }

  function Maybe(wanted: bool, p: Params, key: string, display: Geometry.Display): Result<Option<Point>, RunError> {
    if !wanted then Ok(None)
    else match Coord(p, key, display) case Ok(c) => Ok(Some(c)) case Err(e) => Err(e)
  }

  /** The four numbers a zoom goes by: of `coordinate` or `region`, or of the two corners. */
  function ZoomCorners(p: Params): Option<seq<Val>> {
    var raw := Either(p, "coordinate", "region");
    var start, end := Get(p, "start_coordinate"), Get(p, "coordinate");
    if Sequential(raw) && |raw.items| >= 4 then Some(raw.items)
    else if Truthy(start) && Sequential(start) && |start.items| >= 2 && Sequential(end) && |end.items| >= 2
      then Some([start.items[0], start.items[1], end.items[0], end.items[1]])
    else None
  }

  function RunZoom(p: Params, display: Geometry.Display): Result<BackendCall, RunError> {
    match ZoomCorners(p)
    case None => Err(Parameter)
    case Some(c) =>
      if |c| < 4 then Err(Parameter)
      else
        match Located(display, FloatOf(c[0]), FloatOf(c[1]))
        case Err(e) => Err(e)
        case Ok(a) =>
          match Located(display, FloatOf(c[2]), FloatOf(c[3]))
          case Err(e) => Err(e)
          case Ok(b) => Ok(CaptureRegion(a.0, a.1, Geometry.Max(a.0 + 8, b.0), Geometry.Max(a.1 + 8, b.1)))
  }

  function ButtonOf(a: Action): string {
    if a.RightClick? then "right" else if a.MiddleClick? then "middle" else "left"
  }

  function CountOf(a: Action): nat { if a.DoubleClick? then 2 else if a.TripleClick? then 3 else 1 }

  function RunPointer(a: Action, p: Params, display: Geometry.Display): Result<BackendCall, RunError> {
    match Maybe(!Get(p, "coordinate").Nothing?, p, "coordinate", display)
    case Err(e) => Err(e)
    case Ok(at) =>
      if a.LeftMouseDown? then Ok(Down(at)) else if a.LeftMouseUp? then Ok(Up(at))
      else Ok(Click(ButtonOf(a), CountOf(a), at))
  }

  function RunDrag(p: Params, display: Geometry.Display): Result<BackendCall, RunError> {
    match Maybe(Truthy(Get(p, "start_coordinate")), p, "start_coordinate", display)
    case Err(e) => Err(e)
    case Ok(start) =>
      match Coord(p, "coordinate", display) case Err(e) => Err(e) case Ok(end) => Ok(Drag(start, end))
  }

  function RunScroll(p: Params, display: Geometry.Display): Result<BackendCall, RunError> {
    match Maybe(!Get(p, "coordinate").Nothing?, p, "coordinate", display)
    case Err(e) => Err(e)
    case Ok(at) =>
      var direction := Either(p, "scroll_direction", "direction");
      var amount := if "scroll_amount" in p then p["scroll_amount"] else if "amount" in p then p["amount"] else Int(3);
      if !Truthy(direction) || IntOf(amount).None? then Err(Parameter)
      else Ok(ScrollBy(at, direction, IntOf(amount).value))
  }

  function Seconds(p: Params): Option<real> { if "duration" in p then FloatOf(p["duration"]) else Some(1.0) }

  /** The parameters part of _run: the call it makes to the backend, or the error it raises first. */
  function Run(a: Action, p: Params, display: Geometry.Display): Result<BackendCall, RunError> {
    var text := Either(p, "text", "key");
    match a
    case Screenshot => Ok(Capture)
    case Zoom => RunZoom(p, display)
    case CursorPosition => Ok(Cursor)
    case ScreenInfo => Ok(Info)
    case ListWindows => Ok(Windows)
    case FocusWindow =>
      if !Truthy(Get(p, "handle")) then Err(Parameter)
      else if Get(p, "handle").Text? then Ok(Focus(Get(p, "handle").s)) else Ok(Focus("?"))
    case MouseMove => (match Coord(p, "coordinate", display) case Ok(c) => Ok(Move(c)) case Err(e) => Err(e))
    case LeftClickDrag => RunDrag(p, display)
    case Scroll => RunScroll(p, display)
    case Key => if !Truthy(text) then Err(Parameter) else Ok(Press(text))
    case HoldKey => if !Truthy(text) || Seconds(p).None? then Err(Parameter) else Ok(Hold(text, Seconds(p).value))
    case Type => if !Truthy(text) then Err(Parameter) else Ok(Typing(text))
    case Wait => if Seconds(p).None? then Err(Parameter) else Ok(Sleep(Seconds(p).value))
    case _ => RunPointer(a, p, display)
  }

  /* Validation is sound. */

  /** A point that passed is located where the display puts it. */
  lemma {:induction false} PointsAreLocated(key: string, v: Val, size: nat, display: Geometry.Display, i: nat)
    requires (size == 2 || size == 4) && PointReason(key, v, size, Some(display)).None?
    requires i == 0 || (i == 2 && size == 4)
    ensures Sequential(v) && |v.items| == size && Located(display, FloatOf(v.items[i]), FloatOf(v.items[i + 1])).Ok?
  {
    assert NumberOf(v.items[0]).Some? && NumberOf(v.items[1]).Some?;
    if size == 4 { assert NumberOf(v.items[2]).Some? && NumberOf(v.items[3]).Some?; }
  }

  lemma {:induction false} CoordsRun(a: Action, p: Params, key: string, flat: bool, display: Geometry.Display)
    requires Allowed(a, key) && key in p && SizeOf(a, key, p[key]) == 2
    requires KeyReason(a, p, key, flat, Some(display)).None?
    ensures Coord(p, key, display).Ok? && Truthy(p[key]) && !p[key].Nothing?
  {
    PointsAreLocated(key, p[key], 2, display, 0);
  }

  lemma {:induction false} PointersRun(a: Action, p: Params, flat: bool, display: Geometry.Display)
    requires Allowed(a, "coordinate") && !a.Zoom? && PointsReason(a, p, flat, Some(display)).None?
    ensures Maybe(!Get(p, "coordinate").Nothing?, p, "coordinate", display).Ok?
    ensures "coordinate" in p ==> Coord(p, "coordinate", display).Ok?
    ensures Allowed(a, "start_coordinate") ==>
              Maybe(Truthy(Get(p, "start_coordinate")), p, "start_coordinate", display).Ok?
  {
    if "coordinate" in p { CoordsRun(a, p, "coordinate", flat, display); }
    if Allowed(a, "start_coordinate") && "start_coordinate" in p { CoordsRun(a, p, "start_coordinate", flat, display); }
  }

  /** Every mix of the three forms of a zoom. */
  lemma {:induction false} ZoomsRun(p: Params, flat: bool, display: Geometry.Display)
    requires PointsReason(Zoom, p, flat, Some(display)).None? && ShapeReason(Zoom, p).None?
    ensures RunZoom(p, display).Ok?
  {
    if "coordinate" in p {
      var v := p["coordinate"];
      PointsAreLocated("coordinate", v, SizeOf(Zoom, "coordinate", v), display, 0);
      assert Either(p, "coordinate", "region") == v;
      if |v.items| == 4 {
        PointsAreLocated("coordinate", v, 4, display, 2);
      } else {
        PointsAreLocated("start_coordinate", p["start_coordinate"], 2, display, 0);
      }
    } else {
      assert "region" in p;
      PointsAreLocated("region", p["region"], 4, display, 0);
      PointsAreLocated("region", p["region"], 4, display, 2);
    }
  }

  /** An action that validation accepts against a display runs on that display without a parameter or
      range error, whichever forms its coordinates take, flat or in a batch. */
  lemma {:induction false} AcceptedActionsRun(v: Val, display: Geometry.Display, flat: bool, zoomEnabled: bool)
    requires Refusal(v, Some(display), flat, zoomEnabled).None?
    ensures v.Object? && Get(v.fields, "action").Text? && Named(v.fields["action"].s).Some?
    ensures Run(Named(v.fields["action"].s).value, v.fields, display).Ok?
    ensures Batch.Times(CallOf(Named(v.fields["action"].s).value, v.fields)).Some?
  {
    var a, p := Named(v.fields["action"].s).value, v.fields;
    if a.Zoom? {
      ZoomsRun(p, flat, display);
    } else if Allowed(a, "coordinate") {
      PointersRun(a, p, flat, display);
    }
  }

  /** Where a call acts, if it acts at a place. */
  function PlaceOf(c: BackendCall): Option<Point> {
    match c
    case Click(_, _, at) => at
    case Move(to) => Some(to)
    case Down(at) => at
    case Up(at) => at
    case Drag(_, end) => Some(end)
    case ScrollBy(at, _, _) => at
    case _ => None
  }

  /** An accepted action on a pixel of the image acts where that pixel is on the screen: nowhere that
      the display would tell the model was another pixel. */
  lemma {:induction false} ActionsHitTheirPixel(v: Val, display: Geometry.Display, flat: bool,
      zoomEnabled: bool, a: Action, x: int, y: int)
    requires Refusal(v, Some(display), flat, zoomEnabled).None? && Named(v.fields["action"].s) == Some(a)
    requires !a.Zoom? && Allowed(a, "coordinate")
    requires "coordinate" in v.fields && Sequential(v.fields["coordinate"])
    requires v.fields["coordinate"].items == [Int(x), Int(y)]
    requires Geometry.OnImage(display, (x, y)) && display.modelW <= display.screenW && display.modelH <= display.screenH
    ensures Run(a, v.fields, display).Ok?
    ensures var at := PlaceOf(Run(a, v.fields, display).value);
            && at.Some? && Geometry.OnDesktop(display, at.value)
            && Geometry.ToModel(display, at.value.0 as real, at.value.1 as real) == (x, y)
  {
    AcceptedActionsRun(v, display, flat, zoomEnabled);
    PixelsGoThere(v.fields, display, x, y);
    PlaceIsTheCoordinate(a, v.fields, display);
  }

  lemma {:induction false} PlaceIsTheCoordinate(a: Action, p: Params, display: Geometry.Display)
    requires !a.Zoom? && Allowed(a, "coordinate") && Coord(p, "coordinate", display).Ok? && Run(a, p, display).Ok?
    ensures PlaceOf(Run(a, p, display).value) == Some(Coord(p, "coordinate", display).value)
  {
  }

  lemma {:induction false} PixelsGoThere(p: Params, display: Geometry.Display, x: int, y: int)
    requires "coordinate" in p && Sequential(p["coordinate"]) && p["coordinate"].items == [Int(x), Int(y)]
    requires Geometry.OnImage(display, (x, y)) && display.modelW <= display.screenW && display.modelH <= display.screenH
    ensures Coord(p, "coordinate", display).Ok?
    ensures var at := Coord(p, "coordinate", display).value;
            Geometry.OnDesktop(display, at) && Geometry.ToModel(display, at.0 as real, at.1 as real) == (x, y)
  {
    Geometry.ImagePixelsRoundTripExactlyWhen(display);
    assert Geometry.RoundTrips(display, (x, y));
    Geometry.PointsLandOnTheDesktop(display, x as real, y as real);
  }

  /** An accepted zoom captures an area: its corner on the desktop, and at least eight pixels each way. */
  lemma {:induction false} ZoomsTakeAnArea(p: Params, flat: bool, display: Geometry.Display)
    requires PointsReason(Zoom, p, flat, Some(display)).None? && ShapeReason(Zoom, p).None?
    ensures RunZoom(p, display).Ok?
    ensures var c := RunZoom(p, display).value;
            c.CaptureRegion? && Geometry.OnDesktop(display, (c.x1, c.y1)) && c.x1 + 8 <= c.x2 && c.y1 + 8 <= c.y2
    ensures ZoomCorners(p).Some? && |ZoomCorners(p).value| >= 4
    ensures var c, k := RunZoom(p, display).value, ZoomCorners(p).value;
      && Located(display, FloatOf(k[0]), FloatOf(k[1])) == Ok((c.x1, c.y1))
      && var far := Located(display, FloatOf(k[2]), FloatOf(k[3]));
      && far.Ok? && (c.x2 == far.value.0 || (c.x2 == c.x1 + 8 && far.value.0 < c.x2))
      && (c.y2 == far.value.1 || (c.y2 == c.y1 + 8 && far.value.1 < c.y2))
  {
    ZoomsRun(p, flat, display);
    var c := ZoomCorners(p).value;
    Geometry.PointsLandOnTheDesktop(display, FloatOf(c[0]).value, FloatOf(c[1]).value);
  }

  /** Running asks for its own parameters again, whatever validation has let through: nothing is scrolled
      nowhere, typed empty, pressed without a key or focused without a window. */
  lemma {:induction false} RunsRefuseEmptyParameters(a: Action, p: Params, d: Geometry.Display)
    ensures (a.Key? || a.HoldKey? || a.Type?) && !Truthy(Either(p, "text", "key")) ==> Run(a, p, d) == Err(Parameter)
    ensures a.Scroll? && Run(a, p, d).Ok? ==> Truthy(Either(p, "scroll_direction", "direction"))
    ensures a.FocusWindow? && !Truthy(Get(p, "handle")) ==> Run(a, p, d) == Err(Parameter)
  {
  }

  /* What is accepted, told action by action, and what comes of it. */

  /** A number near enough to the image, on an axis of so many pixels. */
  predicate InBand(v: Val, size: int) { NumberOf(v).Some? && -2.0 <= NumberOf(v).value <= (size + 1) as real }

  predicate IsPair(v: Val, d: Geometry.Display) {
    (v.List? || v.Tuple?) && |v.items| == 2 && InBand(v.items[0], d.modelW) && InBand(v.items[1], d.modelH)
  }

  predicate IsQuad(v: Val, d: Geometry.Display) {
    && (v.List? || v.Tuple?) && |v.items| == 4 && InBand(v.items[0], d.modelW) && InBand(v.items[1], d.modelH)
    && InBand(v.items[2], d.modelW) && InBand(v.items[3], d.modelH)
  }

  predicate PairIfGiven(p: Params, key: string, d: Geometry.Display) { key in p ==> IsPair(p[key], d) }

  predicate HasText(p: Params) { Either(p, "text", "key").Text? && Either(p, "text", "key").s != "" }

  predicate SecondsIfGiven(p: Params) {
    "duration" in p ==> NumberOf(p["duration"]).Some? && 0.0 <= NumberOf(p["duration"]).value <= 60.0
  }

  predicate NotchesIfGiven(p: Params, key: string) { key in p ==> p[key].Int? && p[key].n >= 0 }

  predicate IsDirection(v: Val) {
    v == Text("up") || v == Text("down") || v == Text("left") || v == Text("right")
  }

  /** The parameters an action may come with. */
  ghost predicate Fits(a: Action, p: Params, d: Geometry.Display) {
    && p.Keys <= AllowedKeys(a)
    && match a
       case MouseMove => "coordinate" in p && IsPair(p["coordinate"], d)
       case LeftClickDrag =>
         "coordinate" in p && IsPair(p["coordinate"], d) && PairIfGiven(p, "start_coordinate", d)
       case Zoom =>
         && ("coordinate" in p ==>
               IsQuad(p["coordinate"], d) || (IsPair(p["coordinate"], d) && "start_coordinate" in p))
         && ("coordinate" !in p ==> "region" in p)
         && PairIfGiven(p, "start_coordinate", d) && ("region" in p ==> IsQuad(p["region"], d))
       case Scroll =>
         && PairIfGiven(p, "coordinate", d) && IsDirection(Either(p, "scroll_direction", "direction"))
         && NotchesIfGiven(p, "scroll_amount") && NotchesIfGiven(p, "amount")
       case Key => HasText(p) && ("repeat" in p ==> p["repeat"].Int? && 1 <= p["repeat"].n <= 100)
       case HoldKey => HasText(p) && SecondsIfGiven(p)
       case Type => HasText(p)
       case Wait => SecondsIfGiven(p)
       case FocusWindow => "handle" in p && p["handle"].Text? && p["handle"].s != ""
       case Screenshot => true
       case CursorPosition => true
       case ScreenInfo => true
       case ListWindows => true
       case _ => PairIfGiven(p, "coordinate", d)
  }

  function AllowedKeys(a: Action): set<string> {
    match a
    case LeftClickDrag => {"action", "coordinate", "start_coordinate"}
    case Zoom => {"action", "coordinate", "start_coordinate", "region"}
    case Scroll => {"action", "coordinate", "scroll_direction", "direction", "scroll_amount", "amount"}
    case Key => {"action", "text", "key", "repeat"}
    case HoldKey => {"action", "text", "key", "duration"}
    case Type => {"action", "text", "key"}
    case Wait => {"action", "duration"}
    case FocusWindow => {"action", "handle"}
    case Screenshot => {"action"}
    case CursorPosition => {"action"}
    case ScreenInfo => {"action"}
    case ListWindows => {"action"}
    case _ => {"action", "coordinate"}
  }

  lemma {:induction false} AllowedMeaning(a: Action, key: string)
    ensures Allowed(a, key) <==> key in AllowedKeys(a)
  {
  }

  lemma {:induction false} NoExtrasExactlyWhen(a: Action, p: Params)
    ensures (exists key | key in p :: !Allowed(a, key)) <==> !(p.Keys <= AllowedKeys(a))
  {
    forall key ensures Allowed(a, key) <==> key in AllowedKeys(a) { AllowedMeaning(a, key); }
  }

  lemma {:induction false} PairsPassExactlyWhen(key: string, v: Val, d: Geometry.Display)
    ensures PointReason(key, v, 2, Some(d)).None? <==> IsPair(v, d)
  {
    if Sequential(v) && |v.items| == 2 && NumberOf(v.items[0]).Some? && NumberOf(v.items[1]).Some? {
      Geometry.PointsLandOnTheDesktop(d, NumberOf(v.items[0]).value, NumberOf(v.items[1]).value);
      forall i | 0 <= i < 2 ensures NumberOf(v.items[i]).Some? { assert i == 0 || i == 1; }
    }
  }

  lemma {:induction false} QuadsPassExactlyWhen(key: string, v: Val, d: Geometry.Display)
    ensures PointReason(key, v, 4, Some(d)).None? <==> IsQuad(v, d)
  {
    if Sequential(v) && |v.items| == 4 && (forall i | 0 <= i < 4 :: NumberOf(v.items[i]).Some?) {
      Geometry.PointsLandOnTheDesktop(d, NumberOf(v.items[0]).value, NumberOf(v.items[1]).value);
      Geometry.PointsLandOnTheDesktop(d, NumberOf(v.items[2]).value, NumberOf(v.items[3]).value);
    }
  }

  /** The points of an action that is no zoom. */
  lemma {:induction false} PlainPointsPassExactlyWhen(a: Action, p: Params, d: Geometry.Display)
    requires !a.Zoom? && p.Keys <= AllowedKeys(a)
    ensures PointsReason(a, p, false, Some(d)).None? <==>
              PairIfGiven(p, "coordinate", d) && PairIfGiven(p, "start_coordinate", d)
  {
    if "coordinate" in p { PairsPassExactlyWhen("coordinate", p["coordinate"], d); }
    if "start_coordinate" in p { PairsPassExactlyWhen("start_coordinate", p["start_coordinate"], d); }
    assert "region" !in AllowedKeys(a);
  }

  lemma {:induction false} ZoomPointsPassExactlyWhen(p: Params, d: Geometry.Display)
    ensures PointsReason(Zoom, p, false, Some(d)).None? <==>
              && ("coordinate" in p ==> IsPair(p["coordinate"], d) || IsQuad(p["coordinate"], d))
              && PairIfGiven(p, "start_coordinate", d) && ("region" in p ==> IsQuad(p["region"], d))
  {
    if "coordinate" in p {
      PairsPassExactlyWhen("coordinate", p["coordinate"], d);
      QuadsPassExactlyWhen("coordinate", p["coordinate"], d);
    }
    if "start_coordinate" in p { PairsPassExactlyWhen("start_coordinate", p["start_coordinate"], d); }
    if "region" in p { QuadsPassExactlyWhen("region", p["region"], d); }
  }

  lemma {:induction false} ZoomsFitExactlyWhen(p: Params, d: Geometry.Display)
    requires p.Keys <= AllowedKeys(Zoom)
    ensures PointsReason(Zoom, p, false, Some(d)).None? && ShapeReason(Zoom, p).None? <==> Fits(Zoom, p, d)
  {
    ZoomPointsPassExactlyWhen(p, d);
  }

  /** Everything but the points of a zoom. */
  lemma {:induction false} RestPassesExactlyWhen(a: Action, p: Params, d: Geometry.Display)
    requires !a.Zoom? && p.Keys <= AllowedKeys(a)
    ensures Fits(a, p, d) <==>
      && Batch.Times(CallOf(a, p)).Some? && PointsReason(a, p, false, Some(d)).None? && ShapeReason(a, p).None?
      && TextReason(a, p).None? && DurationReason(a, p).None? && ScrollReason(a, p).None?
  {
    PlainPointsPassExactlyWhen(a, p, d);
    assert !a.Scroll? ==> ScrollReason(a, p).None?;
    if a.Scroll? { ScrollsPassExactlyWhen(p); }
  }

  lemma {:induction false} ScrollsPassExactlyWhen(p: Params)
    ensures ScrollReason(Scroll, p).None? <==>
      && IsDirection(Either(p, "scroll_direction", "direction"))
      && NotchesIfGiven(p, "scroll_amount") && NotchesIfGiven(p, "amount")
  {
  }

  ghost predicate IsAction(v: Val, d: Geometry.Display, zoomEnabled: bool) {
    && v.Object? && !v.oddNames
    && "action" in v.fields && v.fields["action"].Text? && Named(v.fields["action"].s).Some?
    && Fits(Named(v.fields["action"].s).value, v.fields, d)
    && (Named(v.fields["action"].s).value.Zoom? ==> zoomEnabled)
  }

  /** A batch member is accepted exactly when it is an object with names for keys, names an action, a zoom
      only where zooming is enabled, and comes with parameters that fit it. */
  lemma {:induction false} AcceptedExactlyWhen(v: Val, d: Geometry.Display, zoomEnabled: bool)
    ensures Refusal(v, Some(d), false, zoomEnabled).None? <==> IsAction(v, d, zoomEnabled)
  {
    if v.Object? && !v.oddNames && Get(v.fields, "action").Text? && Named(Get(v.fields, "action").s).Some? {
      KnownActionsPassExactlyWhen(v.fields, d, zoomEnabled, Named(v.fields["action"].s).value);
    }
  }

  lemma {:induction false} KnownActionsPassExactlyWhen(
      p: Params, d: Geometry.Display, zoomEnabled: bool, a: Action)
    requires Get(p, "action").Text? && Named(p["action"].s) == Some(a)
    ensures Refusal(Object(p, false), Some(d), false, zoomEnabled).None? <==>
              Fits(a, p, d) && (a.Zoom? ==> zoomEnabled)
  {
    NoExtrasExactlyWhen(a, p);
    if p.Keys <= AllowedKeys(a) {
      if a.Zoom? { ZoomsFitExactlyWhen(p, d); } else { RestPassesExactlyWhen(a, p, d); }
    } else {
      MisfitsHaveExtras(a, p, d);
    }
  }

  lemma {:induction false} MisfitsHaveExtras(a: Action, p: Params, d: Geometry.Display)
    requires !(p.Keys <= AllowedKeys(a))
    ensures !Fits(a, p, d)
  {
  }

  /** What an accepted action asks of the backend, in terms of its parameters alone. */
  lemma {:induction false} AcceptedActionsDo(a: Action, p: Params, d: Geometry.Display)
    requires Fits(a, p, d) && !a.Zoom?
    ensures Run(a, p, d).Ok?
    ensures var call, text := Run(a, p, d).value, Either(p, "text", "key");
      match a
      case Screenshot => call == Capture
      case CursorPosition => call == Cursor
      case ScreenInfo => call == Info
      case ListWindows => call == Windows
      case FocusWindow => call == Focus(p["handle"].s)
      case MouseMove => call.Move?
      case LeftMouseDown => call.Down? && (call.at.Some? <==> "coordinate" in p)
      case LeftMouseUp => call.Up? && (call.at.Some? <==> "coordinate" in p)
      case LeftClickDrag => call.Drag? && (call.start.Some? <==> "start_coordinate" in p)
      case Scroll =>
        && call.ScrollBy? && (call.at.Some? <==> "coordinate" in p)
        && call.direction == Either(p, "scroll_direction", "direction")
        && (if "scroll_amount" in p then Int(call.amount) == p["scroll_amount"]
            else if "amount" in p then Int(call.amount) == p["amount"]
            else call.amount == 3)
      case Key => call == Press(text)
      case HoldKey =>
        && call.Hold? && call.text == text
        && (if "duration" in p then Some(call.seconds) == NumberOf(p["duration"]) else call.seconds == 1.0)
      case Type => call == Typing(text)
      case Wait =>
        && call.Sleep?
        && (if "duration" in p then Some(call.seconds) == NumberOf(p["duration"]) else call.seconds == 1.0)
      case LeftClick => Clicks(call, "left", 1, p)
      case RightClick => Clicks(call, "right", 1, p)
      case MiddleClick => Clicks(call, "middle", 1, p)
      case DoubleClick => Clicks(call, "left", 2, p)
      case TripleClick => Clicks(call, "left", 3, p)
      case Zoom => false
  {
    GivenPairsAreLocated(p, "coordinate", d);
    GivenPairsAreLocated(p, "start_coordinate", d);
  }

  predicate Clicks(call: BackendCall, button: string, count: nat, p: Params) {
    call.Click? && call.button == button && call.count == count && (call.at.Some? <==> "coordinate" in p)
  }

  lemma {:induction false} GivenPairsAreLocated(p: Params, key: string, d: Geometry.Display)
    ensures key in p && IsPair(p[key], d) ==> Coord(p, key, d).Ok? && Truthy(p[key])
  {
    if key in p && IsPair(p[key], d) {
      PairsPassExactlyWhen(key, p[key], d);
      PointsAreLocated(key, p[key], 2, d, 0);
    }
  }

  /* A flat call is validated as if the parameters it does not know were not there. */

  function Known(a: Action, p: Params): Params { map key | key in p && Allowed(a, key) :: p[key] }

  lemma {:induction false} KnownGets(a: Action, p: Params, key: string)
    ensures Allowed(a, key) ==> Get(Known(a, p), key) == Get(p, key) && (key in Known(a, p) <==> key in p)
    ensures !Allowed(a, key) ==> key !in Known(a, p)
  {
  }

  lemma {:induction false} FlatCallsIgnoreTheRest(a: Action, p: Params, display: Option<Geometry.Display>)
    ensures ActionReason(a, p, true, display) == ActionReason(a, Known(a, p), false, display)
  {
    KnownPoints(a, p, display);
    KnownRest(a, p);
  }

  lemma {:induction false} KnownPoints(a: Action, p: Params, display: Option<Geometry.Display>)
    ensures PointsReason(a, p, true, display) == PointsReason(a, Known(a, p), false, display)
  {
    KnownGets(a, p, "coordinate");
    KnownGets(a, p, "start_coordinate");
    KnownGets(a, p, "region");
  }

  lemma {:induction false} KnownRest(a: Action, p: Params)
    ensures ShapeReason(a, p) == ShapeReason(a, Known(a, p)) && TextReason(a, p) == TextReason(a, Known(a, p))
    ensures DurationReason(a, p) == DurationReason(a, Known(a, p)) && ScrollReason(a, p) == ScrollReason(a, Known(a, p))
    ensures Batch.Times(CallOf(a, p)) == Batch.Times(CallOf(a, Known(a, p)))
  {
    KnownShape(a, p);
    KnownScroll(a, p);
  }

  lemma {:induction false} KnownShape(a: Action, p: Params)
    ensures ShapeReason(a, p) == ShapeReason(a, Known(a, p))
  {
  }

  lemma {:induction false} KnownScroll(a: Action, p: Params)
    ensures ScrollReason(a, p) == ScrollReason(a, Known(a, p))
  {
  }

  /* The whole request. */

  datatype Prepared = Prepared(calls: seq<(Action, Params)>, batch: bool, captureAfter: bool)

  /** What a batch must look like before its actions are. */
  function BatchReason(p: Params, oddNames: bool, display: Option<Geometry.Display>): Option<Reason> {
    if oddNames || p.Keys != {"version", "actions", "capture_after"} then Some(BadBatch)
    else if p["version"] != Int(1) then Some(BadVersion)
    else if !p["capture_after"].Bool? then Some(BadCaptureAfter)
    else if !p["actions"].List? || p["actions"].items == [] then Some(NoActions)
    else if display.None? then Some(NoGeometry)
    else None
  }

  predicate Describes(call: (Action, Params), v: Val) {
    v.Object? && call.1 == v.fields && Get(v.fields, "action").Text? && Named(v.fields["action"].s) == Some(call.0)
  }

  /** _prepare_calls for a batch: the calls, all of them valid, or the first that is not. */
  method PrepareBatch(p: Params, oddNames: bool, display: Option<Geometry.Display>, zoomEnabled: bool)
    returns (r: Result<Prepared, Reason>)
    ensures r.Ok? <==> && BatchReason(p, oddNames, display).None?
                       && forall v :: v in p["actions"].items ==> Refusal(v, display, false, zoomEnabled).None?
    ensures r.Ok? ==> && r.value.batch && p["capture_after"] == Bool(r.value.captureAfter)
                      && |r.value.calls| == |p["actions"].items|
                      && forall i :: 0 <= i < |r.value.calls| ==> Describes(r.value.calls[i], p["actions"].items[i])
    ensures r.Err? && !r.error.Member? ==> BatchReason(p, oddNames, display) == Some(r.error)
    ensures r.Err? && r.error.Member? ==>
              && BatchReason(p, oddNames, display).None? && r.error.index < |p["actions"].items|
              && Refusal(p["actions"].items[r.error.index], display, false, zoomEnabled) == Some(r.error.reason)
              && forall i :: 0 <= i < r.error.index ==>
                   Refusal(p["actions"].items[i], display, false, zoomEnabled).None?
  {
    var reason := BatchReason(p, oddNames, display);
    if reason.Some? { return Err(reason.value); }
    var items, calls, i := p["actions"].items, [], 0;
    while i < |items|
      invariant 0 <= i <= |items| && |calls| == i
      invariant forall j :: 0 <= j < i ==> Refusal(items[j], display, false, zoomEnabled).None?
      invariant forall j :: 0 <= j < i ==> Describes(calls[j], items[j])
    {
      var refusal := Refusal(items[i], display, false, zoomEnabled);
      if refusal.Some? { return Err(Member(i, refusal.value)); }
      var fields := items[i].fields;
      calls := calls + [(Named(fields["action"].s).value, fields)];
      i := i + 1;
    }
    r := Ok(Prepared(calls, true, p["capture_after"].b));
  }

  ghost predicate Prepares(p: Params, oddNames: bool, display: Option<Geometry.Display>, zoomEnabled: bool) {
    && BatchReason(p, oddNames, display).None?
    && forall v :: v in p["actions"].items ==> Refusal(v, display, false, zoomEnabled).None?
  }

  /** A batch is taken up exactly when it has its three parameters and no others, version 1, a truth value for
      capture_after and at least one action, the screen is known, and every member is an action. */
  lemma {:induction false} BatchesAreTakenUpExactlyWhen(
      p: Params, oddNames: bool, display: Option<Geometry.Display>, zoomEnabled: bool)
    ensures Prepares(p, oddNames, display, zoomEnabled) <==>
      && !oddNames && p.Keys == {"version", "actions", "capture_after"}
      && p["version"] == Int(1) && p["capture_after"].Bool? && p["actions"].List? && p["actions"].items != []
      && display.Some? && forall v :: v in p["actions"].items ==> IsAction(v, display.value, zoomEnabled)
  {
    if display.Some? && BatchReason(p, oddNames, display).None? {
      forall v | v in p["actions"].items
        ensures Refusal(v, display, false, zoomEnabled).None? <==> IsAction(v, display.value, zoomEnabled)
      {
        AcceptedExactlyWhen(v, display.value, zoomEnabled);
      }
    }
  }

  /** Every call of a prepared batch runs without a parameter or range error, as often as it says. */
  lemma {:induction false} PreparedCallsRun(call: (Action, Params), v: Val, display: Geometry.Display,
      zoomEnabled: bool)
    requires Describes(call, v) && Refusal(v, Some(display), false, zoomEnabled).None?
    ensures Runs(call, display)
  {
    AcceptedActionsRun(v, display, false, zoomEnabled);
  }

  function CallsOf(calls: seq<(Action, Params)>): (cs: seq<Batch.Call>)
    ensures |cs| == |calls| && forall i :: 0 <= i < |cs| ==> cs[i] == CallOf(calls[i].0, calls[i].1)
  {
    seq(|calls|, i requires 0 <= i < |calls| => CallOf(calls[i].0, calls[i].1))
  }

  predicate Runs(call: (Action, Params), display: Geometry.Display) {
    Run(call.0, call.1, display).Ok? && Batch.Times(CallOf(call.0, call.1)).Some?
  }

  /** The calls that may reach the backend are well-formed, all of them. */
  ghost predicate AllRun(calls: seq<(Action, Params)>, display: Geometry.Display) {
    forall i :: 0 <= i < |calls| ==> Runs(calls[i], display)
  }

  /** execute, from the request to the report. A batch with a single invalid action dispatches nothing.
      One that is prepared is executed as it was requested, action by action; it dispatches only steps
      whose parameters are good, and its report says what Batch says of every report. */
  method ExecuteBatch(
    p: Params, oddNames: bool, display: Option<Geometry.Display>, zoomEnabled: bool, w: Batch.World)
    returns (r: Result<Batch.Report, Reason>, calls: seq<(Action, Params)>, dispatched: seq<nat>)
    ensures r.Ok? <==> Prepares(p, oddNames, display, zoomEnabled)
    ensures r.Err? ==> dispatched == []
    ensures r.Ok? ==> dispatched == r.value.dispatched && forall d :: 0 <= d < |dispatched| ==> dispatched[d] <= |calls|
    ensures r.Ok? ==> && |calls| == |p["actions"].items|
                      && forall i :: 0 <= i < |calls| ==> Describes(calls[i], p["actions"].items[i])
    ensures r.Ok? ==> display.Some? && AllRun(calls, display.value)
    ensures r.Ok? ==> && Batch.Truthful(CallsOf(calls), w, r.value)
                      && Batch.UncertainExactlyWhen(CallsOf(calls), w, r.value)
                      && Batch.Explained(CallsOf(calls), p["capture_after"].b, w, r.value)
                      && Batch.Permitted(CallsOf(calls), w, r.value) && Batch.Heeded(w, r.value)
                      && (r.value.error.None? ==> Batch.Succeeded(CallsOf(calls), p["capture_after"].b, w, r.value))
                      && (Batch.Undisturbed(CallsOf(calls), w) ==> r.value.error.None?)
  {
    dispatched := [];
    var prepared := PrepareBatch(p, oddNames, display, zoomEnabled);
    if prepared.Err? { return Err(prepared.error), [], dispatched; }
    calls := prepared.value.calls;
    AllPreparedRun(calls, p["actions"].items, display.value, zoomEnabled);
    var report := Batch.Execute(CallsOf(calls), prepared.value.captureAfter, w);
    forall d | 0 <= d < |report.dispatched| ensures report.dispatched[d] <= |calls| {
      Batch.ReportsCountExactlyWhatFinished(CallsOf(calls), w, report, d);
      Batch.StepsOf(CallsOf(calls), |calls|, d);
    }
    r, dispatched := Ok(report), report.dispatched;
  }

  lemma {:induction false} AllPreparedRun(calls: seq<(Action, Params)>, items: seq<Val>,
      display: Geometry.Display, zoomEnabled: bool)
    requires |calls| == |items| && forall i :: 0 <= i < |calls| ==> Describes(calls[i], items[i])
    requires forall v :: v in items ==> Refusal(v, Some(display), false, zoomEnabled).None?
    ensures AllRun(calls, display)
  {
    forall i | 0 <= i < |calls|
      ensures Run(calls[i].0, calls[i].1, display).Ok? && Batch.Times(CallOf(calls[i].0, calls[i].1)).Some?
    {
      assert items[i] in items;
      PreparedCallsRun(calls[i], items[i], display, zoomEnabled);
    }
  }
}
