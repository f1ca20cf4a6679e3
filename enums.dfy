/**
  The enumeration codecs of `MapTypeConverter.swift`: each decoder reads a
  string and maps the names it knows to SDK variants. Unknown names fall back
  to a fixed default, except in the alignment decoder, which fails. Tracking
  mode, alignment, line cap and line join also have an encoder back to a name.
 */
module Enums {
  import opened Values

  /* ---------- Camera animation (decode only) ---------- */

  datatype CameraAnimation = EaseIn | Fly | Linear | None

  /** `asCameraAnimation`. */
  function AsCameraAnimation(v: Value): (r: Result<CameraAnimation>)
    ensures r.Ok? <==> v.Str?
  {
    var s :- AsString(v);
    match s
    case "easing" => Ok(EaseIn)
    case "fly" => Ok(Fly)
    case "linear" => Ok(Linear)
    case _ => Ok(CameraAnimation.None)
  }

  /** Which name decodes to which animation, in both directions. */
  lemma CameraAnimationNames(s: string)
    ensures AsCameraAnimation(Str(s)) == Ok(EaseIn) <==> s == "easing"
    ensures AsCameraAnimation(Str(s)) == Ok(Fly) <==> s == "fly"
    ensures AsCameraAnimation(Str(s)) == Ok(Linear) <==> s == "linear"
    ensures AsCameraAnimation(Str(s)) == Ok(CameraAnimation.None) <==> s !in {"easing", "fly", "linear"}
  {
  }

  /* ---------- Map type (decode only) ---------- */

  datatype MapType = Basic | Hybrid | Navi | Satellite | Terrain | None

  /** `asMapType`. */
  function AsMapType(v: Value): (r: Result<MapType>)
    ensures r.Ok? <==> v.Str?
  {
    var s :- AsString(v);
    match s
    case "basic" => Ok(Basic)
    case "hybrid" => Ok(Hybrid)
    case "navi" => Ok(Navi)
    case "satellite" => Ok(Satellite)
    case "terrain" => Ok(Terrain)
    case _ => Ok(MapType.None)
  }

  lemma MapTypeNames(s: string)
    ensures AsMapType(Str(s)) == Ok(MapType.None) <==> s !in {"basic", "hybrid", "navi", "satellite", "terrain"}
    ensures AsMapType(Str(s)) == Ok(Basic) <==> s == "basic"
    ensures AsMapType(Str(s)) == Ok(Hybrid) <==> s == "hybrid"
    ensures AsMapType(Str(s)) == Ok(Navi) <==> s == "navi"
    ensures AsMapType(Str(s)) == Ok(Satellite) <==> s == "satellite"
    ensures AsMapType(Str(s)) == Ok(Terrain) <==> s == "terrain"
  {
  }

  /* ---------- Location tracking mode ---------- */

  /** `NMFMyPositionMode`. */
  datatype TrackingMode = Compass | Direction | Normal | Disabled

  /** `asLocationTrackingMode`. */
  function AsLocationTrackingMode(v: Value): (r: Result<TrackingMode>)
    ensures r.Ok? <==> v.Str?
    ensures r == Ok(Compass) <==> v == Str("face")
    ensures r == Ok(Direction) <==> v == Str("follow")
    ensures r == Ok(Normal) <==> v == Str("noFollow")
    ensures r == Ok(Disabled) <==> v.Str? && v.s !in {"face", "follow", "noFollow"}
  {
    var s :- AsString(v);
    match s
    case "face" => Ok(Compass)
    case "follow" => Ok(Direction)
    case "noFollow" => Ok(Normal)
    case _ => Ok(Disabled)
  }

  /** `NMFMyPositionMode.toMessageableString`. */
  function TrackingModeName(m: TrackingMode): (r: string)
    ensures r == "face" <==> m == Compass
    ensures r == "follow" <==> m == Direction
    ensures r == "noFollow" <==> m == Normal
    ensures r == "none" <==> m == Disabled
  {
    match m
    case Compass => "face"
    case Direction => "follow"
    case Normal => "noFollow"
    case Disabled => "none"
  }

  /** Every mode survives encode then decode; `disabled` does so through the default. */
  lemma TrackingModeRoundTrip(m: TrackingMode)
    ensures AsLocationTrackingMode(Str(TrackingModeName(m))) == Ok(m)
  {
  }

  /** Decode then encode gives the name back exactly for the three named modes and "none". */
  lemma TrackingModeNameRoundTrip(s: string)
    ensures TrackingModeName(AsLocationTrackingMode(Str(s)).value) == s <==> s in {"face", "follow", "noFollow", "none"}
    ensures s !in {"face", "follow", "noFollow"} ==> AsLocationTrackingMode(Str(s)) == Ok(Disabled)
  {
  }

  /* ---------- Overlay alignment ---------- */

  /** `NMFAlignType`. */
  datatype Align = Center | Left | Right | Top | Bottom | TopLeft | TopRight | BottomLeft | BottomRight

  const AlignNames: set<string> :=
    {"center", "left", "right", "top", "bottom", "topLeft", "topRight", "bottomLeft", "bottomRight"}

  /** `asAlign`: the one decoder that fails on an unknown name. */
  function AsAlign(v: Value): (r: Result<Align>)
    ensures r.Ok? <==> v.Str? && v.s in AlignNames
    ensures v.Str? && r.Err? ==> r.error == UnknownName(v.s)
    ensures r == Ok(Center) <==> v == Str("center")
    ensures r == Ok(Left) <==> v == Str("left")
    ensures r == Ok(Right) <==> v == Str("right")
    ensures r == Ok(Top) <==> v == Str("top")
    ensures r == Ok(Bottom) <==> v == Str("bottom")
    ensures r == Ok(TopLeft) <==> v == Str("topLeft")
    ensures r == Ok(TopRight) <==> v == Str("topRight")
    ensures r == Ok(BottomLeft) <==> v == Str("bottomLeft")
    ensures r == Ok(BottomRight) <==> v == Str("bottomRight")
  {
    var s :- AsString(v);
    match s
    case "center" => Ok(Center)
    case "left" => Ok(Left)
    case "right" => Ok(Right)
    case "top" => Ok(Top)
    case "bottom" => Ok(Bottom)
    case "topLeft" => Ok(TopLeft)
    case "topRight" => Ok(TopRight)
    case "bottomLeft" => Ok(BottomLeft)
    case "bottomRight" => Ok(BottomRight)
    case _ => Err(UnknownName(s))
  }

  /** `NMFAlignType.toMessageableString`: names `bottomRight` and `bottomLeft` crosswise. */
  function AlignName(a: Align): (r: string)
    ensures r in AlignNames
    ensures r == "center" <==> a == Center
    ensures r == "left" <==> a == Left
    ensures r == "right" <==> a == Right
    ensures r == "top" <==> a == Top
    ensures r == "bottom" <==> a == Bottom
    ensures r == "topLeft" <==> a == TopLeft
    ensures r == "topRight" <==> a == TopRight
    ensures r == "bottomLeft" <==> a == BottomRight
    ensures r == "bottomRight" <==> a == BottomLeft
  {
    match a
    case Center => "center"
    case Left => "left"
    case Right => "right"
    case Top => "top"
    case Bottom => "bottom"
    case TopLeft => "topLeft"
    case TopRight => "topRight"
    case BottomRight => "bottomLeft"
    case BottomLeft => "bottomRight"
  }

  /** The alignment with its two bottom corners exchanged. */
  function SwapBottomCorners(a: Align): Align {
    match a
    case BottomLeft => BottomRight
    case BottomRight => BottomLeft
    case _ => a
  }

  /** The name with its two bottom corners exchanged. */
  function SwapBottomCornerNames(s: string): string {
    if s == "bottomLeft" then "bottomRight"
    else if s == "bottomRight" then "bottomLeft"
    else s
  }

  /** Encoding then decoding an alignment returns it with its bottom corners swapped. */
  lemma AlignRoundTrip(a: Align)
    ensures AsAlign(Str(AlignName(a))) == Ok(SwapBottomCorners(a))
    ensures AlignName(a) == AlignName(SwapBottomCorners(a)) <==> !(a == BottomLeft || a == BottomRight)
  {
  }

  /** Decoding then encoding a known name swaps only the bottom corners. */
  lemma AlignNameRoundTrip(s: string)
    requires s in AlignNames
    ensures AsAlign(Str(s)).Ok?
    ensures AlignName(AsAlign(Str(s)).value) == SwapBottomCornerNames(s)
    ensures AlignName(AsAlign(Str(s)).value) == s <==> s != "bottomLeft" && s != "bottomRight"
  {
  }

  /** Decode-then-encode is an involution on the nine names. */
  lemma AlignEchoInvolution(s: string)
    requires s in AlignNames
    ensures var t := AlignName(AsAlign(Str(s)).value);
      t in AlignNames && AlignName(AsAlign(Str(t)).value) == s
  {
  }

  /* ---------- Logo alignment (decode only) ---------- */

  datatype LogoAlign = LeftBottom | RightBottom | LeftTop | RightTop

  /** `asLogoAlign`. */
  function AsLogoAlign(v: Value): (r: Result<LogoAlign>)
    ensures r.Ok? <==> v.Str?
  {
    var s :- AsString(v);
    match s
    case "leftBottom" => Ok(LeftBottom)
    case "rightBottom" => Ok(RightBottom)
    case "leftTop" => Ok(LeftTop)
    case "rightTop" => Ok(RightTop)
    case _ => Ok(LeftBottom)
  }

  lemma LogoAlignNames(s: string)
    ensures AsLogoAlign(Str(s)) == Ok(LeftBottom) <==> s !in {"rightBottom", "leftTop", "rightTop"}
    ensures AsLogoAlign(Str(s)) == Ok(RightBottom) <==> s == "rightBottom"
    ensures AsLogoAlign(Str(s)) == Ok(LeftTop) <==> s == "leftTop"
    ensures AsLogoAlign(Str(s)) == Ok(RightTop) <==> s == "rightTop"
  {
  }

  /* ---------- Line cap ---------- */

  /** `NMFOverlayLineCap`. */
  datatype LineCap = Butt | Round | Square

  /** `asLineCap`. */
  function AsLineCap(v: Value): (r: Result<LineCap>)
    ensures r.Ok? <==> v.Str?
    ensures r == Ok(LineCap.Round) <==> v == Str("round")
    ensures r == Ok(Square) <==> v == Str("square")
    ensures r == Ok(Butt) <==> v.Str? && v.s !in {"round", "square"}
  {
    var s :- AsString(v);
    match s
    case "butt" => Ok(Butt)
    case "round" => Ok(LineCap.Round)
    case "square" => Ok(Square)
    case _ => Ok(Butt)
  }

  /** `NMFOverlayLineCap.toMessageableString`. */
  function LineCapName(c: LineCap): (r: string)
    ensures r == "butt" <==> c == Butt
    ensures r == "round" <==> c == LineCap.Round
    ensures r == "square" <==> c == Square
  {
    match c
    case Butt => "butt"
    case Round => "round"
    case Square => "square"
  }

  lemma LineCapRoundTrip(c: LineCap)
    ensures AsLineCap(Str(LineCapName(c))) == Ok(c)
  {
  }

  lemma LineCapNameRoundTrip(s: string)
    ensures LineCapName(AsLineCap(Str(s)).value) == s <==> s in {"butt", "round", "square"}
    ensures s !in {"butt", "round", "square"} ==> AsLineCap(Str(s)) == Ok(Butt)
  {
  }

  /* ---------- Line join ---------- */

  /** `NMFOverlayLineJoin`. */
  datatype LineJoin = Bevel | Miter | Round

  /** `asLineJoin`. */
  function AsLineJoin(v: Value): (r: Result<LineJoin>)
    ensures r.Ok? <==> v.Str?
    ensures r == Ok(Miter) <==> v == Str("miter")
    ensures r == Ok(LineJoin.Round) <==> v == Str("round")
    ensures r == Ok(Bevel) <==> v.Str? && v.s !in {"miter", "round"}
  {
    var s :- AsString(v);
    match s
    case "bevel" => Ok(Bevel)
    case "miter" => Ok(Miter)
    case "round" => Ok(LineJoin.Round)
    case _ => Ok(Bevel)
  }

  /** `NMFOverlayLineJoin.toMessageableString`. */
  function LineJoinName(j: LineJoin): (r: string)
    ensures r == "bevel" <==> j == Bevel
    ensures r == "miter" <==> j == Miter
    ensures r == "round" <==> j == LineJoin.Round
  {
    match j
    case Bevel => "bevel"
    case Miter => "miter"
    case Round => "round"
  }

  lemma LineJoinRoundTrip(j: LineJoin)
    ensures AsLineJoin(Str(LineJoinName(j))) == Ok(j)
  {
  }

  lemma LineJoinNameRoundTrip(s: string)
    ensures LineJoinName(AsLineJoin(Str(s)).value) == s <==> s in {"bevel", "miter", "round"}
    ensures s !in {"bevel", "miter", "round"} ==> AsLineJoin(Str(s)) == Ok(Bevel)
  {
  }
}
