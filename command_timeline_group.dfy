/**
 * The command timeline group of a storyboard element: one timeline per
 * animatable property, aggregate extents over all of them, and retrieval of
 * one property's commands, optionally moved to another time base.
 *
 * Float-valued properties carry `real` values; the vector, colour and
 * blending value types are the type parameters V, C and B, which the group
 * never inspects.
 */
module CommandTimelineGroups {
  import opened CommandTimelines

  /** The ten per-property timelines of one element. */
  datatype CommandTimelineGroup<V, C, B> = CommandTimelineGroup(
    x: CommandTimeline<real>,
    y: CommandTimeline<real>,
    scale: CommandTimeline<real>,
    vectorScale: CommandTimeline<V>,
    rotation: CommandTimeline<real>,
    colour: CommandTimeline<C>,
    alpha: CommandTimeline<real>,
    blendingParameters: CommandTimeline<B>,
    flipH: CommandTimeline<bool>,
    flipV: CommandTimeline<bool>)

  /** Names of the ten timelines of a group. */
  datatype Property =
    | X | Y | Scale | VectorScale | Rotation | Colour | Alpha | BlendingParameters | FlipH | FlipV

  /** The value-type-free view of a timeline that the aggregates range over. */
  datatype TimelineExtent = TimelineExtent(startTime: real, endTime: real, hasCommands: bool)

  function ExtentOf<T>(t: CommandTimeline<T>): TimelineExtent
  {
    TimelineExtent(t.startTime, t.endTime, t.hasCommands)
  }

  /** The view of the timeline of property `p`. */
  function Extent<V, C, B>(g: CommandTimelineGroup<V, C, B>, p: Property): TimelineExtent
  {
    match p
    case X => ExtentOf(g.x)
    case Y => ExtentOf(g.y)
    case Scale => ExtentOf(g.scale)
    case VectorScale => ExtentOf(g.vectorScale)
    case Rotation => ExtentOf(g.rotation)
    case Colour => ExtentOf(g.colour)
    case Alpha => ExtentOf(g.alpha)
    case BlendingParameters => ExtentOf(g.blendingParameters)
    case FlipH => ExtentOf(g.flipH)
    case FlipV => ExtentOf(g.flipV)
  }

  /** The order in which the group registers its timelines. */
  const Registered: seq<Property> :=
    [X, Y, Scale, VectorScale, Rotation, Colour, Alpha, BlendingParameters, FlipH, FlipV]

  /** Every property is registered, exactly once. */
  lemma RegisteredOnce()
    ensures |Registered| == 10
    ensures forall p :: p in Registered
    ensures forall i, j :: 0 <= i < j < |Registered| ==> Registered[i] != Registered[j]
  {
    forall p ensures p in Registered {
      match p
      case X => assert Registered[0] == p;
      case Y => assert Registered[1] == p;
      case Scale => assert Registered[2] == p;
      case VectorScale => assert Registered[3] == p;
      case Rotation => assert Registered[4] == p;
      case Colour => assert Registered[5] == p;
      case Alpha => assert Registered[6] == p;
      case BlendingParameters => assert Registered[7] == p;
      case FlipH => assert Registered[8] == p;
      case FlipV => assert Registered[9] == p;
    }
  }

  /**
   * The array of timelines the group aggregates over: the ten timelines in
   * registration order, all of them and nothing else. The array is read from
   * the group's current timelines, which agrees with the array filled at
   * construction as long as no timeline field is replaced afterwards.
   */
  function Timelines<V, C, B>(g: CommandTimelineGroup<V, C, B>): (ts: seq<TimelineExtent>)
    ensures |ts| == |Registered|
    ensures forall i :: 0 <= i < |ts| ==> ts[i] == Extent(g, Registered[i])
    ensures forall p :: Extent(g, p) in ts
    ensures forall t :: t in ts ==> exists p :: t == Extent(g, p)
  {
    [ExtentOf(g.x), ExtentOf(g.y), ExtentOf(g.scale), ExtentOf(g.vectorScale),
     ExtentOf(g.rotation), ExtentOf(g.colour), ExtentOf(g.alpha),
     ExtentOf(g.blendingParameters), ExtentOf(g.flipH), ExtentOf(g.flipV)]
  }

  /** The least start time of a non-empty list of timelines. */
  function MinStartTime(ts: seq<TimelineExtent>): (r: real)
    requires |ts| > 0
    ensures forall i :: 0 <= i < |ts| ==> r <= ts[i].startTime
    ensures exists i :: 0 <= i < |ts| && r == ts[i].startTime
  {
    if |ts| == 1 then ts[0].startTime
    else
      var rest := MinStartTime(ts[1..]);
      if ts[0].startTime <= rest then ts[0].startTime else rest
  }

  /** The greatest end time of a non-empty list of timelines. */
  function MaxEndTime(ts: seq<TimelineExtent>): (r: real)
    requires |ts| > 0
    ensures forall i :: 0 <= i < |ts| ==> ts[i].endTime <= r
    ensures exists i :: 0 <= i < |ts| && r == ts[i].endTime
  {
    if |ts| == 1 then ts[0].endTime
    else
      var rest := MaxEndTime(ts[1..]);
      if rest <= ts[0].endTime then ts[0].endTime else rest
  }

  /** Whether some timeline of the list has commands. */
  function AnyHasCommands(ts: seq<TimelineExtent>): (r: bool)
    ensures r <==> exists i :: 0 <= i < |ts| && ts[i].hasCommands
  {
    if ts == [] then false else ts[0].hasCommands || AnyHasCommands(ts[1..])
  }

  /** The earliest start time over the ten timelines. */
  function CommandsStartTime<V, C, B>(g: CommandTimelineGroup<V, C, B>): (r: real)
    ensures forall p :: r <= Extent(g, p).startTime
    ensures exists p :: r == Extent(g, p).startTime
  {
    MinStartTime(Timelines(g))
  }

  /** The latest end time over the ten timelines. */
  function CommandsEndTime<V, C, B>(g: CommandTimelineGroup<V, C, B>): (r: real)
    ensures forall p :: Extent(g, p).endTime <= r
    ensures exists p :: r == Extent(g, p).endTime
  {
    MaxEndTime(Timelines(g))
  }

  /** The length of the span from the earliest start to the latest end. */
  function CommandsDuration<V, C, B>(g: CommandTimelineGroup<V, C, B>): (r: real)
    ensures r == CommandsEndTime(g) - CommandsStartTime(g)
    ensures forall p :: Extent(g, p).endTime - Extent(g, p).startTime <= r
  {
    CommandsEndTime(g) - CommandsStartTime(g)
  }

  /** The start time the base group reports: that of its commands. */
  function StartTime<V, C, B>(g: CommandTimelineGroup<V, C, B>): (r: real)
    ensures r == CommandsStartTime(g)
    ensures forall p :: r <= Extent(g, p).startTime
  {
    CommandsStartTime(g)
  }

  /** The end time the base group reports: that of its commands. */
  function EndTime<V, C, B>(g: CommandTimelineGroup<V, C, B>): (r: real)
    ensures r == CommandsEndTime(g)
    ensures forall p :: Extent(g, p).endTime <= r
  {
    CommandsEndTime(g)
  }

  /** Whether any of the ten timelines has commands. */
  function HasCommands<V, C, B>(g: CommandTimelineGroup<V, C, B>): (r: bool)
    ensures r <==> exists p :: Extent(g, p).hasCommands
  {
    AnyHasCommands(Timelines(g))
  }

  /**
   * The commands of the timeline `selector` picks, moved by `offset`: the
   * stored list itself when `offset` is zero, a shifted copy otherwise.
   */
  function GetCommands<V, C, B, T>(
    g: CommandTimelineGroup<V, C, B>,
    selector: CommandTimelineGroup<V, C, B> -> CommandTimeline<T>,
    offset: real): (r: seq<TypedCommand<T>>)
    ensures offset == 0.0 ==> r == selector(g).commands
    ensures |r| == |selector(g).commands|
    ensures forall i :: 0 <= i < |r| ==>
      && r[i].startTime == offset + selector(g).commands[i].startTime
      && r[i].endTime == offset + selector(g).commands[i].endTime
      && r[i].easing == selector(g).commands[i].easing
      && r[i].startValue == selector(g).commands[i].startValue
      && r[i].endValue == selector(g).commands[i].endValue
    ensures r == Shifted(selector(g).commands, offset)
  {
    if offset != 0.0 then
      Shifted(selector(g).commands, offset)
    else
      selector(g).commands
  }

  /** The group's span covers a timeline's span, so it is non-negative as soon as one timeline is well formed. */
  lemma DurationNonNegative<V, C, B>(g: CommandTimelineGroup<V, C, B>, p: Property)
    requires Extent(g, p).startTime <= Extent(g, p).endTime
    ensures CommandsDuration(g) >= 0.0
  {
  }

  /** Retrieving with offset `a` and then shifting by `b` is retrieving with offset `a + b`. */
  lemma GetCommandsThenShift<V, C, B, T>(
    g: CommandTimelineGroup<V, C, B>,
    selector: CommandTimelineGroup<V, C, B> -> CommandTimeline<T>,
    a: real, b: real)
    ensures Shifted(GetCommands(g, selector, a), b) == GetCommands(g, selector, a + b)
  {
  }

  /** Shifting the retrieved commands back by `-offset` gives the stored commands. */
  lemma GetCommandsRoundTrip<V, C, B, T>(
    g: CommandTimelineGroup<V, C, B>,
    selector: CommandTimelineGroup<V, C, B> -> CommandTimeline<T>,
    offset: real)
    ensures Shifted(GetCommands(g, selector, offset), -offset) == selector(g).commands
  {
  }

  /** Retrieval keeps the start-time order of the stored commands. */
  lemma GetCommandsKeepsOrder<V, C, B, T>(
    g: CommandTimelineGroup<V, C, B>,
    selector: CommandTimelineGroup<V, C, B> -> CommandTimeline<T>,
    offset: real)
    requires SortedByStart(selector(g).commands)
    ensures SortedByStart(GetCommands(g, selector, offset))
  {
  }

  /**
   * A worked extent: X spans [0, 100], Alpha spans [50, 300], and the example
   * assumes that every other timeline reports a start and an end within
   * [0, 300].
   */
  lemma ExtentExample<V, C, B>(g: CommandTimelineGroup<V, C, B>)
    requires g.x.startTime == 0.0 && g.x.endTime == 100.0
    requires g.alpha.startTime == 50.0 && g.alpha.endTime == 300.0
    requires forall p :: 0.0 <= Extent(g, p).startTime && Extent(g, p).endTime <= 300.0
    ensures CommandsStartTime(g) == 0.0
    ensures CommandsEndTime(g) == 300.0
    ensures CommandsDuration(g) == 300.0
  {
    assert Extent(g, X).startTime == 0.0;
    assert Extent(g, Alpha).endTime == 300.0;
  }
}
