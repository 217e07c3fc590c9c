/**
 * The per-property timeline of a storyboard element, as the command timeline
 * group sees it: an ordered list of typed commands plus the timeline's own
 * start time, end time and has-commands flag.
 *
 * How a timeline derives those three values from its commands is not part of
 * this model, so they are kept as independent inputs of the record.
 */
module CommandTimelines {

  /** The curve family of an easing. */
  datatype Curve = Quad | Cubic | Quart | Quint | Sine | Expo | Circ | Elastic | Back | Bounce

  /** The easing of a command; the group only ever copies it. */
  datatype Easing = Linear | In(curve: Curve) | Out(curve: Curve) | InOut(curve: Curve)

  /** One command: over [startTime, endTime] the property goes from startValue to endValue. */
  datatype TypedCommand<T> = TypedCommand(
    easing: Easing,
    startTime: real,
    endTime: real,
    startValue: T,
    endValue: T)

  /** One property's timeline: its commands and its (externally derived) extent. */
  datatype CommandTimeline<T> = CommandTimeline(
    commands: seq<TypedCommand<T>>,
    startTime: real,
    endTime: real,
    hasCommands: bool)

  /** A copy of `c` moved by `offset` on the time axis. */
  function ShiftCommand<T>(c: TypedCommand<T>, offset: real): (r: TypedCommand<T>)
    ensures r.startTime - c.startTime == offset && r.endTime - c.endTime == offset
    ensures r.endTime - r.startTime == c.endTime - c.startTime
    ensures r.easing == c.easing && r.startValue == c.startValue && r.endValue == c.endValue
  {
    TypedCommand(c.easing, offset + c.startTime, offset + c.endTime, c.startValue, c.endValue)
  }

  /** Every command of `cs` moved by `offset`, in the same order. */
  function Shifted<T>(cs: seq<TypedCommand<T>>, offset: real): (r: seq<TypedCommand<T>>)
    ensures |r| == |cs|
    ensures forall i :: 0 <= i < |cs| ==> r[i] == ShiftCommand(cs[i], offset)
  {
    if cs == [] then [] else [ShiftCommand(cs[0], offset)] + Shifted(cs[1..], offset)
  }

  /** Commands in non-decreasing start-time order. */
  predicate SortedByStart<T>(cs: seq<TypedCommand<T>>)
  {
    forall i, j :: 0 <= i < j < |cs| ==> cs[i].startTime <= cs[j].startTime
  }

  // The laws below follow from the element-wise contract of Shifted.

  /** Shifting by zero gives back the very same commands. */
  lemma ShiftedByZero<T>(cs: seq<TypedCommand<T>>)
    ensures Shifted(cs, 0.0) == cs
  {
  }

  /** Two shifts in a row are one shift by the sum of the offsets. */
  lemma {:induction false} ShiftedTwice<T>(cs: seq<TypedCommand<T>>, a: real, b: real)
    ensures Shifted(Shifted(cs, a), b) == Shifted(cs, a + b)
  {
    var twice, once := Shifted(Shifted(cs, a), b), Shifted(cs, a + b);
    forall i | 0 <= i < |cs| ensures twice[i] == once[i] {
      assert twice[i] == ShiftCommand(ShiftCommand(cs[i], a), b);
    }
  }

  /** Shifting by `offset` and back by `-offset` restores the original commands. */
  lemma ShiftedRoundTrip<T>(cs: seq<TypedCommand<T>>, offset: real)
    ensures Shifted(Shifted(cs, offset), -offset) == cs
  {
    ShiftedTwice(cs, offset, -offset);
    ShiftedByZero(cs);
  }

  /** Shifting keeps the start-time order of the commands. */
  lemma ShiftedKeepsOrder<T>(cs: seq<TypedCommand<T>>, offset: real)
    requires SortedByStart(cs)
    ensures SortedByStart(Shifted(cs, offset))
  {
  }
}
