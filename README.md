# Storyboard command timeline group

A Dafny model of the command timeline group of an osu! storyboard element
(`osu.Game/Storyboards/CommandTimelineGroup.cs`). A group owns ten
per-property command timelines: X, Y, Scale, VectorScale, Rotation, Colour,
Alpha, BlendingParameters, FlipH and FlipV. It registers them, in that order,
in an internal array, filled once at construction. Over that array it
computes the earliest start time, the latest end time, the duration between
them and whether any timeline has commands. It also hands out one property's command list, either as stored or
moved by a time offset into another time base.

The model is pure, as the source is:

- `command_timeline.dfy` (module `CommandTimelines`): a typed command
  (easing, start and end time, start and end value), a timeline record (its
  commands plus its own start time, end time and has-commands flag), and the
  shift of commands by a time offset with its laws (shift by zero is the
  identity, shifts compose, shifting back undoes a shift, order is kept).
- `command_timeline_group.dfy` (module `CommandTimelineGroups`): the group as
  a record of ten timelines, the registered array, the aggregates and
  `GetCommands`.

Modelling choices:

- Timestamps are `real`; float property values (X, Y, Scale, Rotation, Alpha)
  are `real`; the vector, colour and blending value types are the type
  parameters `V`, `C` and `B`, never inspected.
- The selector delegate is a total function from group to timeline.
- A timeline's own start time, end time and has-commands flag are inputs of
  its record. Nothing relates them to its commands, because the timeline class
  that derives them is not part of this model.
- The easing enumeration is not part of this model either. A placeholder
  datatype (linear, or in/out/in-out of a curve) stands in for it; the group
  only copies it.
- Under value semantics the stored timelines cannot be changed by
  `GetCommands`. What the model does state is that the result is the stored
  list shifted by the offset, and that shifting back by the negated offset
  restores the stored list.

## Model

| member | source | states |
|---|---|---|
| `CommandTimelines.ShiftCommand` | osu.Game/Storyboards/CommandTimelineGroup.cs:70-76 | the copy is moved by exactly the offset at both ends, keeps its length `EndTime - StartTime`, and keeps easing, start value and end value |
| `CommandTimelines.Shifted` | osu.Game/Storyboards/CommandTimelineGroup.cs:69-77 | the shifted list has the same length, and element i is element i of the input moved by the offset (order kept) |
| `CommandTimelines.ShiftedByZero` | osu.Game/Storyboards/CommandTimelineGroup.cs:67-80 | shifting by zero yields the input list unchanged, so the zero-offset branch agrees with the shifting branch |
| `CommandTimelines.ShiftedTwice` | osu.Game/Storyboards/CommandTimelineGroup.cs:69-77 | shifting by `a` and then by `b` equals shifting by `a + b` |
| `CommandTimelines.ShiftedRoundTrip` | osu.Game/Storyboards/CommandTimelineGroup.cs:69-77 | shifting by an offset and then by its negation restores the original commands |
| `CommandTimelines.ShiftedKeepsOrder` | osu.Game/Storyboards/CommandTimelineGroup.cs:69-77 | commands sorted by start time stay sorted after a shift |
| `CommandTimelineGroups.RegisteredOnce` | osu.Game/Storyboards/CommandTimelineGroup.cs:32-44 | the registration order lists ten properties, each property appears, and none appears twice |
| `CommandTimelineGroups.Timelines` | osu.Game/Storyboards/CommandTimelineGroup.cs:32-44 | the array holds ten entries in registration order; every property's timeline is in it and nothing else is |
| `CommandTimelineGroups.MinStartTime` | osu.Game/Storyboards/CommandTimelineGroup.cs:48 | the result is at most every entry's start time and equals some entry's start time |
| `CommandTimelineGroups.MaxEndTime` | osu.Game/Storyboards/CommandTimelineGroup.cs:51 | the result is at least every entry's end time and equals some entry's end time |
| `CommandTimelineGroups.AnyHasCommands` | osu.Game/Storyboards/CommandTimelineGroup.cs:63 | true exactly when some entry has commands |
| `CommandTimelineGroups.CommandsStartTime` | osu.Game/Storyboards/CommandTimelineGroup.cs:48 | at most the start time of each of the ten timelines and equal to the start time of one of them |
| `CommandTimelineGroups.CommandsEndTime` | osu.Game/Storyboards/CommandTimelineGroup.cs:51 | at least the end time of each of the ten timelines and equal to the end time of one of them |
| `CommandTimelineGroups.CommandsDuration` | osu.Game/Storyboards/CommandTimelineGroup.cs:54 | end minus start of the group, and at least the span `EndTime - StartTime` of every one of the ten timelines |
| `CommandTimelineGroups.StartTime` | osu.Game/Storyboards/CommandTimelineGroup.cs:57 | the base group reports exactly `CommandsStartTime`, hence a time no later than any timeline's start |
| `CommandTimelineGroups.EndTime` | osu.Game/Storyboards/CommandTimelineGroup.cs:60 | the base group reports exactly `CommandsEndTime`, hence a time no earlier than any timeline's end |
| `CommandTimelineGroups.HasCommands` | osu.Game/Storyboards/CommandTimelineGroup.cs:63 | true if and only if at least one of the ten timelines has commands |
| `CommandTimelineGroups.GetCommands` | osu.Game/Storyboards/CommandTimelineGroup.cs:65-81 | with offset zero the selected timeline's stored list itself; otherwise a list of the same length and order whose element i has start and end time moved by the offset and the same easing, start value and end value; in both cases the stored list shifted by the offset |
| `CommandTimelineGroups.DurationNonNegative` | osu.Game/Storyboards/CommandTimelineGroup.cs:48-54 | the duration is non-negative as soon as one timeline has start time no later than its end time |
| `CommandTimelineGroups.GetCommandsThenShift` | osu.Game/Storyboards/CommandTimelineGroup.cs:65-81 | retrieving with offset `a` and shifting by `b` equals retrieving with offset `a + b` |
| `CommandTimelineGroups.GetCommandsRoundTrip` | osu.Game/Storyboards/CommandTimelineGroup.cs:65-81 | shifting the retrieved commands by the negated offset gives back the stored commands, which the retrieval left as they were |
| `CommandTimelineGroups.GetCommandsKeepsOrder` | osu.Game/Storyboards/CommandTimelineGroup.cs:65-81 | retrieval keeps stored commands sorted by start time |
| `CommandTimelineGroups.ExtentExample` | osu.Game/Storyboards/CommandTimelineGroup.cs:48-54 | with X over [0, 100], Alpha over [50, 300] and every other timeline inside [0, 300], the group starts at 0, ends at 300 and lasts 300 |

## Left out

- The multiplayer room screen (`osu.Game/Screens/OnlinePlay/Match/RoomSubScreen.cs`): user-interface code built on drawables, bindables, dependency injection, dialogs, audio and screen navigation.
- The timeline class itself: evaluation of a property at a time, interpolation, easing curves, and insertion and sorting of commands. Its source is not part of this model.
- How a timeline derives its start time, end time and has-commands flag, and any sentinel values an empty timeline reports. These are inputs of the timeline record.
- Floating-point behaviour of the `double` timestamps (rounding, NaN, infinities): times are exact reals.
- `CommandTimelines.ShiftedTwice`, `CommandTimelines.ShiftedRoundTrip` and the span-keeping ensures of `CommandTimelines.ShiftCommand` hold because times are exact reals; with `double` timestamps `offset + StartTime` rounds (offset 1e20 and start 1.0 give 1e20, and shifting back gives 0.0), so these are laws of the model, not of the program.
- `CommandTimelineGroups.Timelines`: the model reads the array from the group's current ten timelines. The source fills a private read-only array once in the constructor with the objects the public fields then hold, and the fields can be reassigned later; after such a reassignment the source's aggregates still read the old timeline while `GetCommands` reads the new one. The model therefore assumes no timeline field is replaced after construction.
- The easing type: its definition is not part of this model. `CommandTimelines.Easing` (with `Curve`) is a placeholder, not the real enumeration; the group only copies an easing, so no law depends on its layout.
- The concrete vector, colour and blending value types: they are type parameters.
- The JSON serialisation attributes on the aggregate properties: metadata with no behaviour.
- Overrides of the virtual `StartTime`, `EndTime` and `GetCommands` by loop and trigger groups: their source is not part of this model.
- Object identity: the source returns the stored command enumerable itself for offset zero and a lazily built projection otherwise; the model has values only, so aliasing and laziness are not captured.
