# ODK property values, channel registry and CSV replay — a Dafny model

This project models three sequential pieces of the OXYGEN plugin SDK (ODK):

- **`PropertyModel`** (`property.dfy`): the `odk::Property` tagged value.
  A property has a name, a `Type` tag, an enum type (or string format) and
  one payload. The payload is either a string or a typed value. The file
  covers the native-kind-to-tag map `getPropertyTypeFromValue`, the
  constructors and setters, the `cast` / `getValueStrict` / `getValue`
  access rules, the typed getters, and element-wise `ValueList` equality.
  `Property` is copied and compared by value, so it is a datatype, and the
  setters are functions that return the updated property.
  `boost::lexical_cast` is a conversion the caller supplies (`Lexer`). When
  it succeeds, it yields the requested kind. Converting a value to its own
  kind gives the value back.
- **`Channels`** (`channels.dfy`): the framework's `PluginChannel`,
  `PluginTask` and `PluginChannels` classes, with the fields of the header.
  The registry keeps the channel map, the reserved-ID set, the task map and
  its monotone task-ID counter, and the channel-to-task map. It also keeps
  two dirty trackers: a topology flag for channels added, removed or
  reconfigured, and a set of channels whose property values changed.
  Channel setters and task mutators report to the registry through its
  listener callbacks. The setter contracts state which tracker each one
  touches.
- **`Replay`** (`replay.dfy`): the replay example's `ReplayChannel`.
  `update` rebuilds the sample table from the first CSV column and derives
  the range and validity. `process` sends the table cyclically, in
  contiguous chunks, from `m_next_tick` up to the target tick. The parsed
  CSV rows and the target tick are parameters. Each `addSamples` call is
  returned as a `Chunk`.

Doubles are reals compared by equality. Integers carry their C++ widths as
subset types (`int32`, `uint32`, `int64`, `uint64`). The replay values are
finite doubles between `lowest()` and `max()`.

The header declares most `Property` and framework operations without
bodies. Where a body is not shown, the model follows the declaration, its
doc comment and the fields it has to keep (odkfw_channels.h:176-185, with
the comment on `m_channels_dirty` at line 183). Task inputs are a list
(`std::vector<std::uint64_t>`), and `getAffectedTasks` returns a
`std::set`, so its result has no duplicates.

The header does not fix the following; they are choices of this model,
made so that the registry's fields stay consistent with each other:
- `GenerateId` returns the smallest ID not reserved.
- `RemoveChannel` keeps the ID reserved until `ResetUsedIds`. The removed
  channel leaves the owner map, the property-dirty set and the outputs of
  its task, and stops reporting to the registry.
- `RemoveTask` also drops the channel-to-task entries of the task, and the
  task stops reporting.
- `AddTask` and `RemoveTask` leave both dirty trackers alone.

## Model

| member | source | states |
|---|---|---|
| `PropertyModel.Code` | odk/api/inc/odkapi_property_xml.h:144-169 | the enumerator values stay within 0..23, and only `UNKNOWN` is 0 |
| `PropertyModel.CodeInjective` | odk/api/inc/odkapi_property_xml.h:144-169 | distinct enumerators have distinct numeric values |
| `PropertyModel.TypeOfKind` | odk/api/inc/odkapi_property_xml.h:179-196 | every native kind maps to a tag other than `UNKNOWN`; the tag is `STRING` exactly for `std::string` and `const char*` |
| `PropertyModel.Wellformed` | odk/api/inc/odkapi_property_xml.h:554-556 | the invariant of a property: at most one of the string and the typed payload is set, a typed payload is never a string kind, and the tag is the one its kind's overload gives |
| `PropertyModel.TagMapInjectiveExceptStrings` | odk/api/inc/odkapi_property_xml.h:179-196 | two kinds share a tag iff they are equal or both are string kinds, so int, unsigned, int64, uint64, double and bool get distinct tags |
| `PropertyModel.Named` | odk/api/inc/odkapi_property_xml.h:198-199 | a property with only a name is `UNKNOWN`, has no payload and is well formed |
| `PropertyModel.Make` | odk/api/inc/odkapi_property_xml.h:201-215 | the constructor sets the tag from the payload kind; a string value becomes the string payload and any other value is stored unchanged as the typed payload, so the tag agrees with the payload |
| `PropertyModel.MakeText` | odk/api/inc/odkapi_property_xml.h:207 | a string payload under any given tag, with no typed payload |
| `PropertyModel.MakeEnum` | odk/api/inc/odkapi_property_xml.h:206 | an `ENUM` property with the text as string payload and the given enum type |
| `PropertyModel.SetName` | odk/api/inc/odkapi_property_xml.h:295 | only the name changes, and well-formedness is kept |
| `PropertyModel.SetValue` | odk/api/inc/odkapi_property_xml.h:311-474 | after `setValue` the tag is the new value's tag, the given value is the only payload (the string payload for strings, the typed payload otherwise), and the name and enum type are kept |
| `PropertyModel.SetTextValue` | odk/api/inc/odkapi_property_xml.h:486-489 | date, date-time, colour and geo-coordinate setters store a string payload under their tag |
| `PropertyModel.SetEnumValue` | odk/api/inc/odkapi_property_xml.h:419 | the property becomes `ENUM` with the text and enum type, and has no typed payload |
| `PropertyModel.GetEnumValue` | odk/api/inc/odkapi_property_xml.h:421-425 | throws a type mismatch iff the property is not `ENUM`, and otherwise returns the enum text |
| `PropertyModel.GetEnumType` | odk/api/inc/odkapi_property_xml.h:426-430 | throws a type mismatch iff the property is not `ENUM`, and otherwise returns the enum type |
| `PropertyModel.EnumRoundTrip` | odk/api/inc/odkapi_property_xml.h:206-430 | an enum stored by `setEnumValue` or the enum constructor reads back its text and type; after any `setValue` both enum getters throw |
| `PropertyModel.Accepts` | odk/api/inc/odkapi_property_xml.h:330-384 | `getInt64Value` accepts exactly INTEGER and INTEGER64; `getUnsignedInt64Value` accepts exactly UNSIGNED_INTEGER and UNSIGNED_INTEGER64; every other getter accepts only its own tag |
| `PropertyModel.Widen` | odk/api/inc/odkapi_property_xml.h:350-363 | the 64-bit getters widen a 32-bit payload of the same signedness; any other kind change is an unchecked reinterpretation |
| `PropertyModel.Get` | odk/api/inc/odkapi_property_xml.h:329-500 | a typed getter fails with a type mismatch iff the tag is not accepted; a success returns the getter's kind |
| `PropertyModel.AcceptedKind` | odk/api/inc/odkapi_property_xml.h:345-363 | a getter accepts the tag of a non-string kind only if it returns that kind, or if it is a 64-bit integer getter and the kind is the 32-bit integer of the same signedness |
| `PropertyModel.GetTypedPayload` | odk/api/inc/odkapi_property_xml.h:330-384 | on a well-formed property with a typed payload, a getter succeeds iff it accepts the tag, and then returns the (widened) payload |
| `PropertyModel.LexicalCast` | odk/api/inc/odkapi_property_xml.h:239-247 | a lexical conversion either yields the requested kind or fails with the cast error |
| `PropertyModel.Deref` | odk/api/inc/odkapi_property_xml.h:243 | dereferencing the typed payload as T is defined iff the payload is of T's kind |
| `PropertyModel.Cast` | odk/api/inc/odkapi_property_xml.h:231-264 | order of precedence: a BOOLEAN property converts its bool; otherwise the typed payload is returned; otherwise the string is converted; a non-streamable T with no typed payload fails; `cast` never reports a type mismatch |
| `PropertyModel.GetValueStrict` | odk/api/inc/odkapi_property_xml.h:266-274 | fails with a type mismatch iff the tag differs from T's tag, and never returns a value of another kind |
| `PropertyModel.GetValue` | odk/api/inc/odkapi_property_xml.h:276-284 | fails with a type mismatch iff a typed payload exists under another tag; with only a string payload it is `cast` |
| `PropertyModel.AccessorsNeverUnchecked` | odk/api/inc/odkapi_property_xml.h:266-284 | on a well-formed property neither accessor dereferences the payload as another type |
| `PropertyModel.StrictAndLenientAgreeOnTypedPayload` | odk/api/inc/odkapi_property_xml.h:266-284 | with a typed payload, strict and lenient access give the same result, and succeed iff T is the payload's kind |
| `PropertyModel.SetThenGetStrict` | odk/api/inc/odkapi_property_xml.h:266-284 | storing any value other than a `const char*` and reading it back with its own kind, strictly or leniently, returns that value (`lexical_cast` cannot produce a `const char*`) |
| `PropertyModel.StrictRejectsOtherTag` | odk/api/inc/odkapi_property_xml.h:266-284 | reading a stored value as a kind of another tag fails with a type mismatch and never yields a default |
| `PropertyModel.PromotedKind` | odk/api/inc/odkapi_property_xml.h:178-196 | `float` is tagged by the `double` overload and `short`, `signed char` and `uint16_t` by the `int` overload; none of them is a string or bool |
| `PropertyModel.Promote` | odk/api/inc/odkapi_property_xml.h:178-196 | the argument converted to the type of the overload that chose its tag |
| `PropertyModel.MakeTemplateAsWritten` | odk/api/inc/odkapi_property_xml.h:209-215 | the template constructor tags a promoted argument with the promoted type's tag, while the payload keeps the argument's own type |
| `PropertyModel.DerefPromoted` | odk/api/inc/odkapi_property_xml.h:243 | `static_pointer_cast` of a payload holding a `T` that none of the kinds is: undefined behaviour, modelled as the `Unchecked` error on every read |
| `PropertyModel.TemplateCast` | odk/api/inc/odkapi_property_xml.h:231-264 | `cast` on such a property reaches the undefined dereference on every branch: the BOOLEAN branch reads the payload as a bool, and otherwise `m_value` is set, so the string conversion is never reached |
| `PropertyModel.TemplateGetValueStrict` | odk/api/inc/odkapi_property_xml.h:266-274 | on such a property `getValueStrict` throws iff the tag differs, and otherwise reads the payload as another type |
| `PropertyModel.TemplateConstructorMisreads` | odk/api/inc/odkapi_property_xml.h:209-274 | for every promoted argument (such as `1.5f`), reading it back strictly as the tagged type passes the tag check and reinterprets the payload |
| `PropertyModel.MakeTemplate` | odk/api/inc/odkapi_property_xml.h:209-215 | storing the promoted value gives a well-formed property whose tag and payload agree |
| `PropertyModel.TemplateConstructorCorrected` | odk/api/inc/odkapi_property_xml.h:209-284 | with the conversion both accessors read back the promoted value, and the strict accessor never reinterprets the payload |
| `PropertyModel.ValueListEquals` | odk/api/inc/odkapi_property_xml.h:103-120 | equal iff same length and pairwise equal elements, that is iff the lists are equal |
| `PropertyModel.ValueListNotEquals` | odk/api/inc/odkapi_property_xml.h:122-125 | `!=` is exactly the negation of `==` |
| `Channels.Without` | odk/framework/inc/odkfw_channels.h:91 | removing a channel from the outputs keeps every other output, drops every occurrence of it, and changes nothing if it was absent |
| `Channels.PluginChannel.constructor` | odk/framework/inc/odkfw_channels.h:33 | a new channel has the given local ID and listener, no properties and no parent |
| `Channels.PluginChannel.NotifySetupChanged` | odk/framework/inc/odkfw_channels.h:156 | a setup change is reported as `onChannelSetupChanged`: with a listener, only its topology flag is set |
| `Channels.PluginChannel.NotifyPropertyChanged` | odk/framework/inc/odkfw_channels.h:158 | a property change is reported as `onChannelPropertyChanged`: with a listener, only this channel joins its property-dirty set |
| `Channels.PluginChannel.SetSampleFormat` | odk/framework/inc/odkfw_channels.h:39-40 | sets the data format, returns the same channel, marks only the topology dirty, and keeps the registry invariant |
| `Channels.PluginChannel.SetSimpleTimebase` | odk/framework/inc/odkfw_channels.h:42 | sets the timebase, returns the same channel, marks only the topology dirty, and keeps the registry invariant |
| `Channels.PluginChannel.SetDefaultName` | odk/framework/inc/odkfw_channels.h:44 | sets the default name, returns the same channel, marks only the topology dirty, and keeps the registry invariant |
| `Channels.PluginChannel.SetDomain` | odk/framework/inc/odkfw_channels.h:47 | sets the domain, returns the same channel, marks only the topology dirty, and keeps the registry invariant |
| `Channels.PluginChannel.SetDeletable` | odk/framework/inc/odkfw_channels.h:50 | sets the deletable flag, returns the same channel, marks only the topology dirty, and keeps the registry invariant |
| `Channels.PluginChannel.SetLocalParent` | odk/framework/inc/odkfw_channels.h:53 | sets the parent, returns the same channel, marks only the topology dirty, and keeps the registry invariant |
| `Channels.PluginChannel.SetValid` | odk/framework/inc/odkfw_channels.h:55 | sets the valid flag, returns the same channel, marks only the topology dirty, and keeps the registry invariant |
| `Channels.PluginChannel.SetRange` | odk/framework/inc/odkfw_channels.h:56 | sets the range, returns the same channel, and adds only this channel to the property-dirty set; the registry invariant is kept when the registry stores this channel under its ID |
| `Channels.PluginChannel.SetUnit` | odk/framework/inc/odkfw_channels.h:57 | sets the unit, returns the same channel, and adds only this channel to the property-dirty set; the registry invariant is kept when the registry stores this channel under its ID |
| `Channels.PluginChannel.AddProperty` | odk/framework/inc/odkfw_channels.h:59 | appends the named property, returns the same channel, marks the topology dirty, and keeps the registry invariant |
| `Channels.PluginChannel.GetProperty` | odk/framework/inc/odkfw_channels.h:61 | returns the first property registered under the name, or none iff no entry has that name |
| `Channels.PluginChannel.OnPropertyObjectChanged` | odk/framework/inc/odkfw_channels.h:72 | a property object's change reaches the registry as a property change of this channel only; the registry invariant is kept when the registry stores this channel under its ID |
| `Channels.PluginTask.constructor` | odk/framework/inc/odkfw_channels.h:85 | a new task has the given ID, listener and token, no inputs or outputs, and is valid |
| `Channels.PluginTask.ClearAllInputChannels` | odk/framework/inc/odkfw_channels.h:87 | empties the inputs, changes no other field of the task, reports a topology change to the listener, and keeps the registry invariant |
| `Channels.PluginTask.AddInputChannel` | odk/framework/inc/odkfw_channels.h:88 | appends the input ID, changes no other field of the task, reports a topology change to the listener, and keeps the registry invariant |
| `Channels.PluginTask.AddOutputChannel` | odk/framework/inc/odkfw_channels.h:89 | appends the channel and changes no other field of the task; the registry then maps the channel to this task and marks the topology dirty; the registry invariant is kept when task and channel are stored and the channel has no other owner |
| `Channels.PluginTask.RemoveOutputChannel` | odk/framework/inc/odkfw_channels.h:91 | drops every occurrence of the channel from the outputs and changes no other field of the task; the registry then forgets its owner and marks the topology dirty; the registry invariant is kept when the task is stored and owns the channel stored under that ID, if anyone does |
| `Channels.PluginTask.SetValid` | odk/framework/inc/odkfw_channels.h:95-96 | sets the validity flag |
| `Channels.PluginChannels.Valid` | odk/framework/inc/odkfw_channels.h:176-185 | the registry invariant: each channel and task is stored under its own ID and reports here, stored channels are reserved, task IDs are below the counter, the owner map names stored channels and tasks, the property-dirty set holds stored channels, and every task output is a stored channel that the owner map assigns to that task |
| `Channels.PluginChannels.constructor` | odk/framework/inc/odkfw_channels.h:176-185 | an empty registry with the task counter at 0 and nothing dirty |
| `Channels.SmallestUnused` | odk/framework/inc/odkfw_channels.h:166 | returns an ID not in the used set, and every smaller ID is in it |
| `Channels.PluginChannels.GenerateId` | odk/framework/inc/odkfw_channels.h:166-177 | returns the smallest ID not yet reserved and reserves it |
| `Channels.PluginChannels.ResetUsedIds` | odk/framework/inc/odkfw_channels.h:168-177 | afterwards the reserved set is exactly the key set of the channel map |
| `Channels.PluginChannels.AddChannel` | odk/framework/inc/odkfw_channels.h:120-177 | the new channel gets an ID held by no live channel and no reservation, is stored under it, and the topology is dirty |
| `Channels.PluginChannels.RemoveChannel` | odk/framework/inc/odkfw_channels.h:122-185 | the channel stored under the ID leaves the channel map, the channel-to-task map, the property-dirty set and the outputs of every task, and stops reporting to the registry; the topology is dirty; the ID stays reserved; the registry invariant, which ties task outputs and dirty marks to live channels, is kept |
| `Channels.PluginChannels.DetachChannel` | odk/framework/inc/odkfw_channels.h:122 | the object half of removal: the channel and the one stored under its ID stop reporting, and every task's outputs lose the stored channel |
| `Channels.PluginChannels.DetachOutput` | odk/framework/inc/odkfw_channels.h:122 | the channel stored under the ID leaves its owner's outputs, so no task has it as an output, every other output list is unchanged, and the registry invariant holds |
| `Channels.PluginChannels.StopReporting` | odk/framework/inc/odkfw_channels.h:122 | the channel and the one stored under its ID no longer report to the registry, and every other channel still does |
| `Channels.PluginChannels.DropEntries` | odk/framework/inc/odkfw_channels.h:122-185 | the bookkeeping half of removal: the ID leaves both maps and the property-dirty set, and the registry invariant is restored |
| `Channels.PluginChannels.AddTask` | odk/framework/inc/odkfw_channels.h:126-181 | the task gets the counter's value, which no stored task has; the counter grows by one |
| `Channels.PluginChannels.RemoveTask` | odk/framework/inc/odkfw_channels.h:130-182 | the task and its channel-to-task entries are removed, it stops reporting, its inputs, outputs, validity and token are untouched, and the counter is kept so its ID is never reused |
| `Channels.PluginChannels.ForgetTask` | odk/framework/inc/odkfw_channels.h:130-182 | the bookkeeping half of removing a task: the ID leaves the task map, the entries naming it leave the owner map, nothing else changes, and the registry invariant is kept |
| `Channels.PluginChannels.FindTask` | odk/framework/inc/odkfw_channels.h:164 | finds a task iff its ID is stored, and the task found has that ID, which is below the counter |
| `Channels.PluginChannels.GetAffectedTasksByInput` | odk/framework/inc/odkfw_channels.h:142 | the result is exactly the stored tasks listing the ID as an input |
| `Channels.PluginChannels.GetAffectedTasks` | odk/framework/inc/odkfw_channels.h:141 | the result is exactly the tasks that own an addressed channel or list one as an input |
| `Channels.PluginChannels.OnChannelSetupChanged` | odk/framework/inc/odkfw_channels.h:156-184 | sets the topology flag and changes nothing else |
| `Channels.PluginChannels.OnChannelPropertyChanged` | odk/framework/inc/odkfw_channels.h:158-185 | adds the channel to the property-dirty set and leaves the topology flag alone |
| `Channels.PluginChannels.OnTaskChannelAdded` | odk/framework/inc/odkfw_channels.h:160-182 | maps the channel to the task, so each channel has at most one owner, and marks the topology dirty |
| `Channels.PluginChannels.OnTaskChannelRemoved` | odk/framework/inc/odkfw_channels.h:161-182 | removes the channel's owner entry and marks the topology dirty |
| `Channels.PluginChannels.OnTaskInputChannelsChanged` | odk/framework/inc/odkfw_channels.h:162-184 | marks the topology dirty and changes nothing else |
| `Channels.PluginChannels.Synchronize` | odk/framework/inc/odkfw_channels.h:133-185 | reports the topology flag and the property-dirty set, then clears both and nothing else |
| `Replay.SliceIsCyclic` | examples/replay_sync_scalar/odkex_replay_sync_scalar.cpp:190-192 | the slice read from `tick % size` holds the samples of the next ticks from `tick` |
| `Replay.CyclicSplit` | examples/replay_sync_scalar/odkex_replay_sync_scalar.cpp:188-194 | the samples of a tick span split at any point into those of its two parts |
| `Replay.NextChunk` | examples/replay_sync_scalar/odkex_replay_sync_scalar.cpp:190-192 | the next `addSamples` call starts at the current tick, sends a non-empty slice of the table from `tick % size`, never passes the target, and stops only at the target or at the end of the table |
| `Replay.Plan` | examples/replay_sync_scalar/odkex_replay_sync_scalar.cpp:188-194 | the sequence of `addSamples` calls from a tick to the target: empty iff the tick has reached the target, and otherwise the next chunk followed by the plan from where it ends |
| `Replay.EmitChunks` | examples/replay_sync_scalar/odkex_replay_sync_scalar.cpp:185-195 | the chunks are exactly the plan, and each one is the `NextChunk` of its own tick, so each call has size `min(size - idx, target - tick)`; if start < target it ends at target and the chunks send exactly the cyclic table from start to target, each non-empty, in bounds and contiguous; otherwise nothing is sent and the tick is unchanged |
| `Replay.ProcessIsContinuous` | examples/replay_sync_scalar/odkex_replay_sync_scalar.cpp:178-196 | the chunks of two successive `process` calls, the second starting where the first stopped, are together one well-formed replay of the cyclic table over the whole span |
| `Replay.ConcatJoin` | examples/replay_sync_scalar/odkex_replay_sync_scalar.cpp:192 | the samples sent by two chunk lists joined are the samples of the first followed by those of the second |
| `Replay.JoinedChunk` | examples/replay_sync_scalar/odkex_replay_sync_scalar.cpp:188-194 | each chunk of two joined contiguous chunk lists is well formed and starts where the chunks before it end |
| `Replay.JoinWellChunked` | examples/replay_sync_scalar/odkex_replay_sync_scalar.cpp:188-194 | two well-formed chunk lists, the second starting where the first ends, join into one well-formed list |
| `Replay.JoinCyclic` | examples/replay_sync_scalar/odkex_replay_sync_scalar.cpp:188-194 | two chunk lists sending successive spans of the cyclic table send, joined, the whole span |
| `Replay.PlanFollowsNextChunk` | examples/replay_sync_scalar/odkex_replay_sync_scalar.cpp:189-193 | every call of a plan lies before the target and is the `NextChunk` of its own tick: the table from `tick % size`, of size `min(size - idx, target - tick)` |
| `Replay.PlanCovers` | examples/replay_sync_scalar/odkex_replay_sync_scalar.cpp:188-194 | a plan's chunks are well formed and contiguous, and send exactly the cyclic table from the tick to the target |
| `Replay.PlanWellChunked` | examples/replay_sync_scalar/odkex_replay_sync_scalar.cpp:188-194 | every call of a plan is a non-empty in-bounds slice of the table at its tick modulo the size, and starts where the calls before it end |
| `Replay.PlanSends` | examples/replay_sync_scalar/odkex_replay_sync_scalar.cpp:188-194 | a plan sends exactly the table, repeated, from the tick to the target, and nothing when the target is reached |
| `Replay.FirstChunkSends` | examples/replay_sync_scalar/odkex_replay_sync_scalar.cpp:190-192 | the first call of a plan sends the table, repeated, from the current tick |
| `Replay.Entry` | examples/replay_sync_scalar/odkex_replay_sync_scalar.cpp:125-134 | a row with a first column gives that number, and a row without one gives the quiet NaN |
| `Replay.ExtractColumn` | examples/replay_sync_scalar/odkex_replay_sync_scalar.cpp:116-138 | one entry per row (column 0 or NaN); min <= max iff some row has a value; the bounds enclose every value and are attained; otherwise they stay at the sentinels |
| `Replay.ColumnRange` | examples/replay_sync_scalar/odkex_replay_sync_scalar.cpp:127-140 | bounds that enclose every row's first value and are each some row's first value are the least and greatest number of the column, and both occur in it |
| `Replay.Column` | examples/replay_sync_scalar/odkex_replay_sync_scalar.cpp:123-135 | the table has one entry per parsed row |
| `Replay.ReplayChannel.constructor` | examples/replay_sync_scalar/odkex_replay_sync_scalar.cpp:59-68 | a new channel has the replay position at the uint64 maximum and a 1000 Hz rate |
| `Replay.ReplayChannel.Update` | examples/replay_sync_scalar/odkex_replay_sync_scalar.cpp:106-146 | resets the position to the uint64 maximum; rebuilds the table from column 0 (empty when the file cannot be read); sets the range to exactly the smallest and largest value, or to the sentinels when there is none; makes the root channel valid iff some row had a value; sets the timebase; leaves the root's other fields alone; and marks the registry's topology and the root's properties dirty |
| `Replay.ReplayChannel.Setup` | examples/replay_sync_scalar/odkex_replay_sync_scalar.cpp:82-94 | always succeeds; an empty file name changes nothing in the channel, its root or the registry; a non-empty one is stored and runs `update`: the table, the validity, the attained range or the sentinels, the timebase, and no other change to the rate, the root channel or the registry than the topology flag and the root's property mark |
| `Replay.ReplayChannel.PrepareProcessing` | examples/replay_sync_scalar/odkex_replay_sync_scalar.cpp:171-176 | replay starts at the given tick |
| `Replay.ReplayChannel.Process` | examples/replay_sync_scalar/odkex_replay_sync_scalar.cpp:178-196 | needs a non-empty table only when there is something to send; the chunks are the plan from the old position to the target; ends at the target tick having sent the cyclic table from the old position, or sends nothing and keeps the position |

## Left out

- `Channels.PluginChannels.RemoveChannel`: the header does not show `removeChannel` detaching the channel from its listener or from the outputs of its task. The model chooses to, so that a removed channel no longer reports and the registry invariant holds.
- `Channels.PluginTask.AddOutputChannel`: keeps the registry invariant only when the task and the channel are stored in the registry and the channel has no other owner. The source accepts a channel that another task already outputs: both tasks then list it while the owner map names only the last one. The registry operations that require the invariant (`AddChannel`, `RemoveChannel`, `AddTask`, `RemoveTask`, `ResetUsedIds`) do not cover that state.
- `Channels.PluginTask.RemoveOutputChannel`: keeps the registry invariant only when the task owns the channel stored under that ID, if any task does. The source also lets a task that does not own the channel erase the owner's entry; the state that follows is not covered either.
- `Channels.PluginChannel.SetRange`: keeps the registry invariant only for a channel the registry stores. The source also reports a channel that was created with the registry as its listener but never added, which puts into the property-dirty set a channel the registry does not hold.
- `Channels.PluginChannel.SetUnit`: keeps the registry invariant only for a channel the registry stores. The source also reports a channel that was created with the registry as its listener but never added, which puts into the property-dirty set a channel the registry does not hold.
- `Channels.PluginChannel.OnPropertyObjectChanged`: keeps the registry invariant only for a channel the registry stores. The source also reports a channel that was created with the registry as its listener but never added, which puts into the property-dirty set a channel the registry does not hold.
- `PropertyModel.Make`: takes only the exact types of the `getPropertyTypeFromValue` overloads. The template constructor also accepts types that reach an overload only by promotion (`float`, `short`, `char`, `signed char`, `unsigned char`, `uint16_t`); for those it stores a mistagged payload, recorded under Findings. A non-const `char*` (a decayed `char[]` too) also takes the template, since identity beats the qualification conversion to `const char*`: it gets the `STRING` tag over a typed `char*` payload, which the model's well-formedness excludes and which is not modelled.
- XML encoding and decoding of `Property` (`appendTo`, `readFrom`, the `append*Node` / `parse*Node` helpers, `toXMLType`, `fromXMLType`): only declarations exist, and they depend on pugixml. No round trip is claimed.
- `Property::operator==`, `sameValue`, `isValid`, `valueToString`, `getStringValue`, `getStringFormat`, `getNodeName` and `setValue(string, format)`: declared without bodies, and nothing in the header fixes their results.
- `setChannelIDValue` / `getChannelIDValue`: `ChannelID` has no tag overload of its own, and how the value is stored is not visible.
- `PropertyModel.Get`: the typed getters' bodies are not shown. The model reads the typed payload, or converts the string payload. Only the documented tag rule is stated as the source's promise.
- `PropertyModel.LexCastable`: taken to be true for the built-in numeric kinds, bool and strings, and false for the records and lists, none of which declares a stream operator here.
- The constructors and `operator==` of `Scalar`, `Rational`, `DecoratedNumber` and `Range`: modelled as plain records with structural equality. Doubles are reals, so NaN, for which `!=` is true against itself, is not modelled in `ValueList` equality.
- `PluginChannels::pluginMessage`, `setPluginHost`, the host-sending half of `synchronize`, and the telegram handlers `processConfigUpdate`, `processDataFormatChange`, `processInputChannelConfigChange` and `processInputChannelChange`: message dispatch and host I/O over telegram formats that are not part of this model.
- `reset`, `pauseTasks` and `pauseTask`: declared without bodies, and the header gives nothing about their effect on the registry's fields.
- `registerTask` / `unregisterTask`: folded into `AddTask` and `RemoveTask`.
- The task worker (`IfTaskWorker`) and the `IfHost` pointer: capabilities outside the model. `AddTask` takes the token only.
- `m_list_topology`, the channel-info fields not set by the declared setters, and the `ChannelPropertyPtr` objects: a channel's properties are `Property` values; range and unit are fields standing for their property objects.
- `Channels.PluginChannels.AddTask`: requires the task counter to be below 2^64. The source's `uint64_t` counter would wrap after 2^64 tasks.
- `Channels.PluginChannels.GenerateId`: requires that some `uint32` ID is still free. With every ID reserved the search would never end.
- `convertTimeToTickAtOrAfter` / `convertTickToTime`: floating-point `nextafter` arithmetic that reals cannot represent.
- `addSamples`, `addSample`, `getMasterTimestamp`, `sendSyncXMLMessage` and `parseXMLValue`: host messaging. `process` returns its `addSamples` calls as chunks instead.
- The computation of the start tick in `prepareProcessing` and of `target_tick` in `process` from the rate factor: float scaling. Both ticks are parameters.
- `Replay.ReplayChannel.Process`: requires a non-empty table whenever there is something to send. The source does not guard this. When the file cannot be read, `update` leaves `m_values` empty (lines 114 and 119) and marks the channel invalid. `prepareProcessing` then sets `m_next_tick` from the clock, so a `process` call with the clock ahead evaluates `tick % m_values.size()` with a zero divisor (line 190). Whether the host calls `process` on an invalid channel is outside this model.
- CSV file reading (`CSVNumberReader`), `checkCSVFile`, `PropertyList::getString`, translations, QML resources and plugin registration. The parsed rows and the file-name string are parameters, and `None` stands for a file that cannot be opened or parsed.
- `Replay.ReplayChannel.Update`: the `setLive` call on the range property is not modelled. CSV values are finite, so a NaN read from the file is not covered.
- `odkfw_software_channel_plugin.cpp` (host registration and the version check), `odkapi_export_xml.h`, `odkapi_timebase_xml.h`, `odkbase_api_object_ptr.h` and `docs/conf.py`: message formats, reference counting and build configuration.

## Findings

| source | as written | input that shows it | evidently intended | confidence | as-written member | corrected member |
|---|---|---|---|---|---|---|
| odk/api/inc/odkapi_property_xml.h:209-215 | the template constructor takes the tag from `getPropertyTypeFromValue(value)`, which promotes the argument, but stores `std::make_shared<T>(value)` of the unpromoted type | `Property("x", 1.5f)` is tagged `FLOATING_POINT_NUMBER` with a `float` payload; `getValueStrict<double>()` passes the tag check and `static_pointer_cast<double>` reads the float as a double | the payload holds the type its tag names, for example by storing the promoted value | medium, not executed | `PropertyModel.TemplateConstructorMisreads` | `PropertyModel.TemplateConstructorCorrected` |
