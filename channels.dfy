/** The channel and task registry of the ODK framework: `PluginChannel`,
    `PluginTask` and `PluginChannels`.  Channels and tasks report their
    changes to the registry, which keeps the ID bookkeeping and the two-tier
    dirty state (a topology flag and a set of channels whose properties
    changed).  Host messaging is not part of this model. */
module Channels {
  import opened PropertyModel

  /** The sample format part of the channel info: `SampleOccurrence`,
      `SampleFormat` (by their enumerator codes) and the dimension. */
  datatype DataFormat = DataFormat(occurrence: nat, format: nat, dimension: uint32)

  /** The setup part of a channel (`m_channel_info`). */
  datatype ChannelInfo = ChannelInfo(
    defaultName: string,
    domain: string,
    dataFormat: Option<DataFormat>,
    timebase: Option<real>,
    deletable: bool,
    valid: bool)

  /** Removes every occurrence of `x` from `s`, keeping the order of the rest. */
  function Without<T(==)>(s: seq<T>, x: T): (r: seq<T>)
    ensures x !in r
    ensures forall i :: 0 <= i < |r| ==> r[i] in s && r[i] != x
    ensures forall i :: 0 <= i < |s| && s[i] != x ==> s[i] in r
    ensures |r| <= |s|
    ensures x !in s ==> r == s
  {
    if s == [] then []
    else if s[0] == x then Without(s[1..], x)
    else [s[0]] + Without(s[1..], x)
  }

  class PluginChannel {
    const localId: uint32
    var listener: PluginChannels?
    var info: ChannelInfo
    /** The values of the channel's range and unit properties. */
    var range: Range
    var unit: string
    /** `m_properties`: named properties in insertion order. */
    var properties: seq<(string, Property)>
    var localParent: PluginChannel?

    constructor (localId: uint32, listener: PluginChannels?)
      ensures this.localId == localId && this.listener == listener
      ensures properties == [] && localParent == null
      ensures info.dataFormat.None? && info.timebase.None?
    {
      this.localId := localId;
      this.listener := listener;
      info := ChannelInfo("", "", None, None, false, true);
      range := Range(0.0, 0.0, "", "");
      unit := "";
      properties := [];
      localParent := null;
    }

    /** Reports a setup change of this channel to its listener, if any. */
    method NotifySetupChanged()
      modifies listener
      ensures listener != null ==> listener.State() == old(listener.State()).(channelsDirty := true)
      ensures old(listener != null && listener.Valid()) ==> listener.Valid()
    {
      if listener != null {
        listener.OnChannelSetupChanged(this);
      }
    }

    /** Reports a property change of this channel to its listener, if any. */
    method NotifyPropertyChanged(name: string)
      modifies listener
      ensures listener != null ==>
        listener.State() == old(listener.State()).(propertiesDirty := old(listener.propertiesDirty) + {this})
    {
      if listener != null {
        listener.OnChannelPropertyChanged(this, name);
      }
    }

    method SetSampleFormat(occurrence: nat, format: nat, dimension: uint32) returns (r: PluginChannel)
      modifies this, listener
      ensures r == this && listener == old(listener)
      ensures info == old(info).(dataFormat := Some(DataFormat(occurrence, format, dimension)))
      ensures range == old(range) && unit == old(unit)
      ensures properties == old(properties) && localParent == old(localParent)
      ensures listener != null ==> listener.State() == old(listener.State()).(channelsDirty := true)
      ensures old(listener != null && listener.Valid()) ==> listener.Valid()
    {
      info := info.(dataFormat := Some(DataFormat(occurrence, format, dimension)));
      NotifySetupChanged();
      r := this;
    }

    method SetSimpleTimebase(frequency: real) returns (r: PluginChannel)
      modifies this, listener
      ensures r == this && listener == old(listener)
      ensures info == old(info).(timebase := Some(frequency))
      ensures range == old(range) && unit == old(unit)
      ensures properties == old(properties) && localParent == old(localParent)
      ensures listener != null ==> listener.State() == old(listener.State()).(channelsDirty := true)
      ensures old(listener != null && listener.Valid()) ==> listener.Valid()
    {
      info := info.(timebase := Some(frequency));
      NotifySetupChanged();
      r := this;
    }

    method SetDefaultName(name: string) returns (r: PluginChannel)
      modifies this, listener
      ensures r == this && listener == old(listener)
      ensures info == old(info).(defaultName := name)
      ensures range == old(range) && unit == old(unit)
      ensures properties == old(properties) && localParent == old(localParent)
      ensures listener != null ==> listener.State() == old(listener.State()).(channelsDirty := true)
      ensures old(listener != null && listener.Valid()) ==> listener.Valid()
    {
      info := info.(defaultName := name);
      NotifySetupChanged();
      r := this;
    }

    method SetDomain(name: string) returns (r: PluginChannel)
      modifies this, listener
      ensures r == this && listener == old(listener)
      ensures info == old(info).(domain := name)
      ensures range == old(range) && unit == old(unit)
      ensures properties == old(properties) && localParent == old(localParent)
      ensures listener != null ==> listener.State() == old(listener.State()).(channelsDirty := true)
      ensures old(listener != null && listener.Valid()) ==> listener.Valid()
    {
      info := info.(domain := name);
      NotifySetupChanged();
      r := this;
    }

    method SetDeletable(deletable: bool) returns (r: PluginChannel)
      modifies this, listener
      ensures r == this && listener == old(listener)
      ensures info == old(info).(deletable := deletable)
      ensures range == old(range) && unit == old(unit)
      ensures properties == old(properties) && localParent == old(localParent)
      ensures listener != null ==> listener.State() == old(listener.State()).(channelsDirty := true)
      ensures old(listener != null && listener.Valid()) ==> listener.Valid()
    {
      info := info.(deletable := deletable);
      NotifySetupChanged();
      r := this;
    }

    method SetValid(valid: bool) returns (r: PluginChannel)
      modifies this, listener
      ensures r == this && listener == old(listener)
      ensures info == old(info).(valid := valid)
      ensures range == old(range) && unit == old(unit)
      ensures properties == old(properties) && localParent == old(localParent)
      ensures listener != null ==> listener.State() == old(listener.State()).(channelsDirty := true)
      ensures old(listener != null && listener.Valid()) ==> listener.Valid()
    {
      info := info.(valid := valid);
      NotifySetupChanged();
      r := this;
    }

    method SetLocalParent(parent: PluginChannel?) returns (r: PluginChannel)
      modifies this, listener
      ensures r == this && listener == old(listener)
      ensures localParent == parent
      ensures info == old(info) && range == old(range) && unit == old(unit)
      ensures properties == old(properties)
      ensures listener != null ==> listener.State() == old(listener.State()).(channelsDirty := true)
      ensures old(listener != null && listener.Valid()) ==> listener.Valid()
    {
      localParent := parent;
      NotifySetupChanged();
      r := this;
    }

    /** Range and unit live in property objects of the channel, so editing
        them is a property change, not a setup change. */
    method SetRange(range: Range) returns (r: PluginChannel)
      modifies this, listener
      ensures r == this && listener == old(listener)
      ensures this.range == range
      ensures info == old(info) && unit == old(unit)
      ensures properties == old(properties) && localParent == old(localParent)
      ensures listener != null ==>
        listener.State() == old(listener.State()).(propertiesDirty := old(listener.propertiesDirty) + {this})
      ensures old(listener != null && listener.Valid() && listener.Holds(this)) ==> listener.Valid()
    {
      this.range := range;
      NotifyPropertyChanged("Range");
      r := this;
    }

    method SetUnit(unit: string) returns (r: PluginChannel)
      modifies this, listener
      ensures r == this && listener == old(listener)
      ensures this.unit == unit
      ensures info == old(info) && range == old(range)
      ensures properties == old(properties) && localParent == old(localParent)
      ensures listener != null ==>
        listener.State() == old(listener.State()).(propertiesDirty := old(listener.propertiesDirty) + {this})
      ensures old(listener != null && listener.Valid() && listener.Holds(this)) ==> listener.Valid()
    {
      this.unit := unit;
      NotifyPropertyChanged("Unit");
      r := this;
    }

    method AddProperty(name: string, prop: Property) returns (r: PluginChannel)
      modifies this, listener
      ensures r == this && listener == old(listener)
      ensures properties == old(properties) + [(name, prop)]
      ensures info == old(info) && range == old(range) && unit == old(unit)
      ensures localParent == old(localParent)
      ensures listener != null ==> listener.State() == old(listener.State()).(channelsDirty := true)
      ensures old(listener != null && listener.Valid()) ==> listener.Valid()
    {
      properties := properties + [(name, prop)];
      NotifySetupChanged();
      r := this;
    }

    /** `getProperty`: the first property registered under `name`. */
    method GetProperty(name: string) returns (prop: Option<Property>)
      ensures prop.None? <==> forall i :: 0 <= i < |properties| ==> properties[i].0 != name
      ensures prop.Some? ==> exists i :: 0 <= i < |properties| && properties[i] == (name, prop.value)
                                         && forall j :: 0 <= j < i ==> properties[j].0 != name
    {
      var i := 0;
      while i < |properties|
        invariant 0 <= i <= |properties|
        invariant forall j :: 0 <= j < i ==> properties[j].0 != name
      {
        if properties[i].0 == name {
          return Some(properties[i].1);
        }
        i := i + 1;
      }
      return None;
    }

    /** `onChannelPropertyChanged`: one of the channel's property objects
        changed its value; forwarded to the listener as a property change. */
    method OnPropertyObjectChanged(name: string)
      modifies listener
      ensures listener != null ==>
        listener.State() == old(listener.State()).(propertiesDirty := old(listener.propertiesDirty) + {this})
      ensures old(listener != null && listener.Valid() && listener.Holds(this)) ==> listener.Valid()
    {
      NotifyPropertyChanged(name);
    }
  }

  class PluginTask {
    const id: uint64
    var listener: PluginChannels?
    var inputChannels: seq<uint64>
    var outputChannels: seq<PluginChannel>
    var registered: bool
    const token: uint64
    var valid: bool

    constructor (id: uint64, listener: PluginChannels?, token: uint64)
      ensures this.id == id && this.listener == listener && this.token == token
      ensures inputChannels == [] && outputChannels == [] && valid && !registered
    {
      this.id := id;
      this.listener := listener;
      this.token := token;
      inputChannels := [];
      outputChannels := [];
      registered := false;
      valid := true;
    }

    method ClearAllInputChannels()
      modifies this`inputChannels, listener
      ensures inputChannels == [] && listener == old(listener)
      ensures outputChannels == old(outputChannels) && valid == old(valid)
      ensures listener != null ==> listener.State() == old(listener.State()).(channelsDirty := true)
      ensures old(listener != null && listener.Valid()) ==> listener.Valid()
    {
      inputChannels := [];
      if listener != null {
        listener.OnTaskInputChannelsChanged(this);
      }
    }

    method AddInputChannel(channelId: uint64)
      modifies this`inputChannels, listener
      ensures inputChannels == old(inputChannels) + [channelId] && listener == old(listener)
      ensures outputChannels == old(outputChannels) && valid == old(valid)
      ensures listener != null ==> listener.State() == old(listener.State()).(channelsDirty := true)
      ensures old(listener != null && listener.Valid()) ==> listener.Valid()
    {
      inputChannels := inputChannels + [channelId];
      if listener != null {
        listener.OnTaskInputChannelsChanged(this);
      }
    }

    /** Takes `ch` as an output; the listener records the channel as owned by
        this task. */
    method AddOutputChannel(ch: PluginChannel)
      modifies this`outputChannels, listener
      ensures outputChannels == old(outputChannels) + [ch] && listener == old(listener)
      ensures inputChannels == old(inputChannels) && valid == old(valid)
      ensures listener != null ==>
        listener.State() == old(listener.State()).(
          channelToTask := old(listener.channelToTask)[ch.localId := id],
          channelsDirty := true)
      ensures old(listener != null && listener.Valid() && listener.MayTakeOutput(this, ch)) ==> listener.Valid()
    {
      outputChannels := outputChannels + [ch];
      if listener != null {
        listener.OnTaskChannelAdded(this, ch);
      }
    }

    /** Detaches `ch` from the outputs; the channel itself stays registered. */
    method RemoveOutputChannel(ch: PluginChannel)
      modifies this`outputChannels, listener
      ensures outputChannels == Without(old(outputChannels), ch) && listener == old(listener)
      ensures inputChannels == old(inputChannels) && valid == old(valid)
      ensures listener != null ==>
        listener.State() == old(listener.State()).(
          channelToTask := old(listener.channelToTask) - {ch.localId},
          channelsDirty := true)
      ensures old(listener != null && listener.Valid() && listener.MayDropOutput(this, ch)) ==> listener.Valid()
    {
      outputChannels := Without(outputChannels, ch);
      if listener != null {
        listener.OnTaskChannelRemoved(this, ch);
      }
    }

    method SetValid(valid: bool)
      modifies this`valid
      ensures this.valid == valid
    {
      this.valid := valid;
    }
  }

  /** A snapshot of every field of the registry. */
  datatype RegistryState = RegistryState(
    channels: map<uint32, PluginChannel>,
    ids: set<uint32>,
    tasks: map<uint64, PluginTask>,
    nextTaskId: nat,
    channelToTask: map<uint32, uint64>,
    channelsDirty: bool,
    propertiesDirty: set<PluginChannel>)

  class PluginChannels {
    var channels: map<uint32, PluginChannel>
    /** IDs reserved by `GenerateId`; a superset of the live channel IDs. */
    var ids: set<uint32>
    var tasks: map<uint64, PluginTask>
    var nextTaskId: nat
    var channelToTask: map<uint32, uint64>
    /** Channels added, removed or reconfigured. */
    var channelsDirty: bool
    /** Channels whose property values changed. */
    var propertiesDirty: set<PluginChannel>

    ghost function State(): RegistryState
      reads this
    {
      RegistryState(channels, ids, tasks, nextTaskId, channelToTask, channelsDirty, propertiesDirty)
    }

    /** Each channel is stored under its own ID, which is reserved, and
        reports to this registry; each task is stored under its own ID, which
        the counter has passed.  Ownership and dirty marks refer to live
        channels only, and every output of a task is a live channel the
        channel-to-task map assigns to that task. */
    ghost predicate Valid()
      reads this, channels.Values, tasks.Values
    {
      && (forall k :: k in channels ==> channels[k].localId == k && channels[k].listener == this)
      && channels.Keys <= ids
      && (forall k :: k in tasks ==> tasks[k].id == k && k < nextTaskId && tasks[k].listener == this)
      && channelToTask.Keys <= channels.Keys
      && channelToTask.Values <= tasks.Keys
      && (forall c :: c in propertiesDirty ==> c.localId in channels && channels[c.localId] == c)
      && (forall k, c :: k in tasks && c in tasks[k].outputChannels ==>
            && c.localId in channels && channels[c.localId] == c
            && c.localId in channelToTask && channelToTask[c.localId] == k)
    }

    constructor ()
      ensures Valid()
      ensures channels == map[] && ids == {} && tasks == map[] && nextTaskId == 0
      ensures channelToTask == map[] && !channelsDirty && propertiesDirty == {}
    {
      channels := map[];
      ids := {};
      tasks := map[];
      nextTaskId := 0;
      channelToTask := map[];
      channelsDirty := false;
      propertiesDirty := {};
    }

    /** `generateId`: the smallest ID not yet reserved, now reserved. */
    method GenerateId() returns (id: uint32)
      requires exists x: uint32 :: x !in ids
      modifies this`ids
      ensures id !in old(ids) && ids == old(ids) + {id}
      ensures forall j: uint32 :: j < id ==> j in old(ids)
    {
      id := SmallestUnused(ids);
      ids := ids + {id};
    }

    /** `resetUsedIds`: the reservations become exactly the live IDs. */
    method ResetUsedIds()
      requires Valid()
      modifies this`ids
      ensures Valid()
      ensures ids == channels.Keys
    {
      var used: set<uint32> := {};
      var rest := channels.Keys;
      while rest != {}
        invariant used + rest == channels.Keys && used !! rest
        decreases |rest|
      {
        var k :| k in rest;
        used := used + {k};
        rest := rest - {k};
      }
      ids := used;
    }

    /** `addChannel`: a fresh channel under a newly generated ID. */
    method AddChannel() returns (ch: PluginChannel)
      requires Valid()
      requires exists x: uint32 :: x !in ids
      modifies this
      ensures Valid() && fresh(ch)
      ensures ch.localId !in old(ids) && ch.localId !in old(channels)
      ensures channels == old(channels)[ch.localId := ch]
      ensures ids == old(ids) + {ch.localId}
      ensures ch.listener == this && ch.properties == []
      ensures channelsDirty
      ensures tasks == old(tasks) && nextTaskId == old(nextTaskId)
      ensures channelToTask == old(channelToTask) && propertiesDirty == old(propertiesDirty)
    {
      var id := GenerateId();
      ch := new PluginChannel(id, this);
      channels := channels[id := ch];
      channelsDirty := true;
    }

    /** `ch` is the channel stored under its own ID. */
    ghost predicate Holds(ch: PluginChannel)
      reads this
    {
      ch.localId in channels && channels[ch.localId] == ch
    }

    /** `t` is the task stored under its own ID. */
    ghost predicate HoldsTask(t: PluginTask)
      reads this
    {
      t.id in tasks && tasks[t.id] == t
    }

    /** `t` may take `ch` as an output without breaking `Valid`: both are
        stored here and `ch` has no other owner. */
    ghost predicate MayTakeOutput(t: PluginTask, ch: PluginChannel)
      reads this
    {
      HoldsTask(t) && Holds(ch) && (ch.localId in channelToTask ==> channelToTask[ch.localId] == t.id)
    }

    /** `t` may give up `ch` without breaking `Valid`: `t` is stored here
        and, if some task owns a channel under `ch`'s ID, it is `t` and the
        channel is `ch`. */
    ghost predicate MayDropOutput(t: PluginTask, ch: PluginChannel)
      reads this
    {
      HoldsTask(t) && (ch.localId in channelToTask ==> channelToTask[ch.localId] == t.id && Holds(ch))
    }

    /** `Valid` with the channel under `id` detached: it no longer reports
        here and is no task's output, while the maps still hold it. */
    ghost predicate ValidWithout(id: uint32)
      reads this, channels.Values, tasks.Values
    {
      && (forall k :: k in channels ==> channels[k].localId == k)
      && (forall k :: k in channels && k != id ==> channels[k].listener == this)
      && channels.Keys <= ids
      && (forall k :: k in tasks ==> tasks[k].id == k && k < nextTaskId && tasks[k].listener == this)
      && channelToTask.Keys <= channels.Keys
      && channelToTask.Values <= tasks.Keys
      && (forall c :: c in propertiesDirty ==> c.localId in channels && channels[c.localId] == c)
      && (forall k, c :: k in tasks && c in tasks[k].outputChannels ==>
            && c.localId != id
            && c.localId in channels && channels[c.localId] == c
            && c.localId in channelToTask && channelToTask[c.localId] == k)
    }

    /** No task has a channel with ID `id` among its outputs. */
    ghost predicate NoOutput(id: uint32)
      reads this, tasks.Values
    {
      forall k, c :: k in tasks && c in tasks[k].outputChannels ==> c.localId != id
    }

    /** The object half of `removeChannel`: `ch` and the channel stored
        under its ID leave the outputs of every task and stop reporting
        here. */
    method DetachChannel(ch: PluginChannel)
      requires Valid()
      modifies ch`listener, channels.Values`listener, tasks.Values`outputChannels
      ensures ValidWithout(ch.localId)
      ensures ch.listener == null
      ensures ch.localId in channels ==> channels[ch.localId].listener == null
      ensures ch.localId in channels ==>
        forall k :: k in tasks ==> tasks[k].outputChannels == Without(old(tasks[k].outputChannels), channels[ch.localId])
      ensures ch.localId !in channels ==>
        forall k :: k in tasks ==> tasks[k].outputChannels == old(tasks[k].outputChannels)
    {
      DetachOutput(ch.localId);
      StopReporting(ch);
    }

    /** The channel stored under `id` leaves the outputs of its owner, and
        so of every task. */
    method DetachOutput(id: uint32)
      requires Valid()
      modifies tasks.Values`outputChannels
      ensures Valid() && NoOutput(id)
      ensures id in channels ==>
        forall k :: k in tasks ==> tasks[k].outputChannels == Without(old(tasks[k].outputChannels), channels[id])
      ensures id !in channels ==>
        forall k :: k in tasks ==> tasks[k].outputChannels == old(tasks[k].outputChannels)
    {
      if id in channels && id in channelToTask && channelToTask[id] in tasks {
        var owner := tasks[channelToTask[id]];
        owner.outputChannels := Without(owner.outputChannels, channels[id]);
      }
    }

    /** `ch` and the channel stored under its ID stop reporting here. */
    method StopReporting(ch: PluginChannel)
      requires Valid() && NoOutput(ch.localId)
      modifies ch`listener, channels.Values`listener
      ensures ValidWithout(ch.localId)
      ensures ch.listener == null
      ensures ch.localId in channels ==> channels[ch.localId].listener == null
    {
      if ch.localId in channels {
        channels[ch.localId].listener := null;
      }
      ch.listener := null;
    }

    /** `removeChannel`: the channel stored under `ch`'s ID leaves the
        registry, the property-dirty set and the outputs of its owning task,
        and stops reporting to the registry; its ID stays reserved until
        `ResetUsedIds`. */
    method RemoveChannel(ch: PluginChannel)
      requires Valid()
      modifies this, ch`listener, channels.Values`listener, tasks.Values`outputChannels
      ensures Valid()
      ensures channels == old(channels) - {ch.localId}
      ensures ids == old(ids)
      ensures channelToTask == old(channelToTask) - {ch.localId}
      ensures propertiesDirty == set c | c in old(propertiesDirty) && c.localId != ch.localId
      ensures ch !in propertiesDirty
      ensures channelsDirty
      ensures tasks == old(tasks) && nextTaskId == old(nextTaskId)
      ensures ch.listener == null
      ensures ch.localId in old(channels) ==> old(channels)[ch.localId].listener == null
      ensures forall t :: t in tasks.Values ==> ch !in t.outputChannels
      ensures ch.localId in old(channels) ==>
        forall k :: k in tasks ==> tasks[k].outputChannels == Without(old(tasks[k].outputChannels), old(channels)[ch.localId])
      ensures ch.localId !in old(channels) ==>
        forall k :: k in tasks ==> tasks[k].outputChannels == old(tasks[k].outputChannels)
    {
      DetachChannel(ch);
      DropEntries(ch.localId);
    }

    /** The bookkeeping half of `removeChannel`: the ID leaves the channel
        map, the channel-to-task map and the property-dirty set. */
    method DropEntries(id: uint32)
      requires ValidWithout(id)
      modifies this
      ensures Valid()
      ensures channels == old(channels) - {id} && ids == old(ids)
      ensures channelToTask == old(channelToTask) - {id}
      ensures propertiesDirty == set c | c in old(propertiesDirty) && c.localId != id
      ensures channelsDirty
      ensures tasks == old(tasks) && nextTaskId == old(nextTaskId)
    {
      channels := channels - {id};
      channelToTask := channelToTask - {id};
      propertiesDirty := set c | c in propertiesDirty && c.localId != id;
      channelsDirty := true;
    }

    /** `addTask`: a fresh task under the next task ID; IDs only grow. */
    method AddTask(token: uint64) returns (t: PluginTask)
      requires Valid()
      requires nextTaskId < 0x1_0000_0000_0000_0000
      modifies this
      ensures Valid() && fresh(t)
      ensures t.id == old(nextTaskId) && t.id !in old(tasks)
      ensures nextTaskId == old(nextTaskId) + 1
      ensures tasks == old(tasks)[t.id := t]
      ensures t.listener == this && t.token == token && t.registered
      ensures t.inputChannels == [] && t.outputChannels == [] && t.valid
      ensures channels == old(channels) && ids == old(ids) && channelToTask == old(channelToTask)
      ensures channelsDirty == old(channelsDirty) && propertiesDirty == old(propertiesDirty)
    {
      t := new PluginTask(nextTaskId, this, token);
      t.registered := true;
      tasks := tasks[t.id := t];
      nextTaskId := nextTaskId + 1;
    }

    /** `removeTask`: the task leaves the registry together with its
        channel-to-task entries and stops reporting to it.  The counter is
        kept, so the ID is never handed out again. */
    method RemoveTask(t: PluginTask)
      requires Valid()
      modifies this, t`listener, t`registered
      ensures Valid()
      ensures tasks == old(tasks) - {t.id}
      ensures nextTaskId == old(nextTaskId)
      ensures channelToTask == map c | c in old(channelToTask) && old(channelToTask)[c] != t.id :: old(channelToTask)[c]
      ensures t.listener == null && !t.registered
      ensures t.inputChannels == old(t.inputChannels) && t.outputChannels == old(t.outputChannels)
      ensures channels == old(channels) && ids == old(ids)
      ensures channelsDirty == old(channelsDirty) && propertiesDirty == old(propertiesDirty)
    {
      ForgetTask(t.id);
      assert t !in tasks.Values;
      t.listener := null;
      t.registered := false;
    }

    /** The bookkeeping half of `removeTask`: the ID leaves the task map,
        and the channels it owned leave the channel-to-task map. */
    method ForgetTask(id: uint64)
      requires Valid()
      modifies this
      ensures Valid()
      ensures tasks == old(tasks) - {id}
      ensures channelToTask == map c | c in old(channelToTask) && old(channelToTask)[c] != id :: old(channelToTask)[c]
      ensures nextTaskId == old(nextTaskId) && channels == old(channels) && ids == old(ids)
      ensures channelsDirty == old(channelsDirty) && propertiesDirty == old(propertiesDirty)
    {
      channelToTask := map c | c in channelToTask && channelToTask[c] != id :: channelToTask[c];
      tasks := tasks - {id};
      forall v | v in channelToTask.Values
        ensures v in tasks
      {
        var c :| c in channelToTask && channelToTask[c] == v;
      }
    }

    /** `findTask`. */
    function FindTask(id: uint64): (r: Option<PluginTask>)
      requires Valid()
      reads this, channels.Values, tasks.Values
      ensures r.Some? <==> id in tasks
      ensures r.Some? ==> r.value.id == id && id < nextTaskId
    {
      if id in tasks then Some(tasks[id]) else None
    }

    /** `getAffectedTasks(input_channel_id)`: every registered task that
        lists the channel among its inputs. */
    method GetAffectedTasksByInput(inputId: uint64) returns (affected: set<PluginTask>)
      ensures forall t :: t in affected <==> t in tasks.Values && inputId in t.inputChannels
    {
      affected := {};
      var rest := tasks.Keys;
      while rest != {}
        invariant rest <= tasks.Keys
        invariant forall t :: t in affected ==> t in tasks.Values && inputId in t.inputChannels
        invariant forall k :: k in tasks && k !in rest && inputId in tasks[k].inputChannels ==> tasks[k] in affected
        decreases |rest|
      {
        var k :| k in rest;
        if inputId in tasks[k].inputChannels {
          affected := affected + {tasks[k]};
        }
        rest := rest - {k};
      }
    }

    /** Whether a change to channel `c` affects task `t`: `t` owns `c` as an
        output, or lists it as an input. */
    ghost predicate Affects(c: uint32, t: PluginTask)
      reads this, t
    {
      || (c in channelToTask && channelToTask[c] in tasks && tasks[channelToTask[c]] == t)
      || (t in tasks.Values && c in t.inputChannels)
    }

    /** `getAffectedTasks(request)`: the tasks affected by any channel the
        configuration telegram addresses. */
    method GetAffectedTasks(addressed: seq<uint32>) returns (affected: set<PluginTask>)
      ensures forall t :: t in affected <==> exists i :: 0 <= i < |addressed| && Affects(addressed[i], t)
    {
      affected := {};
      var i := 0;
      while i < |addressed|
        invariant 0 <= i <= |addressed|
        invariant forall t :: t in affected <==> exists j :: 0 <= j < i && Affects(addressed[j], t)
      {
        var c := addressed[i];
        var byInput := GetAffectedTasksByInput(c);
        var owner: set<PluginTask> := {};
        if c in channelToTask && channelToTask[c] in tasks {
          owner := {tasks[channelToTask[c]]};
        }
        assert forall t :: t in owner + byInput <==> Affects(c, t);
        affected := affected + owner + byInput;
        i := i + 1;
      }
    }

    /** `onChannelSetupChanged`: a topology change. */
    method OnChannelSetupChanged(ch: PluginChannel)
      modifies this
      ensures State() == old(State()).(channelsDirty := true)
    {
      channelsDirty := true;
    }

    /** `onChannelPropertyChanged`: only the channel is marked, the topology
        flag is left alone. */
    method OnChannelPropertyChanged(ch: PluginChannel, name: string)
      modifies this
      ensures State() == old(State()).(propertiesDirty := old(propertiesDirty) + {ch})
    {
      propertiesDirty := propertiesDirty + {ch};
    }

    /** `onTaskChannelAdded`: the channel now belongs to the task. */
    method OnTaskChannelAdded(t: PluginTask, ch: PluginChannel)
      modifies this
      ensures State() == old(State()).(channelToTask := old(channelToTask)[ch.localId := t.id], channelsDirty := true)
    {
      channelToTask := channelToTask[ch.localId := t.id];
      channelsDirty := true;
    }

    /** `onTaskChannelRemoved`: the channel no longer belongs to a task. */
    method OnTaskChannelRemoved(t: PluginTask, ch: PluginChannel)
      modifies this
      ensures State() == old(State()).(channelToTask := old(channelToTask) - {ch.localId}, channelsDirty := true)
    {
      channelToTask := channelToTask - {ch.localId};
      channelsDirty := true;
    }

    /** `onTaskInputChannelsChanged`: the task wiring is part of the topology. */
    method OnTaskInputChannelsChanged(t: PluginTask)
      modifies this
      ensures State() == old(State()).(channelsDirty := true)
    {
      channelsDirty := true;
    }

    /** The bookkeeping half of `synchronize`: reports whether a topology
        update and which property updates are due, and clears both trackers. */
    method Synchronize() returns (topology: bool, changed: set<PluginChannel>)
      modifies this
      ensures topology == old(channelsDirty) && changed == old(propertiesDirty)
      ensures State() == old(State()).(channelsDirty := false, propertiesDirty := {})
    {
      topology := channelsDirty;
      changed := propertiesDirty;
      channelsDirty := false;
      propertiesDirty := {};
    }
  }

  /** The smallest value not in `used`. */
  method SmallestUnused(used: set<uint32>) returns (id: uint32)
    requires exists x: uint32 :: x !in used
    ensures id !in used
    ensures forall j: uint32 :: j < id ==> j in used
  {
    ghost var free: uint32 :| free !in used;
    var i: int := 0;
    while i in used
      invariant 0 <= i <= free
      invariant forall j: uint32 :: j < i ==> j in used
      decreases free - i
    {
      i := i + 1;
    }
    id := i;
  }
}
