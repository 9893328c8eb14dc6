/**
 * TransitionRequestInfo: what a transition player is told about a requested
 * transition (its type, an optional trigger task and an optional remote
 * transition), and its Parcel form: a presence-flag byte, the type, then the
 * optional fields that are present, in order.
 *
 * A Parcel is modelled as a sequence of tagged items; the contents of a
 * written RunningTaskInfo or RemoteTransition are one item each.
 */
module TransitionRequestInfoParcel {
  import opened JavaTypes

  /** ActivityManager.RunningTaskInfo, by identity only. */
  class RunningTaskInfo {
    constructor () {}
  }

  /** RemoteTransition, by identity only. */
  class RemoteTransition {
    constructor () {}
  }

  datatype Item = ByteItem(b: bv8) | IntItem(n: Int32) | TaskItem | RemoteItem

  /** The parcelled content of a TransitionRequestInfo: its type and which optional fields are present. */
  datatype Layout = Layout(transitionType: Int32, hasTriggerTask: bool, hasRemoteTransition: bool)

  const TRIGGER_TASK_BIT: bv8 := 0x2
  const REMOTE_TRANSITION_BIT: bv8 := 0x4

  /** The flag byte written first: bit 0x2 for a trigger task, bit 0x4 for a remote transition, nothing else. */
  function FlagByte(l: Layout): (flg: bv8)
    ensures (flg & TRIGGER_TASK_BIT != 0) <==> l.hasTriggerTask
    ensures (flg & REMOTE_TRANSITION_BIT != 0) <==> l.hasRemoteTransition
    ensures flg & !(TRIGGER_TASK_BIT | REMOTE_TRANSITION_BIT) == 0
  {
    (if l.hasTriggerTask then TRIGGER_TASK_BIT else 0) | (if l.hasRemoteTransition then REMOTE_TRANSITION_BIT else 0)
  }

  /** Everything writeToParcel appends, in order. */
  function Encode(l: Layout): (items: seq<Item>)
    ensures |items| == 2 + (if l.hasTriggerTask then 1 else 0) + (if l.hasRemoteTransition then 1 else 0)
    ensures items[0] == ByteItem(FlagByte(l)) && items[1] == IntItem(l.transitionType)
    ensures l.hasTriggerTask ==> items[2] == TaskItem
    ensures l.hasRemoteTransition ==> items[|items| - 1] == RemoteItem
    ensures TaskItem in items <==> l.hasTriggerTask
    ensures RemoteItem in items <==> l.hasRemoteTransition
  {
    [ByteItem(FlagByte(l)), IntItem(l.transitionType)]
    + (if l.hasTriggerTask then [TaskItem] else [])
    + (if l.hasRemoteTransition then [RemoteItem] else [])
  }

  /**
   * What the Parcel constructor reads from position `pos`: a flag byte, the
   * type, a trigger task if bit 0x2 is set and a remote transition if bit 0x4
   * is set; with the position after the last item read. None when the parcel
   * does not hold those items there.
   */
  function Decode(items: seq<Item>, pos: nat): (r: Option<(Layout, nat)>)
    ensures r.Some? ==> pos + 2 <= r.value.1 <= |items|
    ensures r.Some? ==>
              && items[pos].ByteItem? && items[pos + 1] == IntItem(r.value.0.transitionType)
              && r.value.0.hasTriggerTask == (items[pos].b & TRIGGER_TASK_BIT != 0)
              && r.value.0.hasRemoteTransition == (items[pos].b & REMOTE_TRANSITION_BIT != 0)
              && r.value.1 == pos + 2 + (if r.value.0.hasTriggerTask then 1 else 0)
                              + (if r.value.0.hasRemoteTransition then 1 else 0)
              && items[pos..r.value.1] == Encode(r.value.0)[0 := items[pos]]
  {
    if pos + 2 > |items| || !items[pos].ByteItem? || !items[pos + 1].IntItem? then None
    else
      var flg := items[pos].b;
      var hasTask := flg & TRIGGER_TASK_BIT != 0;
      var hasRemote := flg & REMOTE_TRANSITION_BIT != 0;
      var afterType := pos + 2;
      if hasTask && (afterType >= |items| || items[afterType] != TaskItem) then None
      else
        var afterTask := if hasTask then afterType + 1 else afterType;
        if hasRemote && (afterTask >= |items| || items[afterTask] != RemoteItem) then None
        else Some((Layout(items[pos + 1].n, hasTask, hasRemote), if hasRemote then afterTask + 1 else afterTask))
  }

  /** Reading what was written restores the same content and consumes exactly what was written. */
  lemma DecodeEncode(before: seq<Item>, l: Layout, after: seq<Item>)
    ensures Decode(before + Encode(l) + after, |before|) == Some((l, |before| + |Encode(l)|))
  {
    var items := before + Encode(l) + after;
    var e := Encode(l);
    assert forall k :: 0 <= k < |e| ==> items[|before| + k] == e[k];
    if l.hasTriggerTask && l.hasRemoteTransition {
      assert e[3] == RemoteItem;
    }
  }

  /** The reader looks at bits 0x2 and 0x4 of the flag byte only. */
  lemma DecodeUsesTwoBits(items: seq<Item>, pos: nat, other: bv8)
    requires pos < |items| && items[pos].ByteItem?
    requires other & (TRIGGER_TASK_BIT | REMOTE_TRANSITION_BIT) == items[pos].b & (TRIGGER_TASK_BIT | REMOTE_TRANSITION_BIT)
    ensures Decode(items[pos := ByteItem(other)], pos) == Decode(items, pos)
  {
    var b := items[pos].b;
    BitOfMask(b, other, TRIGGER_TASK_BIT);
    BitOfMask(b, other, REMOTE_TRANSITION_BIT);
  }

  lemma BitOfMask(b: bv8, other: bv8, bit: bv8)
    requires bit == TRIGGER_TASK_BIT || bit == REMOTE_TRANSITION_BIT
    requires other & (TRIGGER_TASK_BIT | REMOTE_TRANSITION_BIT) == b & (TRIGGER_TASK_BIT | REMOTE_TRANSITION_BIT)
    ensures (other & bit != 0) == (b & bit != 0)
  {
  }

  /** android.os.Parcel: a write cursor at the end and a read position. */
  class Parcel {
    var items: seq<Item>
    var readPos: nat

    constructor ()
      ensures items == [] && readPos == 0
    {
      items := [];
      readPos := 0;
    }

    method WriteByte(b: bv8)
      modifies this`items
      ensures items == old(items) + [ByteItem(b)]
    {
      items := items + [ByteItem(b)];
    }

    method WriteInt(n: Int32)
      modifies this`items
      ensures items == old(items) + [IntItem(n)]
    {
      items := items + [IntItem(n)];
    }

    /** readByte: the byte at the read position, which then moves past it; None when no byte is there. */
    method ReadByte() returns (b: Option<bv8>)
      modifies this`readPos
      ensures old(readPos) < |items| && items[old(readPos)].ByteItem? ==>
                b == Some(items[old(readPos)].b) && readPos == old(readPos) + 1
      ensures !(old(readPos) < |items| && items[old(readPos)].ByteItem?) ==> b == None && readPos == old(readPos)
    {
      if readPos < |items| && items[readPos].ByteItem? {
        b := Some(items[readPos].b);
        readPos := readPos + 1;
      } else {
        b := None;
      }
    }

    /** readInt: the int at the read position, which then moves past it; None when no int is there. */
    method ReadInt() returns (n: Option<Int32>)
      modifies this`readPos
      ensures old(readPos) < |items| && items[old(readPos)].IntItem? ==>
                n == Some(items[old(readPos)].n) && readPos == old(readPos) + 1
      ensures !(old(readPos) < |items| && items[old(readPos)].IntItem?) ==> n == None && readPos == old(readPos)
    {
      if readPos < |items| && items[readPos].IntItem? {
        n := Some(items[readPos].n);
        readPos := readPos + 1;
      } else {
        n := None;
      }
    }

    /** readTypedObject(RunningTaskInfo.CREATOR): a new task object; null when no task is there. */
    method ReadTypedTask() returns (task: RunningTaskInfo?)
      modifies this`readPos
      ensures old(readPos) < |items| && items[old(readPos)] == TaskItem ==>
                task != null && fresh(task) && readPos == old(readPos) + 1
      ensures !(old(readPos) < |items| && items[old(readPos)] == TaskItem) ==> task == null && readPos == old(readPos)
    {
      if readPos < |items| && items[readPos] == TaskItem {
        task := new RunningTaskInfo();
        readPos := readPos + 1;
      } else {
        task := null;
      }
    }

    /** readTypedObject(RemoteTransition.CREATOR): a new remote transition; null when none is there. */
    method ReadTypedRemote() returns (remote: RemoteTransition?)
      modifies this`readPos
      ensures old(readPos) < |items| && items[old(readPos)] == RemoteItem ==>
                remote != null && fresh(remote) && readPos == old(readPos) + 1
      ensures !(old(readPos) < |items| && items[old(readPos)] == RemoteItem) ==> remote == null && readPos == old(readPos)
    {
      if readPos < |items| && items[readPos] == RemoteItem {
        remote := new RemoteTransition();
        readPos := readPos + 1;
      } else {
        remote := null;
      }
    }

    method WriteTypedTask(task: RunningTaskInfo)
      modifies this`items
      ensures items == old(items) + [TaskItem]
    {
      items := items + [TaskItem];
    }

    method WriteTypedRemote(remote: RemoteTransition)
      modifies this`items
      ensures items == old(items) + [RemoteItem]
    {
      items := items + [RemoteItem];
    }
  }

  /** The type and the two nullable fields of a transition request. */
  class TransitionRequestInfo {
    const transitionType: Int32
    var triggerTask: RunningTaskInfo?
    var remoteTransition: RemoteTransition?

    constructor (transitionType: Int32, triggerTask: RunningTaskInfo?, remoteTransition: RemoteTransition?)
      ensures this.transitionType == transitionType
      ensures this.triggerTask == triggerTask && this.remoteTransition == remoteTransition
    {
      this.transitionType := transitionType;
      this.triggerTask := triggerTask;
      this.remoteTransition := remoteTransition;
    }

    /** What of this request goes into a parcel. */
    function Content(): Layout
      reads this
    {
      Layout(transitionType, triggerTask != null, remoteTransition != null)
    }

    /** setTriggerTask: sets that field only and returns this request. */
    method SetTriggerTask(value: RunningTaskInfo) returns (r: TransitionRequestInfo)
      modifies this`triggerTask
      ensures r == this && triggerTask == value
      ensures Content() == old(Content()).(hasTriggerTask := true)
    {
      triggerTask := value;
      r := this;
    }

    /** setRemoteTransition: sets that field only and returns this request. */
    method SetRemoteTransition(value: RemoteTransition) returns (r: TransitionRequestInfo)
      modifies this`remoteTransition
      ensures r == this && remoteTransition == value
      ensures Content() == old(Content()).(hasRemoteTransition := true)
    {
      remoteTransition := value;
      r := this;
    }

    /** writeToParcel: appends the flag byte, the type and the present fields. */
    method WriteToParcel(dest: Parcel, flags: Int32)
      modifies dest`items
      ensures dest.items == old(dest.items) + Encode(Content())
    {
      var flg: bv8 := 0;
      if triggerTask != null {
        flg := flg | TRIGGER_TASK_BIT;
      }
      if remoteTransition != null {
        flg := flg | REMOTE_TRANSITION_BIT;
      }
      assert flg == FlagByte(Content());
      dest.WriteByte(flg);
      dest.WriteInt(transitionType);
      if triggerTask != null {
        dest.WriteTypedTask(triggerTask);
      }
      if remoteTransition != null {
        dest.WriteTypedRemote(remoteTransition);
      }
    }

    /**
     * The Parcel constructor: reads the flag byte and the type, then a trigger
     * task when bit 0x2 is set and a remote transition when bit 0x4 is set,
     * as Decode describes; null when the parcel does not hold those items.
     */
    static method FromParcel(source: Parcel) returns (info: TransitionRequestInfo?)
      modifies source`readPos
      ensures info == null <==> Decode(source.items, old(source.readPos)).None?
      ensures info != null ==>
                && fresh(info)
                && info.Content() == Decode(source.items, old(source.readPos)).value.0
                && source.readPos == Decode(source.items, old(source.readPos)).value.1
                && (info.triggerTask != null ==> fresh(info.triggerTask))
                && (info.remoteTransition != null ==> fresh(info.remoteTransition))
    {
      var start := source.readPos;
      var flg := source.ReadByte();
      if flg.None? {
        return null;
      }
      var transitionType := source.ReadInt();
      if transitionType.None? {
        return null;
      }
      var triggerTask: RunningTaskInfo? := null;
      if flg.value & TRIGGER_TASK_BIT != 0 {
        triggerTask := source.ReadTypedTask();
        if triggerTask == null {
          return null;
        }
      }
      var remoteTransition: RemoteTransition? := null;
      if flg.value & REMOTE_TRANSITION_BIT != 0 {
        remoteTransition := source.ReadTypedRemote();
        if remoteTransition == null {
          return null;
        }
      }
      info := new TransitionRequestInfo(transitionType.value, triggerTask, remoteTransition);
    }
  }
}
