/**
 * The car volume dialog: loading the volume items of the XML resource with
 * consecutive ranks, choosing the item that represents a volume group, the
 * timeout after which the dialog dismisses itself, the pending SHOW / DISMISS
 * messages of its handler, the displayed line items (one default line, or all
 * groups when expanded), the show / dismiss guards, and how volume-group events
 * of the car audio service update what is displayed.
 */
module CarVolumeDialog {
  import opened Wrappers

  const XML_TAG_VOLUME_ITEMS: string := "carVolumeItems"
  const XML_TAG_VOLUME_ITEM: string := "item"

  /** Integer.MAX_VALUE, the starting rank of getVolumeItemForUsages. */
  const INT_MAX: int := 0x7fff_ffff

  /** The two message kinds of the dialog's handler. */
  const SHOW: int := 1
  const DISMISS: int := 2

  /** Show and dismiss reasons of com.android.systemui.volume.Events. */
  const SHOW_REASON_VOLUME_CHANGED: int := 1
  const DISMISS_REASON_TOUCH_OUTSIDE: int := 1
  const DISMISS_REASON_VOLUME_CONTROLLER: int := 2
  const DISMISS_REASON_TIMEOUT: int := 3

  /** Event-type bits and extra-info values of android.car.media.CarVolumeGroupEvent. */
  const EVENT_TYPE_VOLUME_GAIN_INDEX_CHANGED: bv32 := 1
  const EVENT_TYPE_VOLUME_MAX_INDEX_CHANGED: bv32 := 4
  const EVENT_TYPE_MUTE_CHANGED: bv32 := 8
  const EXTRA_INFO_SHOW_UI: int := 101
  const EXTRA_INFO_VOLUME_INDEX_CHANGED_BY_AUDIO_SYSTEM: int := 104

  /** MotionEvent actions seen by the dialog. */
  const ACTION_OUTSIDE: int := 4
  const ACTION_HOVER_MOVE: int := 7
  const ACTION_HOVER_ENTER: int := 9

  // ---------------------------------------------------------------------------------------------
  // Timeouts
  // ---------------------------------------------------------------------------------------------

  /** The four configured display timeouts, in milliseconds. */
  datatype Timeouts = Timeouts(normal: int, hovering: int, expandedNormal: int, expandedHovering: int)

  /** computeTimeoutH. */
  function ComputeTimeout(t: Timeouts, expanded: bool, hovering: bool): (r: int)
    ensures r == t.normal || r == t.hovering || r == t.expandedNormal || r == t.expandedHovering
    ensures expanded ==> (r == if hovering then t.expandedHovering else t.expandedNormal)
    ensures !expanded ==> (r == if hovering then t.hovering else t.normal)
  {
    if expanded then (if hovering then t.expandedHovering else t.expandedNormal)
    else (if hovering then t.hovering else t.normal)
  }

  // ---------------------------------------------------------------------------------------------
  // Handler messages
  // ---------------------------------------------------------------------------------------------

  /**
   * A message in the handler's queue: its kind, the reason it was posted with
   * (obtainMessage stores it as the message object) and its delay.
   */
  datatype Message = Message(what: int, reason: int, delay: nat)

  /** Handler.removeMessages(what): the pending messages of other kinds, in order. */
  function RemoveMessages(pending: seq<Message>, what: int): (r: seq<Message>)
    ensures forall m :: m in r <==> m in pending && m.what != what
    ensures |r| <= |pending|
    decreases |pending|
  {
    if |pending| == 0 then []
    else if pending[0].what == what then RemoveMessages(pending[1..], what)
    else [pending[0]] + RemoveMessages(pending[1..], what)
  }

  /** The number of pending messages of one kind. */
  function CountMessages(pending: seq<Message>, what: int): nat
    decreases |pending|
  {
    if |pending| == 0 then 0
    else (if pending[0].what == what then 1 else 0) + CountMessages(pending[1..], what)
  }

  lemma {:induction false} CountMessagesAppend(a: seq<Message>, b: seq<Message>, what: int)
    ensures CountMessages(a + b, what) == CountMessages(a, what) + CountMessages(b, what)
    decreases |a|
  {
    if |a| > 0 {
      assert (a + b)[1..] == a[1..] + b;
      CountMessagesAppend(a[1..], b, what);
    } else {
      assert a + b == b;
    }
  }

  lemma {:induction false} CountMessagesAbsent(pending: seq<Message>, what: int)
    requires forall m :: m in pending ==> m.what != what
    ensures CountMessages(pending, what) == 0
    decreases |pending|
  {
    if |pending| > 0 {
      assert pending[0] in pending;
      assert forall m :: m in pending[1..] ==> m in pending;
      CountMessagesAbsent(pending[1..], what);
    }
  }

  /** rescheduleTimeoutH: drop every pending DISMISS, then post DISMISS(TIMEOUT) delayed by the timeout. */
  function Rescheduled(pending: seq<Message>, timeout: nat): seq<Message>
  {
    RemoveMessages(pending, DISMISS) + [Message(DISMISS, DISMISS_REASON_TIMEOUT, timeout)]
  }

  /**
   * After rescheduling exactly one DISMISS is pending, it is the timeout message
   * with the given delay, and every message of another kind is kept.
   */
  lemma RescheduleLeavesOneDismiss(pending: seq<Message>, timeout: nat)
    ensures CountMessages(Rescheduled(pending, timeout), DISMISS) == 1
    ensures forall m :: m in Rescheduled(pending, timeout) && m.what == DISMISS ==>
      m == Message(DISMISS, DISMISS_REASON_TIMEOUT, timeout)
    ensures forall m: Message :: m.what != DISMISS ==> (m in Rescheduled(pending, timeout) <==> m in pending)
  {
    var kept := RemoveMessages(pending, DISMISS);
    CountMessagesAbsent(kept, DISMISS);
    CountMessagesAppend(kept, [Message(DISMISS, DISMISS_REASON_TIMEOUT, timeout)], DISMISS);
    assert CountMessages([Message(DISMISS, DISMISS_REASON_TIMEOUT, timeout)], DISMISS) == 1 by {
      assert [Message(DISMISS, DISMISS_REASON_TIMEOUT, timeout)][1..] == [];
    }
  }

  /** Only SHOW and DISMISS messages are ever posted. */
  predicate OnlyShowAndDismiss(pending: seq<Message>)
  {
    forall m :: m in pending ==> m.what == SHOW || m.what == DISMISS
  }

  /** Removing both kinds from a queue that holds nothing else empties it. */
  lemma RemoveBothEmpties(pending: seq<Message>, first: int, second: int)
    requires OnlyShowAndDismiss(pending)
    requires (first == SHOW && second == DISMISS) || (first == DISMISS && second == SHOW)
    ensures RemoveMessages(RemoveMessages(pending, first), second) == []
  {
  }

  // ---------------------------------------------------------------------------------------------
  // Volume items of the XML resource
  // ---------------------------------------------------------------------------------------------

  /**
   * What the dialog keeps per volume item: its rank, icons, whether it is the
   * default item, the serial number of the line item last created for it (its
   * mCarVolumeItem, None before the first), its progress and its mute state.
   */
  datatype VolumeItem = VolumeItem(rank: int, icon: int, muteIcon: int, defaultItem: bool,
                                   carItem: Option<nat>, progress: int, muted: bool)

  /**
   * A start tag inside the root element of the volume-items resource, in
   * document order: its name and its usage, icon and mute-icon attributes (a
   * missing usage reads as -1, a missing icon as 0).
   */
  datatype XmlRecord = XmlRecord(tag: string, usage: int, icon: int, muteIcon: int)

  /** A record that becomes a volume item (and uses up a rank). */
  predicate Qualifies(r: XmlRecord)
  {
    r.tag == XML_TAG_VOLUME_ITEM && r.usage >= 0
  }

  /** The number of qualifying records. */
  function QualifyingCount(records: seq<XmlRecord>): (n: nat)
    ensures n <= |records|
    decreases |records|
  {
    if |records| == 0 then 0
    else QualifyingCount(records[..|records| - 1]) + (if Qualifies(records[|records| - 1]) then 1 else 0)
  }

  function NewVolumeItem(rank: int, r: XmlRecord): VolumeItem
  {
    VolumeItem(rank, r.icon, r.muteIcon, false, None, 0, false)
  }

  /** The items map after reading the records: each qualifying record is put at its usage with the next rank. */
  function RankedItems(existing: map<int, VolumeItem>, records: seq<XmlRecord>): map<int, VolumeItem>
    decreases |records|
  {
    if |records| == 0 then existing
    else
      var before := records[..|records| - 1];
      var last := records[|records| - 1];
      var m := RankedItems(existing, before);
      if Qualifies(last) then m[last.usage := NewVolumeItem(QualifyingCount(before), last)] else m
  }

  /**
   * loadAudioUsageItems: the document's first start tag must be the root tag,
   * otherwise a RuntimeException; then the records are put into the items map
   * with ranks 0, 1, 2, ... for the qualifying ones.
   */
  method LoadAudioUsageItems(rootTag: Option<string>, records: seq<XmlRecord>, volumeItems: map<int, VolumeItem>)
    returns (r: Result<map<int, VolumeItem>, string>)
    ensures rootTag != Some(XML_TAG_VOLUME_ITEMS) <==> r.Failure?
    ensures r.Success? ==> r.value == RankedItems(volumeItems, records)
  {
    if rootTag != Some(XML_TAG_VOLUME_ITEMS) {
      return Failure("Meta-data does not start with carVolumeItems tag");
    }
    var items := volumeItems;
    var rank := 0;
    var i := 0;
    while i < |records|
      invariant 0 <= i <= |records|
      invariant rank == QualifyingCount(records[..i])
      invariant items == RankedItems(volumeItems, records[..i])
    {
      assert records[..i + 1][..i] == records[..i];
      var record := records[i];
      if record.tag == XML_TAG_VOLUME_ITEM {
        var usage := record.usage;
        if usage >= 0 {
          var volumeItem := VolumeItem(rank, record.icon, record.muteIcon, false, None, 0, false);
          items := items[usage := volumeItem];
          rank := rank + 1;
        }
      }
      i := i + 1;
    }
    assert records[..i] == records;
    return Success(items);
  }

  /** The map holds the earlier entries and exactly the usages of the qualifying records. */
  lemma {:induction false} RankedItemsDomain(existing: map<int, VolumeItem>, records: seq<XmlRecord>, u: int)
    ensures u in RankedItems(existing, records) <==>
      u in existing || exists k :: 0 <= k < |records| && Qualifies(records[k]) && records[k].usage == u
    decreases |records|
  {
    if |records| > 0 {
      var before := records[..|records| - 1];
      RankedItemsDomain(existing, before, u);
      if exists k :: 0 <= k < |records| && Qualifies(records[k]) && records[k].usage == u {
        var k :| 0 <= k < |records| && Qualifies(records[k]) && records[k].usage == u;
        if k < |records| - 1 {
          assert before[k] == records[k];
        }
      }
      if exists k :: 0 <= k < |before| && Qualifies(before[k]) && before[k].usage == u {
        var k :| 0 <= k < |before| && Qualifies(before[k]) && before[k].usage == u;
        assert records[k] == before[k];
      }
    }
  }

  /**
   * The item at a usage comes from the last qualifying record with that usage,
   * and its rank is the number of qualifying records before that one.
   */
  lemma {:induction false} RankedItemsLastRecordWins(existing: map<int, VolumeItem>, records: seq<XmlRecord>, k: int)
    requires 0 <= k < |records| && Qualifies(records[k])
    requires forall j :: k < j < |records| && Qualifies(records[j]) ==> records[j].usage != records[k].usage
    ensures records[k].usage in RankedItems(existing, records)
    ensures RankedItems(existing, records)[records[k].usage] == NewVolumeItem(QualifyingCount(records[..k]), records[k])
    decreases |records|
  {
    var before := records[..|records| - 1];
    if k < |records| - 1 {
      assert before[k] == records[k];
      assert before[..k] == records[..k];
      RankedItemsLastRecordWins(existing, before, k);
    }
  }

  /** A record that does not qualify uses up no rank, and one that qualifies uses exactly one. */
  lemma QualifyingCountStep(records: seq<XmlRecord>, k: int)
    requires 0 <= k < |records|
    ensures QualifyingCount(records[..k + 1]) == QualifyingCount(records[..k]) + if Qualifies(records[k]) then 1 else 0
  {
    assert records[..k + 1][..k] == records[..k];
  }

  /** Ranks grow in document order: a qualifying record ranks below every later record. */
  lemma {:induction false} QualifyingCountIncreases(records: seq<XmlRecord>, i: int, j: int)
    requires 0 <= i < j <= |records| && Qualifies(records[i])
    ensures QualifyingCount(records[..i]) < QualifyingCount(records[..j])
    decreases j - i
  {
    QualifyingCountStep(records, j - 1);
    if i < j - 1 {
      QualifyingCountIncreases(records, i, j - 1);
    }
  }

  /** Every item created from the records has a rank below the number of qualifying records. */
  lemma {:induction false} RankedItemsRanksBounded(records: seq<XmlRecord>, u: int)
    requires u in RankedItems(map[], records)
    ensures 0 <= RankedItems(map[], records)[u].rank < QualifyingCount(records)
    decreases |records|
  {
    var before := records[..|records| - 1];
    var last := records[|records| - 1];
    if !(Qualifies(last) && last.usage == u) {
      RankedItemsRanksBounded(before, u);
    }
  }

  // ---------------------------------------------------------------------------------------------
  // The item representing a volume group
  // ---------------------------------------------------------------------------------------------

  /** The rank a candidate must beat: the current result's, or Integer.MAX_VALUE before the first. */
  function RankToBeat(result: Option<VolumeItem>): int
  {
    if result.Some? then result.value.rank else INT_MAX
  }

  /** The item chosen for the usages: a later item replaces the result only with a strictly smaller rank. */
  function LowestRanked(volumeItems: map<int, VolumeItem>, usages: seq<int>): Option<VolumeItem>
    requires forall i :: 0 <= i < |usages| ==> usages[i] in volumeItems
    decreases |usages|
  {
    if |usages| == 0 then None
    else
      var result := LowestRanked(volumeItems, usages[..|usages| - 1]);
      var candidate := volumeItems[usages[|usages| - 1]];
      if candidate.rank < RankToBeat(result) then Some(candidate) else result
  }

  /**
   * getVolumeItemForUsages. A usage without an item dereferences null in the
   * source, so every usage must have one.
   */
  method GetVolumeItemForUsages(volumeItems: map<int, VolumeItem>, usages: seq<int>) returns (result: Option<VolumeItem>)
    requires forall i :: 0 <= i < |usages| ==> usages[i] in volumeItems
    ensures result == LowestRanked(volumeItems, usages)
  {
    var rank := INT_MAX;
    result := None;
    var i := 0;
    while i < |usages|
      invariant 0 <= i <= |usages|
      invariant result == LowestRanked(volumeItems, usages[..i])
      invariant rank == RankToBeat(result)
    {
      assert usages[..i + 1][..i] == usages[..i];
      var volumeItem := volumeItems[usages[i]];
      if volumeItem.rank < rank {
        rank := volumeItem.rank;
        result := Some(volumeItem);
      }
      i := i + 1;
    }
    assert usages[..i] == usages;
  }

  /**
   * The chosen item is the first one of strictly smallest rank among the usages,
   * at the returned index k; there is none (k is -1) exactly when no rank is
   * below Integer.MAX_VALUE, in particular for no usages.
   */
  lemma {:induction false} LowestRankedIsFirstMinimum(volumeItems: map<int, VolumeItem>, usages: seq<int>)
    returns (k: int)
    requires forall i :: 0 <= i < |usages| ==> usages[i] in volumeItems
    ensures -1 <= k < |usages|
    ensures k == -1 <==> LowestRanked(volumeItems, usages).None?
    ensures k == -1 <==> forall i :: 0 <= i < |usages| ==> volumeItems[usages[i]].rank >= INT_MAX
    ensures k >= 0 ==> LowestRanked(volumeItems, usages) == Some(volumeItems[usages[k]])
    ensures k >= 0 ==> volumeItems[usages[k]].rank < INT_MAX
    ensures k >= 0 ==> forall j :: 0 <= j < |usages| ==> volumeItems[usages[j]].rank >= volumeItems[usages[k]].rank
    ensures k >= 0 ==> forall j :: 0 <= j < k ==> volumeItems[usages[j]].rank > volumeItems[usages[k]].rank
    decreases |usages|
  {
    if |usages| == 0 {
      return -1;
    }
    var n := |usages| - 1;
    var before := usages[..n];
    assert forall i :: 0 <= i < n ==> before[i] == usages[i];
    var k' := LowestRankedIsFirstMinimum(volumeItems, before);
    if volumeItems[usages[n]].rank < RankToBeat(LowestRanked(volumeItems, before)) {
      k := n;
    } else {
      k := k';
    }
  }

  // ---------------------------------------------------------------------------------------------
  // Volume-group events and their zone filter
  // ---------------------------------------------------------------------------------------------

  /** A CarVolumeGroupInfo: its zone, group id, mute state, maximum and current gain index. */
  datatype GroupInfo = GroupInfo(zoneId: int, id: int, muted: bool, maxIndex: int, value: int)

  /** A CarVolumeGroupEvent: its event-type bits, extra infos and group infos. */
  datatype GroupEvent = GroupEvent(eventTypes: bv32, extraInfos: seq<int>, infos: seq<GroupInfo>)

  predicate HasZone(e: GroupEvent, zoneId: int)
  {
    exists i :: 0 <= i < |e.infos| && e.infos[i].zoneId == zoneId
  }

  /** The events having some info in the zone, in their order. */
  function EventsForZone(zoneId: int, events: seq<GroupEvent>): seq<GroupEvent>
    decreases |events|
  {
    if |events| == 0 then []
    else
      var kept := EventsForZone(zoneId, events[..|events| - 1]);
      if HasZone(events[|events| - 1], zoneId) then kept + [events[|events| - 1]] else kept
  }

  /** filterVolumeGroupEventForZoneId: each event is added once, at its first info in the zone. */
  method FilterVolumeGroupEventForZoneId(zoneId: int, volumeGroupEvents: seq<GroupEvent>)
    returns (filteredEvents: seq<GroupEvent>)
    ensures filteredEvents == EventsForZone(zoneId, volumeGroupEvents)
  {
    filteredEvents := [];
    var index := 0;
    while index < |volumeGroupEvents|
      invariant 0 <= index <= |volumeGroupEvents|
      invariant filteredEvents == EventsForZone(zoneId, volumeGroupEvents[..index])
    {
      assert volumeGroupEvents[..index + 1][..index] == volumeGroupEvents[..index];
      var event := volumeGroupEvents[index];
      var infos := event.infos;
      var infoIndex := 0;
      while infoIndex < |infos|
        invariant 0 <= infoIndex <= |infos|
        invariant forall k :: 0 <= k < infoIndex ==> infos[k].zoneId != zoneId
        invariant filteredEvents == EventsForZone(zoneId, volumeGroupEvents[..index])
      {
        if infos[infoIndex].zoneId == zoneId {
          filteredEvents := filteredEvents + [event];
          break;
        }
        infoIndex := infoIndex + 1;
      }
      index := index + 1;
    }
    assert volumeGroupEvents[..index] == volumeGroupEvents;
  }

  /** An event is kept exactly when it is in the list and has some info in the zone. */
  lemma {:induction false} EventsForZoneMembers(zoneId: int, events: seq<GroupEvent>)
    ensures forall e :: e in EventsForZone(zoneId, events) <==> e in events && HasZone(e, zoneId)
    decreases |events|
  {
    if |events| > 0 {
      var before := events[..|events| - 1];
      EventsForZoneMembers(zoneId, before);
      assert events == before + [events[|events| - 1]];
    }
  }

  /** The filter keeps the order: filtering a concatenation concatenates the filtered parts. */
  lemma {:induction false} EventsForZoneAppend(zoneId: int, a: seq<GroupEvent>, b: seq<GroupEvent>)
    ensures EventsForZone(zoneId, a + b) == EventsForZone(zoneId, a) + EventsForZone(zoneId, b)
    decreases |b|
  {
    if |b| > 0 {
      var b' := b[..|b| - 1];
      assert (a + b)[..|a + b| - 1] == a + b';
      assert (a + b)[|a + b| - 1] == b[|b| - 1];
      EventsForZoneAppend(zoneId, a, b');
    } else {
      assert a + b == a;
    }
  }

  /** Each kept event occurs as often as in the input, and a dropped one not at all. */
  lemma {:induction false} EventsForZoneCounts(zoneId: int, events: seq<GroupEvent>, e: GroupEvent)
    ensures multiset(EventsForZone(zoneId, events))[e] == if HasZone(e, zoneId) then multiset(events)[e] else 0
    decreases |events|
  {
    if |events| > 0 {
      var before := events[..|events| - 1];
      EventsForZoneCounts(zoneId, before, e);
      assert events == before + [events[|events| - 1]];
    }
  }

  // ---------------------------------------------------------------------------------------------
  // Line items and the dialog's state
  // ---------------------------------------------------------------------------------------------

  /** A displayed line (CarVolumeItem): its serial number, group, seek-bar maximum and progress, mute state and expand icon. */
  datatype LineItem = LineItem(serial: nat, groupId: int, max: int, progress: int, muted: bool, expandIcon: bool)

  /** What the car audio manager reports for a volume group. */
  datatype GroupAudio = GroupAudio(volume: int, maxVolume: int, muted: bool)

  /** The car audio manager's replies: one entry per volume group, and whether group muting is enabled. */
  datatype AudioManager = AudioManager(groups: seq<GroupAudio>, mutingEnabled: bool)

  /** What the dialog is built with: its timeouts, the audio manager's replies and its audio zone. */
  datatype DialogConfig = DialogConfig(timeouts: Timeouts, audio: AudioManager, audioZoneId: int)

  /** A CarAudioManager.setGroupVolume call. */
  datatype VolumeSet = VolumeSet(zoneId: int, groupId: int, progress: int)

  /**
   * The dialog's mutable state: the hovering, expanded, dismissing and showing
   * flags, whether the expand icon was ever clicked, whether the dismiss
   * animation runs, the available volume items (one per group), the displayed
   * line items, the next line serial, the current and previous group ids, the
   * handler's pending messages and the setGroupVolume calls made.
   */
  datatype DialogState = DialogState(
    hovering: bool, expanded: bool, dismissing: bool, showing: bool,
    expandIconSet: bool, dismissAnimating: bool,
    items: seq<VolumeItem>, lines: seq<LineItem>, nextSerial: nat,
    currentGroup: int, previousGroup: int, pending: seq<Message>, volumeSets: seq<VolumeSet>)

  /**
   * The dialog's invariant: one item per group, the current group is one of
   * them (when there are any), every displayed line belongs to an existing
   * group whose item has a line item, and only SHOW and DISMISS messages are
   * pending.
   */
  predicate WellFormed(c: DialogConfig, s: DialogState)
  {
    && |s.items| == |c.audio.groups|
    && (s.items == [] || 0 <= s.currentGroup < |s.items|)
    && (forall i :: 0 <= i < |s.lines| ==> 0 <= s.lines[i].groupId < |s.items| && s.items[s.lines[i].groupId].carItem.Some?)
    && OnlyShowAndDismiss(s.pending)
  }

  /** The line created by createCarVolumeListItem for group g, from the audio manager's replies. */
  function NewLine(a: AudioManager, g: int, serial: nat, expandIcon: bool): LineItem
    requires 0 <= g < |a.groups|
  {
    LineItem(serial, g, a.groups[g].maxVolume, a.groups[g].volume, a.mutingEnabled && a.groups[g].muted, expandIcon)
  }

  /** addCarVolumeListItem: the group's item now refers to the new line, which is appended. */
  function AddLine(c: DialogConfig, s: DialogState, g: int, expandIcon: bool): DialogState
    requires 0 <= g < |s.items| && g < |c.audio.groups|
  {
    s.(items := s.items[g := s.items[g].(carItem := Some(s.nextSerial), progress := c.audio.groups[g].volume)],
       lines := s.lines + [NewLine(c.audio, g, s.nextSerial, expandIcon)],
       nextSerial := s.nextSerial + 1)
  }

  /** clearAllAndSetupDefaultCarVolumeLineItem. */
  function ClearAllAndSetupDefault(c: DialogConfig, s: DialogState, g: int): DialogState
    requires 0 <= g < |s.items| && g < |c.audio.groups|
  {
    AddLine(c, s.(lines := [], items := s.items[g := s.items[g].(defaultItem := true)]), g, true)
  }

  /** The lines appended by the expansion loop after its first n iterations. */
  function AddGroupsExcept(c: DialogConfig, s: DialogState, current: int, n: nat): (r: DialogState)
    requires n <= |s.items| == |c.audio.groups|
    ensures |r.items| == |s.items|
    ensures r == s.(items := r.items, lines := r.lines, nextSerial := r.nextSerial)
    decreases n
  {
    if n == 0 then s
    else
      var t := AddGroupsExcept(c, s, current, n - 1);
      if n - 1 != current then AddLine(c, t, n - 1, false) else t
  }

  /** The group ids of the groups below n other than the current one, ascending. */
  function ExpansionGroups(n: nat, current: int): (r: seq<int>)
    ensures forall g :: g in r <==> 0 <= g < n && g != current
    ensures forall i, j :: 0 <= i < j < |r| ==> r[i] < r[j]
    ensures |r| == if 0 <= current < n then n - 1 else n
    decreases n
  {
    if n == 0 then []
    else
      var below := ExpansionGroups(n - 1, current);
      assert forall i :: 0 <= i < |below| ==> below[i] in below;
      below + (if n - 1 != current then [n - 1] else [])
  }

  function GroupIds(lines: seq<LineItem>): (r: seq<int>)
    ensures |r| == |lines| && forall i :: 0 <= i < |lines| ==> r[i] == lines[i].groupId
  {
    seq(|lines|, i requires 0 <= i < |lines| => lines[i].groupId)
  }

  /** The default line: exactly one line, of group g, and g's item is the default one and refers to it. */
  lemma ClearAllLeavesDefaultLine(c: DialogConfig, s: DialogState, g: int)
    requires 0 <= g < |s.items| == |c.audio.groups|
    ensures var r := ClearAllAndSetupDefault(c, s, g);
      && r.lines == [NewLine(c.audio, g, s.nextSerial, true)]
      && |r.items| == |s.items| && r.items[g].defaultItem && r.items[g].carItem == Some(s.nextSerial)
      && (forall i :: 0 <= i < |s.items| && i != g ==> r.items[i] == s.items[i])
  {
  }

  lemma GroupIdsAppend(a: seq<LineItem>, b: seq<LineItem>)
    ensures GroupIds(a + b) == GroupIds(a) + GroupIds(b)
  {
  }

  /** The expansion loop appends one line per group ascending, skipping the current one. */
  lemma {:induction false} AddGroupsExceptIds(c: DialogConfig, s: DialogState, current: int, n: nat)
    requires n <= |s.items| == |c.audio.groups|
    ensures GroupIds(AddGroupsExcept(c, s, current, n).lines) == GroupIds(s.lines) + ExpansionGroups(n, current)
    decreases n
  {
    if n > 0 {
      AddGroupsExceptIds(c, s, current, n - 1);
      var t := AddGroupsExcept(c, s, current, n - 1);
      if n - 1 != current {
        GroupIdsAppend(t.lines, [NewLine(c.audio, n - 1, t.nextSerial, false)]);
      }
    }
  }

  /** The expansion loop keeps the existing lines in front and gives the new ones no expand icon. */
  lemma {:induction false} AddGroupsExceptKeepsPrefix(c: DialogConfig, s: DialogState, current: int, n: nat)
    requires n <= |s.items| == |c.audio.groups|
    ensures var r := AddGroupsExcept(c, s, current, n);
      && |s.lines| <= |r.lines| && r.lines[..|s.lines|] == s.lines
      && (forall i :: |s.lines| <= i < |r.lines| ==> !r.lines[i].expandIcon)
    decreases n
  {
    if n > 0 {
      AddGroupsExceptKeepsPrefix(c, s, current, n - 1);
      var t := AddGroupsExcept(c, s, current, n - 1);
      if n - 1 != current {
        var line := NewLine(c.audio, n - 1, t.nextSerial, false);
        var lines := AddLine(c, t, n - 1, false).lines;
        assert lines == t.lines + [line];
        assert lines[..|s.lines|] == t.lines[..|s.lines|];
        assert forall i :: |s.lines| <= i < |t.lines| ==> lines[i] == t.lines[i];
      }
    }
  }

  /**
   * Expanding from the single default line of the current group lists every
   * group exactly once: the current one first, then the others ascending.
   */
  lemma ExpandedListHasEachGroupOnce(c: DialogConfig, s: DialogState)
    requires 0 <= s.currentGroup < |s.items| == |c.audio.groups|
    requires |s.lines| == 1 && s.lines[0].groupId == s.currentGroup
    ensures var ids := GroupIds(AddGroupsExcept(c, s, s.currentGroup, |s.items|).lines);
      && |ids| == |s.items| && ids[0] == s.currentGroup
      && (forall g :: g in ids <==> 0 <= g < |s.items|)
      && (forall i, j :: 0 <= i < j < |ids| ==> ids[i] != ids[j])
  {
    AddGroupsExceptIds(c, s, s.currentGroup, |s.items|);
    var rest := ExpansionGroups(|s.items|, s.currentGroup);
    var ids := GroupIds(AddGroupsExcept(c, s, s.currentGroup, |s.items|).lines);
    assert ids == [s.currentGroup] + rest;
    forall i, j | 0 <= i < j < |ids|
      ensures ids[i] != ids[j]
    {
      if i == 0 {
        assert ids[j] == rest[j - 1];
        assert rest[j - 1] in rest;
      }
    }
  }

  /** Adding a line, or resetting to the default line, keeps the invariant. */
  lemma AddLineKeepsWellFormed(c: DialogConfig, s: DialogState, g: int)
    requires WellFormed(c, s) && 0 <= g < |s.items|
    ensures WellFormed(c, AddLine(c, s, g, false)) && WellFormed(c, AddLine(c, s, g, true))
    ensures WellFormed(c, ClearAllAndSetupDefault(c, s, g))
  {
  }

  /** The expansion loop keeps the invariant. */
  lemma {:induction false} AddGroupsExceptKeepsWellFormed(c: DialogConfig, s: DialogState, current: int, n: nat)
    requires WellFormed(c, s) && n <= |s.items|
    ensures WellFormed(c, AddGroupsExcept(c, s, current, n))
    decreases n
  {
    if n > 0 {
      AddGroupsExceptKeepsWellFormed(c, s, current, n - 1);
      var t := AddGroupsExcept(c, s, current, n - 1);
      if n - 1 != current {
        AddLineKeepsWellFormed(c, t, n - 1);
      }
    }
  }

  // ---------------------------------------------------------------------------------------------
  // Initialisation and the car service's connection
  // ---------------------------------------------------------------------------------------------

  /** The dialog after init, before the car service connects: nothing displayed, every flag clear, one SHOW(VOLUME_CHANGED) posted. */
  function InitialState(): DialogState
  {
    DialogState(false, false, false, false, false, false, [], [], 0, 0, 0, [Message(SHOW, SHOW_REASON_VOLUME_CHANGED, 0)], [])
  }

  /** Every usage of every group has a volume item, and every group's usages choose one. */
  predicate UsagesResolve(volumeItems: map<int, VolumeItem>, groupUsages: seq<seq<int>>)
  {
    && (forall g, i :: 0 <= g < |groupUsages| && 0 <= i < |groupUsages[g]| ==> groupUsages[g][i] in volumeItems)
    && (forall g :: 0 <= g < |groupUsages| ==> LowestRanked(volumeItems, groupUsages[g]).Some?)
  }

  /** The volume item getVolumeItemForUsages chooses for each group's usages. */
  function GroupItems(volumeItems: map<int, VolumeItem>, groupUsages: seq<seq<int>>): (r: seq<VolumeItem>)
    requires UsagesResolve(volumeItems, groupUsages)
    ensures |r| == |groupUsages|
  {
    seq(|groupUsages|, g requires 0 <= g < |groupUsages| => LowestRanked(volumeItems, groupUsages[g]).value)
  }

  /**
   * onConnected's loop after its first n groups: each group's item is
   * appended, and right after group 0's the lines are reset to its default line.
   */
  function Populate(c: DialogConfig, s: DialogState, chosen: seq<VolumeItem>, n: nat): (r: DialogState)
    requires n <= |chosen| && n <= |c.audio.groups|
    ensures |r.items| == |s.items| + n
    ensures r == s.(items := r.items, lines := r.lines, nextSerial := r.nextSerial)
    decreases n
  {
    if n == 0 then s
    else
      var t := Populate(c, s, chosen, n - 1);
      var u := t.(items := t.items + [chosen[n - 1]]);
      if n - 1 == 0 then ClearAllAndSetupDefault(c, u, 0) else u
  }

  /** onConnected, given the item chosen for each of the zone's volume groups. */
  function AfterConnected(c: DialogConfig, s: DialogState, chosen: seq<VolumeItem>): DialogState
    requires |chosen| == |c.audio.groups|
  {
    Populate(c, s.(expanded := false), chosen, |chosen|)
  }

  /** Populating an empty list: group 0's item is the default one and has the only line; the others are appended as chosen. */
  lemma {:induction false} PopulateFromEmpty(c: DialogConfig, s: DialogState, chosen: seq<VolumeItem>, n: nat)
    requires s.items == [] && 1 <= n <= |chosen| && n <= |c.audio.groups|
    ensures var r := Populate(c, s, chosen, n);
      && r.lines == [NewLine(c.audio, 0, s.nextSerial, true)] && r.nextSerial == s.nextSerial + 1
      && r.items == [chosen[0].(defaultItem := true, carItem := Some(s.nextSerial), progress := c.audio.groups[0].volume)]
                    + chosen[1..n]
    decreases n
  {
    if n > 1 {
      PopulateFromEmpty(c, s, chosen, n - 1);
      assert chosen[1..n] == chosen[1..n - 1] + [chosen[n - 1]];
    }
  }

  /**
   * Once connected the dialog is collapsed; with at least one volume group it
   * shows exactly group 0's default line, group 0's item is the default one and
   * refers to that line, and every other group's item is the one chosen for it;
   * nothing else changes.
   */
  lemma ConnectedShowsDefaultLine(c: DialogConfig, s: DialogState, chosen: seq<VolumeItem>)
    requires s.items == [] && |chosen| == |c.audio.groups|
    ensures var r := AfterConnected(c, s, chosen);
      && r == s.(expanded := false, items := r.items, lines := r.lines, nextSerial := r.nextSerial)
      && |r.items| == |chosen|
      && (|chosen| == 0 ==> r == s.(expanded := false))
      && (|chosen| > 0 ==>
            && r.lines == [NewLine(c.audio, 0, s.nextSerial, true)] && r.nextSerial == s.nextSerial + 1
            && r.items[0] == chosen[0].(defaultItem := true, carItem := Some(s.nextSerial), progress := c.audio.groups[0].volume)
            && r.items[1..] == chosen[1..])
  {
    if |chosen| > 0 {
      PopulateFromEmpty(c, s.(expanded := false), chosen, |chosen|);
    }
  }

  /** Connecting a dialog that has no items and no lines yet establishes the invariant. */
  lemma ConnectedIsWellFormed(c: DialogConfig, s: DialogState, chosen: seq<VolumeItem>)
    requires s.items == [] && s.lines == [] && s.currentGroup == 0 && OnlyShowAndDismiss(s.pending)
    requires |chosen| == |c.audio.groups|
    ensures WellFormed(c, AfterConnected(c, s, chosen))
  {
    ConnectedShowsDefaultLine(c, s, chosen);
  }

  /** Expanding the freshly connected dialog lists every volume group exactly once, group 0 first. */
  lemma ConnectedDialogExpandsToEachGroupOnce(c: DialogConfig, chosen: seq<VolumeItem>)
    requires 0 < |chosen| == |c.audio.groups|
    ensures var ids := GroupIds(AfterToggleExpansion(c, AfterConnected(c, InitialState(), chosen)).lines);
      && |ids| == |chosen| && ids[0] == 0
      && (forall g :: g in ids <==> 0 <= g < |chosen|)
      && (forall i, j :: 0 <= i < j < |ids| ==> ids[i] != ids[j])
  {
    var r := AfterConnected(c, InitialState(), chosen);
    ConnectedShowsDefaultLine(c, InitialState(), chosen);
    ExpandedListHasEachGroupOnce(c, r.(expanded := true));
  }

  // ---------------------------------------------------------------------------------------------
  // Transitions
  // ---------------------------------------------------------------------------------------------

  /** rescheduleTimeoutH. */
  function AfterReschedule(c: DialogConfig, s: DialogState): DialogState
  {
    var timeout := ComputeTimeout(c.timeouts, s.expanded, s.hovering);
    s.(pending := Rescheduled(s.pending, if timeout < 0 then 0 else timeout))
  }

  /** Where showH rebuilds the line items (and so reads the current group's item). */
  predicate ShowHRebuilds(s: DialogState)
  {
    !s.showing || (s.previousGroup != s.currentGroup && !s.expanded)
  }

  /** showH. */
  function AfterShowH(c: DialogConfig, s: DialogState): DialogState
    requires |s.items| == |c.audio.groups|
    requires ShowHRebuilds(s) ==> 0 <= s.currentGroup < |s.items|
  {
    var t := AfterReschedule(c, s.(pending := RemoveMessages(RemoveMessages(s.pending, SHOW), DISMISS)));
    if t.showing then
      if t.previousGroup == t.currentGroup || t.expanded then t
      else ClearAllAndSetupDefault(c, t, t.currentGroup)
    else ClearAllAndSetupDefault(c, t, t.currentGroup).(dismissing := false, showing := true)
  }

  /** dismissH: the dismiss animation starts (and sets dismissing) only on a showing, not yet dismissing dialog. */
  function AfterDismissH(s: DialogState): DialogState
  {
    var t := s.(pending := RemoveMessages(RemoveMessages(s.pending, DISMISS), SHOW));
    if !t.showing || t.dismissing then t else t.(dismissing := true, dismissAnimating := true)
  }

  /** toggleDialogExpansion. */
  function AfterToggleExpansion(c: DialogConfig, s: DialogState): DialogState
    requires |s.items| == |c.audio.groups|
    requires s.expanded ==> 0 <= s.currentGroup < |s.items|
  {
    var t := s.(expanded := !s.expanded);
    if t.expanded then AddGroupsExcept(c, t, t.currentGroup, |t.items|)
    else ClearAllAndSetupDefault(c, t, t.currentGroup)
  }

  /** The expand icon's click: toggle, then reschedule the timeout. */
  function AfterExpandIconClick(c: DialogConfig, s: DialogState): DialogState
    requires |s.items| == |c.audio.groups|
    requires s.expanded ==> 0 <= s.currentGroup < |s.items|
  {
    AfterReschedule(c, AfterToggleExpansion(c, s.(expandIconSet := true)))
  }

  /** The end of the dismiss animation, with the delayed dismissal it posts. */
  function AfterDismissAnimationEnd(c: DialogConfig, s: DialogState): DialogState
    requires |s.items| == |c.audio.groups|
    requires s.expandIconSet && s.expanded ==> 0 <= s.currentGroup < |s.items|
  {
    var t := s.(showing := false, dismissing := false, dismissAnimating := false);
    if t.expandIconSet && t.expanded then AfterToggleExpansion(c, t) else t
  }

  /** The list's hover listener. */
  function AfterHover(c: DialogConfig, s: DialogState, action: int): DialogState
  {
    AfterReschedule(c, s.(hovering := action == ACTION_HOVER_ENTER || action == ACTION_HOVER_MOVE))
  }

  /** Whether the dialog's onTouchEvent consumes the event (and posts DISMISS(TOUCH_OUTSIDE)). */
  predicate ConsumesTouch(s: DialogState, action: int)
  {
    s.showing && action == ACTION_OUTSIDE
  }

  predicate HasBit(eventTypes: bv32, bit: bv32)
  {
    eventTypes & bit != 0
  }

  /** Whether any displayed line is of group g. */
  predicate Displays(lines: seq<LineItem>, g: int)
  {
    exists i :: 0 <= i < |lines| && lines[i].groupId == g
  }

  /** Whether the extra infos move the displayed group. */
  predicate ShiftsDisplayedGroup(extraInfos: seq<int>)
  {
    EXTRA_INFO_SHOW_UI in extraInfos || EXTRA_INFO_VOLUME_INDEX_CHANGED_BY_AUDIO_SYSTEM in extraInfos
  }

  /** A line item after an event: each field is replaced only when its event-type bit is set. */
  function UpdatedLine(l: LineItem, eventTypes: bv32, info: GroupInfo): LineItem
  {
    l.(progress := if HasBit(eventTypes, EVENT_TYPE_VOLUME_GAIN_INDEX_CHANGED) then info.value else l.progress,
       muted := if HasBit(eventTypes, EVENT_TYPE_MUTE_CHANGED) then info.muted else l.muted,
       max := if HasBit(eventTypes, EVENT_TYPE_VOLUME_MAX_INDEX_CHANGED) then info.maxIndex else l.max)
  }

  /** A volume item after an event: its progress and mute state follow the same bits. */
  function UpdatedItem(v: VolumeItem, eventTypes: bv32, info: GroupInfo): VolumeItem
  {
    v.(progress := if HasBit(eventTypes, EVENT_TYPE_VOLUME_GAIN_INDEX_CHANGED) then info.value else v.progress,
       muted := if HasBit(eventTypes, EVENT_TYPE_MUTE_CHANGED) then info.muted else v.muted)
  }

  /** The lines with the given serial (the group item's line item) updated. */
  function UpdateLines(lines: seq<LineItem>, serial: nat, eventTypes: bv32, info: GroupInfo): (r: seq<LineItem>)
    ensures |r| == |lines|
    ensures forall i :: 0 <= i < |lines| ==>
      r[i].serial == lines[i].serial && r[i].groupId == lines[i].groupId && r[i].expandIcon == lines[i].expandIcon
  {
    seq(|lines|, i requires 0 <= i < |lines| =>
      if lines[i].serial == serial then UpdatedLine(lines[i], eventTypes, info) else lines[i])
  }

  /** updateVolumePreference. */
  function AfterUpdateVolumePreference(c: DialogConfig, s: DialogState, info: GroupInfo, eventTypes: bv32,
                                       extraInfos: seq<int>): (r: DialogState)
    requires WellFormed(c, s) && 0 <= info.id < |s.items|
    ensures WellFormed(c, r) && |r.items| == |s.items|
    ensures r == s.(items := r.items, lines := r.lines, currentGroup := r.currentGroup,
                    previousGroup := r.previousGroup, pending := r.pending)
  {
    var g := info.id;
    var displayed :=
      if Displays(s.lines, g) then
        var serial := s.items[g].carItem.value;
        s.(items := s.items[g := UpdatedItem(s.items[g], eventTypes, info)],
           lines := UpdateLines(s.lines, serial, eventTypes, info))
      else s;
    if ShiftsDisplayedGroup(extraInfos) then
      displayed.(previousGroup := s.currentGroup, currentGroup := g,
                 pending := s.pending + [Message(SHOW, SHOW_REASON_VOLUME_CHANGED, 0)])
    else displayed
  }

  /** The legacy volume callback: events of another zone, or without an audio manager, are ignored. */
  function AfterUpdateVolumeAndMute(c: DialogConfig, s: DialogState, zoneId: int, info: Option<GroupInfo>,
                                    eventTypes: bv32, extraInfos: seq<int>): DialogState
    requires WellFormed(c, s)
    requires zoneId == c.audioZoneId && info.Some? ==> 0 <= info.value.id < |s.items|
  {
    if zoneId != c.audioZoneId || info.None? then s
    else AfterUpdateVolumePreference(c, s, info.value, eventTypes, extraInfos)
  }

  predicate InfosInRange(e: GroupEvent, n: int)
  {
    forall i :: 0 <= i < |e.infos| ==> 0 <= e.infos[i].id < n
  }

  /** The preference updates for the infos of one event, in order. */
  function ApplyInfos(c: DialogConfig, s: DialogState, infos: seq<GroupInfo>, eventTypes: bv32,
                      extraInfos: seq<int>): (r: DialogState)
    requires WellFormed(c, s)
    requires forall i :: 0 <= i < |infos| ==> 0 <= infos[i].id < |s.items|
    ensures WellFormed(c, r) && |r.items| == |s.items|
    decreases |infos|
  {
    if |infos| == 0 then s
    else
      var t := ApplyInfos(c, s, infos[..|infos| - 1], eventTypes, extraInfos);
      AfterUpdateVolumePreference(c, t, infos[|infos| - 1], eventTypes, extraInfos)
  }

  /** The preference updates for a list of events, in order. */
  function ApplyEvents(c: DialogConfig, s: DialogState, events: seq<GroupEvent>): (r: DialogState)
    requires WellFormed(c, s)
    requires forall k :: 0 <= k < |events| ==> InfosInRange(events[k], |s.items|)
    ensures WellFormed(c, r) && |r.items| == |s.items|
    decreases |events|
  {
    if |events| == 0 then s
    else
      var before := events[..|events| - 1];
      assert forall k :: 0 <= k < |before| ==> before[k] == events[k];
      var t := ApplyEvents(c, s, before);
      var e := events[|events| - 1];
      assert InfosInRange(e, |t.items|);
      ApplyInfos(c, t, e.infos, e.eventTypes, e.extraInfos)
  }

  /** Every event that passes the zone filter has its infos' groups in range. */
  predicate ZoneEventsInRange(zoneId: int, events: seq<GroupEvent>, n: int)
  {
    forall e :: e in events && HasZone(e, zoneId) ==> InfosInRange(e, n)
  }

  /** updateVolumeGroupForEvents: the events of the dialog's zone, each applied with all of its infos. */
  function AfterUpdateVolumeGroupForEvents(c: DialogConfig, s: DialogState, events: seq<GroupEvent>): DialogState
    requires WellFormed(c, s) && ZoneEventsInRange(c.audioZoneId, events, |s.items|)
  {
    EventsForZoneMembers(c.audioZoneId, events);
    var filtered := EventsForZone(c.audioZoneId, events);
    assert forall k :: 0 <= k < |filtered| ==> filtered[k] in filtered;
    ApplyEvents(c, s, filtered)
  }

  /** The lines with the given serial moved to a new progress. */
  function SetLineProgress(lines: seq<LineItem>, serial: nat, progress: int): seq<LineItem>
  {
    seq(|lines|, i requires 0 <= i < |lines| => if lines[i].serial == serial then lines[i].(progress := progress) else lines[i])
  }

  /** onProgressChanged of the listener of the displayed line at lineIndex. */
  function AfterProgressChanged(c: DialogConfig, s: DialogState, lineIndex: int, progress: int, fromUser: bool): DialogState
    requires WellFormed(c, s) && 0 <= lineIndex < |s.lines|
  {
    if !fromUser then s
    else
      var g := s.lines[lineIndex].groupId;
      s.(items := s.items[g := s.items[g].(progress := progress)],
         lines := SetLineProgress(s.lines, s.items[g].carItem.value, progress),
         volumeSets := s.volumeSets + [VolumeSet(c.audioZoneId, g, progress)])
  }

  // ---------------------------------------------------------------------------------------------
  // Properties of the transitions
  // ---------------------------------------------------------------------------------------------

  /** After showH exactly the timeout DISMISS is pending, with the delay of the state it ran in. */
  lemma ShowHLeavesOnlyTimeout(c: DialogConfig, s: DialogState)
    requires WellFormed(c, s) && (ShowHRebuilds(s) ==> 0 <= s.currentGroup < |s.items|)
    ensures var timeout := ComputeTimeout(c.timeouts, s.expanded, s.hovering);
      AfterShowH(c, s).pending == [Message(DISMISS, DISMISS_REASON_TIMEOUT, if timeout < 0 then 0 else timeout)]
  {
    RemoveBothEmpties(s.pending, SHOW, DISMISS);
  }

  /** After dismissH no message is pending. */
  lemma DismissHLeavesNothingPending(s: DialogState)
    requires OnlyShowAndDismiss(s.pending)
    ensures AfterDismissH(s).pending == []
  {
    RemoveBothEmpties(s.pending, DISMISS, SHOW);
  }

  /**
   * showH on a showing dialog whose previous group is the current one, or that
   * is expanded, keeps its lines and items; otherwise the lines are reset to the
   * current group's default line; on a hidden dialog it also clears
   * dismissing and shows the dialog.
   */
  lemma ShowHGuards(c: DialogConfig, s: DialogState)
    requires WellFormed(c, s) && (ShowHRebuilds(s) ==> 0 <= s.currentGroup < |s.items|)
    ensures s.showing && (s.previousGroup == s.currentGroup || s.expanded) ==>
      var r := AfterShowH(c, s);
      r.lines == s.lines && r.items == s.items && r.showing && r.dismissing == s.dismissing
    ensures ShowHRebuilds(s) ==>
      var r := AfterShowH(c, s);
      r.lines == [NewLine(c.audio, s.currentGroup, s.nextSerial, true)] && r.items[s.currentGroup].defaultItem
    ensures !s.showing ==> AfterShowH(c, s).showing && !AfterShowH(c, s).dismissing
    ensures s.showing ==> AfterShowH(c, s).dismissing == s.dismissing
  {
  }

  /** dismissH does nothing but clear the messages on a hidden or already dismissing dialog, else starts dismissing. */
  lemma DismissHGuards(s: DialogState)
    ensures !s.showing || s.dismissing ==>
      AfterDismissH(s) == s.(pending := RemoveMessages(RemoveMessages(s.pending, DISMISS), SHOW))
    ensures s.showing && !s.dismissing ==> AfterDismissH(s).dismissing && AfterDismissH(s).dismissAnimating
  {
  }

  /**
   * toggleDialogExpansion flips expanded; collapsing leaves only the default
   * line of the current group, and expanding from that line lists every group
   * once.
   */
  lemma ToggleExpansionEffect(c: DialogConfig, s: DialogState)
    requires |s.items| == |c.audio.groups| && (s.expanded ==> 0 <= s.currentGroup < |s.items|)
    ensures AfterToggleExpansion(c, s).expanded == !s.expanded
    ensures s.expanded ==> AfterToggleExpansion(c, s).lines == [NewLine(c.audio, s.currentGroup, s.nextSerial, true)]
    ensures !s.expanded && 0 <= s.currentGroup < |s.items| && |s.lines| == 1 && s.lines[0].groupId == s.currentGroup ==>
      var ids := GroupIds(AfterToggleExpansion(c, s).lines);
      |ids| == |s.items| && forall i, j :: 0 <= i < j < |ids| ==> ids[i] != ids[j]
  {
    if !s.expanded && 0 <= s.currentGroup < |s.items| && |s.lines| == 1 && s.lines[0].groupId == s.currentGroup {
      ExpandedListHasEachGroupOnce(c, s.(expanded := true));
    }
  }

  /**
   * updateVolumePreference changes nothing displayed for a group without a
   * displayed line, never changes which lines are displayed, and touches the
   * items of other groups never.
   */
  lemma PreferenceTouchesOnlyDisplayedGroup(c: DialogConfig, s: DialogState, info: GroupInfo, eventTypes: bv32,
                                            extraInfos: seq<int>)
    requires WellFormed(c, s) && 0 <= info.id < |s.items|
    ensures var r := AfterUpdateVolumePreference(c, s, info, eventTypes, extraInfos);
      && (!Displays(s.lines, info.id) ==> r.lines == s.lines && r.items == s.items)
      && GroupIds(r.lines) == GroupIds(s.lines)
      && (forall i :: 0 <= i < |s.items| && i != info.id ==> r.items[i] == s.items[i])
      && r.nextSerial == s.nextSerial && r.showing == s.showing && r.expanded == s.expanded
  {
    var r := AfterUpdateVolumePreference(c, s, info, eventTypes, extraInfos);
    assert GroupIds(r.lines) == GroupIds(s.lines);
  }

  /** Each displayed field changes only when its event-type bit is set, and then takes the event's value. */
  lemma PreferenceFollowsEventBits(c: DialogConfig, s: DialogState, info: GroupInfo, eventTypes: bv32,
                                   extraInfos: seq<int>, i: int)
    requires WellFormed(c, s) && 0 <= info.id < |s.items| && 0 <= i < |s.lines|
    ensures var r := AfterUpdateVolumePreference(c, s, info, eventTypes, extraInfos);
      && (!HasBit(eventTypes, EVENT_TYPE_VOLUME_GAIN_INDEX_CHANGED) ==> r.lines[i].progress == s.lines[i].progress)
      && (!HasBit(eventTypes, EVENT_TYPE_MUTE_CHANGED) ==> r.lines[i].muted == s.lines[i].muted)
      && (!HasBit(eventTypes, EVENT_TYPE_VOLUME_MAX_INDEX_CHANGED) ==> r.lines[i].max == s.lines[i].max)
      && (Displays(s.lines, info.id) && s.lines[i].serial == s.items[info.id].carItem.value ==>
            (HasBit(eventTypes, EVENT_TYPE_VOLUME_GAIN_INDEX_CHANGED) ==> r.lines[i].progress == info.value) &&
            (HasBit(eventTypes, EVENT_TYPE_MUTE_CHANGED) ==> r.lines[i].muted == info.muted) &&
            (HasBit(eventTypes, EVENT_TYPE_VOLUME_MAX_INDEX_CHANGED) ==> r.lines[i].max == info.maxIndex))
      && (s.items[info.id].carItem != Some(s.lines[i].serial) ==> r.lines[i] == s.lines[i])
  {
    var r := AfterUpdateVolumePreference(c, s, info, eventTypes, extraInfos);
    if Displays(s.lines, info.id) {
      var serial := s.items[info.id].carItem.value;
      assert r.lines == UpdateLines(s.lines, serial, eventTypes, info);
      assert r.lines[i] == if s.lines[i].serial == serial then UpdatedLine(s.lines[i], eventTypes, info) else s.lines[i];
    } else {
      assert r.lines == s.lines;
    }
  }

  /** The current and previous groups move, and a SHOW is posted, exactly for the two extra infos. */
  lemma PreferenceShiftsGroupsOnlyOnShowUi(c: DialogConfig, s: DialogState, info: GroupInfo, eventTypes: bv32,
                                           extraInfos: seq<int>)
    requires WellFormed(c, s) && 0 <= info.id < |s.items|
    ensures var r := AfterUpdateVolumePreference(c, s, info, eventTypes, extraInfos);
      if ShiftsDisplayedGroup(extraInfos) then
        r.currentGroup == info.id && r.previousGroup == s.currentGroup &&
        r.pending == s.pending + [Message(SHOW, SHOW_REASON_VOLUME_CHANGED, 0)]
      else
        r.currentGroup == s.currentGroup && r.previousGroup == s.previousGroup && r.pending == s.pending
  {
  }

  /** A user's seek-bar change sets the group's progress and is sent to the audio manager; other changes are ignored. */
  lemma ProgressChangedEffect(c: DialogConfig, s: DialogState, lineIndex: int, progress: int, fromUser: bool)
    requires WellFormed(c, s) && 0 <= lineIndex < |s.lines|
    ensures !fromUser ==> AfterProgressChanged(c, s, lineIndex, progress, fromUser) == s
    ensures fromUser ==>
      var g := s.lines[lineIndex].groupId;
      var r := AfterProgressChanged(c, s, lineIndex, progress, fromUser);
      && r.items[g].progress == progress
      && r.volumeSets == s.volumeSets + [VolumeSet(c.audioZoneId, g, progress)]
      && GroupIds(r.lines) == GroupIds(s.lines)
      && (forall i :: 0 <= i < |s.lines| && s.lines[i].serial == s.items[g].carItem.value ==> r.lines[i].progress == progress)
      && WellFormed(c, r)
  {
  }

  /** Rescheduling keeps the invariant. */
  lemma RescheduleKeepsWellFormed(c: DialogConfig, s: DialogState)
    requires WellFormed(c, s)
    ensures WellFormed(c, AfterReschedule(c, s))
  {
    assert OnlyShowAndDismiss(AfterReschedule(c, s).pending);
  }

  /** dismissH keeps the invariant. */
  lemma DismissHKeepsWellFormed(c: DialogConfig, s: DialogState)
    requires WellFormed(c, s)
    ensures WellFormed(c, AfterDismissH(s))
  {
  }

  /** The hover listener keeps the invariant. */
  lemma HoverKeepsWellFormed(c: DialogConfig, s: DialogState, action: int)
    requires WellFormed(c, s)
    ensures WellFormed(c, AfterHover(c, s, action))
  {
    RescheduleKeepsWellFormed(c, s.(hovering := action == ACTION_HOVER_ENTER || action == ACTION_HOVER_MOVE));
  }

  /** showH keeps the invariant. */
  lemma ShowHKeepsWellFormed(c: DialogConfig, s: DialogState)
    requires WellFormed(c, s) && (ShowHRebuilds(s) ==> 0 <= s.currentGroup < |s.items|)
    ensures WellFormed(c, AfterShowH(c, s))
  {
    var t := AfterReschedule(c, s.(pending := RemoveMessages(RemoveMessages(s.pending, SHOW), DISMISS)));
    assert OnlyShowAndDismiss(t.pending);
    if ShowHRebuilds(s) {
      AddLineKeepsWellFormed(c, t, s.currentGroup);
    }
  }

  /** toggleDialogExpansion keeps the invariant. */
  lemma ToggleKeepsWellFormed(c: DialogConfig, s: DialogState)
    requires WellFormed(c, s) && (s.expanded ==> 0 <= s.currentGroup < |s.items|)
    ensures WellFormed(c, AfterToggleExpansion(c, s))
  {
    var t := s.(expanded := !s.expanded);
    if t.expanded {
      AddGroupsExceptKeepsWellFormed(c, t, t.currentGroup, |t.items|);
    } else {
      AddLineKeepsWellFormed(c, t, t.currentGroup);
    }
  }

  /** The expand icon's click and the end of the dismiss animation keep the invariant. */
  lemma ExpansionEventsKeepWellFormed(c: DialogConfig, s: DialogState)
    requires WellFormed(c, s)
    ensures (s.expanded ==> 0 <= s.currentGroup < |s.items|) ==> WellFormed(c, AfterExpandIconClick(c, s))
    ensures (s.expandIconSet && s.expanded ==> 0 <= s.currentGroup < |s.items|) ==>
      WellFormed(c, AfterDismissAnimationEnd(c, s))
  {
    if s.expanded ==> 0 <= s.currentGroup < |s.items| {
      var u := s.(expandIconSet := true);
      ToggleKeepsWellFormed(c, u);
      RescheduleKeepsWellFormed(c, AfterToggleExpansion(c, u));
    }
    var e := s.(showing := false, dismissing := false, dismissAnimating := false);
    if e.expandIconSet && e.expanded && 0 <= s.currentGroup < |s.items| {
      ToggleKeepsWellFormed(c, e);
    }
  }

  // ---------------------------------------------------------------------------------------------
  // showH's early return
  // ---------------------------------------------------------------------------------------------

  /**
   * showH on a showing, collapsed dialog whose previous group is the current
   * one keeps its line even when that line is of another group: the current
   * group is then not displayed, and expanding lists the displayed group twice
   * and the current group never.
   */
  lemma ShowHKeepsStaleLine(c: DialogConfig, s: DialogState)
    requires WellFormed(c, s) && |s.items| > 0
    requires s.showing && !s.expanded && s.previousGroup == s.currentGroup
    requires |s.lines| == 1 && s.lines[0].groupId != s.currentGroup
    ensures var r := AfterShowH(c, s);
      var ids := GroupIds(AfterToggleExpansion(c, r).lines);
      && r.lines == s.lines && !Displays(r.lines, r.currentGroup)
      && ids == [s.lines[0].groupId] + ExpansionGroups(|s.items|, s.currentGroup)
      && |ids| == |s.items| && ids[0] == s.lines[0].groupId && s.lines[0].groupId in ids[1..]
      && s.currentGroup !in ids
  {
    var r := AfterShowH(c, s);
    AddGroupsExceptIds(c, r.(expanded := true), r.currentGroup, |r.items|);
  }

  /**
   * Two updates that show the UI for a group without a displayed line, handled
   * before the SHOW they post, leave it both the previous and the current
   * group, with the lines, the expansion and the showing flag unchanged.
   */
  lemma ShowUiTwiceForHiddenGroup(c: DialogConfig, s: DialogState, info: GroupInfo, eventTypes: bv32, extraInfos: seq<int>)
    requires WellFormed(c, s) && 0 <= info.id < |s.items| && !Displays(s.lines, info.id)
    requires ShiftsDisplayedGroup(extraInfos)
    ensures var once := AfterUpdateVolumePreference(c, s, info, eventTypes, extraInfos);
      var r := AfterUpdateVolumePreference(c, once, info, eventTypes, extraInfos);
      && r.previousGroup == info.id && r.currentGroup == info.id
      && r.lines == s.lines && r.showing == s.showing && r.expanded == s.expanded && |r.items| == |s.items|
  {
    var once := AfterUpdateVolumePreference(c, s, info, eventTypes, extraInfos);
    assert once.lines == s.lines;
  }

  /** A concrete trace from a freshly connected dialog with three volume groups into the state ShowHKeepsStaleLine describes. */
  lemma StaleLineIsReachable() returns (c: DialogConfig, connected: DialogState, shown: DialogState, s: DialogState)
    ensures |c.audio.groups| == 3
    ensures connected == AfterConnected(c, InitialState(), [StockItem(), StockItem(), StockItem()])
    ensures WellFormed(c, connected) && |connected.items| == 3
    ensures shown == AfterShowH(c, connected) && WellFormed(c, shown) && |shown.items| == 3
    ensures s == AfterUpdateVolumePreference(c, AfterUpdateVolumePreference(c, shown, GroupOneRaised(), EVENT_TYPE_VOLUME_GAIN_INDEX_CHANGED, [EXTRA_INFO_SHOW_UI]),
                                             GroupOneRaised(), EVENT_TYPE_VOLUME_GAIN_INDEX_CHANGED, [EXTRA_INFO_SHOW_UI])
    ensures s.showing && !s.expanded && s.previousGroup == 1 && s.currentGroup == 1
    ensures |s.lines| == 1 && s.lines[0].groupId == 0
    ensures AfterShowH(c, s).lines == s.lines
    ensures GroupIds(AfterToggleExpansion(c, AfterShowH(c, s)).lines) == [0, 0, 2]
  {
    var group := GroupAudio(5, 10, false);
    c := DialogConfig(Timeouts(3000, 5000, 6000, 8000), AudioManager([group, group, group], true), 0);
    var chosen := [StockItem(), StockItem(), StockItem()];
    connected := AfterConnected(c, InitialState(), chosen);
    ConnectedIsWellFormed(c, InitialState(), chosen);
    ConnectedShowsDefaultLine(c, InitialState(), chosen);
    assert !connected.showing && connected.currentGroup == 0;
    shown := AfterShowH(c, connected);
    ShowHKeepsWellFormed(c, connected);
    ShowHGuards(c, connected);
    assert shown.lines == [NewLine(c.audio, 0, 1, true)];
    assert shown.showing && !shown.expanded;
    var info := GroupOneRaised();
    assert !Displays(shown.lines, 1);
    ShowUiTwiceForHiddenGroup(c, shown, info, EVENT_TYPE_VOLUME_GAIN_INDEX_CHANGED, [EXTRA_INFO_SHOW_UI]);
    var once := AfterUpdateVolumePreference(c, shown, info, EVENT_TYPE_VOLUME_GAIN_INDEX_CHANGED, [EXTRA_INFO_SHOW_UI]);
    s := AfterUpdateVolumePreference(c, once, info, EVENT_TYPE_VOLUME_GAIN_INDEX_CHANGED, [EXTRA_INFO_SHOW_UI]);
    ShowHKeepsStaleLine(c, s);
    assert ExpansionGroups(3, 1) == [0, 2];
  }

  /** The volume item used in StaleLineIsReachable for every group. */
  function StockItem(): VolumeItem
  {
    VolumeItem(0, 0, 0, false, None, 0, false)
  }

  /** Group 1's volume raised to 7, with the UI to be shown. */
  function GroupOneRaised(): GroupInfo
  {
    GroupInfo(0, 1, false, 10, 7)
  }

  /** Where the corrected showH keeps the lines: expanded, or the current group's line already displayed. */
  predicate CorrectedShowHKeeps(s: DialogState)
  {
    s.showing && (s.expanded || (s.previousGroup == s.currentGroup && Displays(s.lines, s.currentGroup)))
  }

  /** showH with the early return taken on a collapsed dialog only when the current group's line is displayed. */
  function AfterShowHCorrected(c: DialogConfig, s: DialogState): DialogState
    requires WellFormed(c, s) && (!CorrectedShowHKeeps(s) ==> |s.items| > 0)
  {
    var t := AfterReschedule(c, s.(pending := RemoveMessages(RemoveMessages(s.pending, SHOW), DISMISS)));
    if CorrectedShowHKeeps(t) then t
    else if t.showing then ClearAllAndSetupDefault(c, t, t.currentGroup)
    else ClearAllAndSetupDefault(c, t, t.currentGroup).(dismissing := false, showing := true)
  }

  /** The corrected showH differs from showH only in the stale case of ShowHKeepsStaleLine. */
  lemma CorrectedShowHAgreesElsewhere(c: DialogConfig, s: DialogState)
    requires WellFormed(c, s) && |s.items| > 0
    requires !(s.showing && !s.expanded && s.previousGroup == s.currentGroup && !Displays(s.lines, s.currentGroup))
    ensures AfterShowHCorrected(c, s) == AfterShowH(c, s)
  {
  }

  /**
   * After the corrected showH a collapsed dialog displays exactly one line, of
   * the current group, so expanding it lists every group once, the current one
   * first.
   */
  lemma CorrectedShowHThenExpandListsEachGroupOnce(c: DialogConfig, s: DialogState)
    requires WellFormed(c, s) && |s.items| > 0 && !s.expanded && |s.lines| <= 1
    ensures var r := AfterShowHCorrected(c, s);
      && |r.lines| == 1 && r.lines[0].groupId == r.currentGroup && !r.expanded
      && var ids := GroupIds(AfterToggleExpansion(c, r).lines);
         && |ids| == |s.items| && ids[0] == s.currentGroup
         && (forall g :: g in ids <==> 0 <= g < |s.items|)
         && (forall i, j :: 0 <= i < j < |ids| ==> ids[i] != ids[j])
  {
    var r := AfterShowHCorrected(c, s);
    if CorrectedShowHKeeps(s) {
      var i :| 0 <= i < |s.lines| && s.lines[i].groupId == s.currentGroup;
    }
    ExpandedListHasEachGroupOnce(c, r.(expanded := true));
  }

  // ---------------------------------------------------------------------------------------------
  // The dialog
  // ---------------------------------------------------------------------------------------------

  /** CarVolumeDialogImpl, once connected: `config` holds what the car audio service reports. */
  class CarVolumeDialogImpl {
    const config: DialogConfig

    var hovering: bool
    var expanded: bool
    var dismissing: bool
    /** mDialog.isShowing(). */
    var showing: bool
    /** mExpandIcon != null: the expand icon has been clicked. */
    var expandIconSet: bool
    /** The dismiss animation has started and not yet ended. */
    var dismissAnimating: bool
    /** mAvailableVolumeItems, one per volume group. */
    var availableItems: seq<VolumeItem>
    /** mCarVolumeLineItems. */
    var lineItems: seq<LineItem>
    var nextSerial: nat
    var currentGroup: int
    var previousGroup: int
    /** The handler's pending messages. */
    var pending: seq<Message>
    /** The setGroupVolume calls made so far. */
    var volumeSets: seq<VolumeSet>

    function State(): DialogState
      reads this
    {
      DialogState(hovering, expanded, dismissing, showing, expandIconSet, dismissAnimating,
                  availableItems, lineItems, nextSerial, currentGroup, previousGroup, pending, volumeSets)
    }

    predicate Valid()
      reads this
    {
      WellFormed(config, State())
    }

    /**
     * init followed by the car service's connection: init posts
     * SHOW(VOLUME_CHANGED), and onConnected then fills the available items
     * from `volumeItems` and each group's usages in `groupUsages`.
     */
    constructor (config: DialogConfig, volumeItems: map<int, VolumeItem>, groupUsages: seq<seq<int>>)
      requires UsagesResolve(volumeItems, groupUsages) && |groupUsages| == |config.audio.groups|
      ensures this.config == config && Valid()
      ensures State() == AfterConnected(config, InitialState(), GroupItems(volumeItems, groupUsages))
      ensures !expanded && !showing && pending == [Message(SHOW, SHOW_REASON_VOLUME_CHANGED, 0)]
      ensures |groupUsages| > 0 ==>
        lineItems == [NewLine(config.audio, 0, 0, true)] && availableItems[0].defaultItem && availableItems[0].carItem == Some(0)
    {
      this.config := config;
      hovering, expanded, dismissing, showing := false, false, false, false;
      expandIconSet, dismissAnimating := false, false;
      availableItems := [];
      lineItems := [];
      nextSerial := 0;
      currentGroup, previousGroup := 0, 0;
      pending := [Message(SHOW, SHOW_REASON_VOLUME_CHANGED, 0)];
      volumeSets := [];
      new;
      OnConnected(volumeItems, groupUsages);
      ConnectedShowsDefaultLine(config, InitialState(), GroupItems(volumeItems, groupUsages));
    }

    /**
     * onConnected, for a valid audio zone with an audio manager, on the first
     * connection: every group's item is appended in order, and right after
     * group 0's the lines are reset to its default line.
     */
    method OnConnected(volumeItems: map<int, VolumeItem>, groupUsages: seq<seq<int>>)
      requires UsagesResolve(volumeItems, groupUsages) && |groupUsages| == |config.audio.groups|
      requires availableItems == [] && lineItems == [] && currentGroup == 0 && OnlyShowAndDismiss(pending)
      modifies this`expanded, this`availableItems, this`lineItems, this`nextSerial
      ensures State() == AfterConnected(config, old(State()), GroupItems(volumeItems, groupUsages)) && Valid()
    {
      ghost var chosen := GroupItems(volumeItems, groupUsages);
      ConnectedIsWellFormed(config, State(), chosen);
      expanded := false;
      ghost var start := State();
      var groupId := 0;
      while groupId < |groupUsages|
        invariant 0 <= groupId <= |groupUsages|
        invariant State() == Populate(config, start, chosen, groupId)
      {
        var volumeItem := GetVolumeItemForUsages(volumeItems, groupUsages[groupId]);
        availableItems := availableItems + [volumeItem.value];
        if groupId == 0 {
          ClearAllAndSetupDefaultCarVolumeLineItem(0);
        }
        groupId := groupId + 1;
      }
    }

    /** show(reason): posts a SHOW message. */
    method Show(reason: int)
      requires Valid()
      modifies this`pending
      ensures Valid() && pending == old(pending) + [Message(SHOW, reason, 0)]
    {
      pending := pending + [Message(SHOW, reason, 0)];
    }

    /** dismiss(reason): posts a DISMISS message. */
    method Dismiss(reason: int)
      requires Valid()
      modifies this`pending
      ensures Valid() && pending == old(pending) + [Message(DISMISS, reason, 0)]
    {
      pending := pending + [Message(DISMISS, reason, 0)];
    }

    /** rescheduleTimeoutH; a negative delay counts as none, as in Handler.sendMessageDelayed. */
    method RescheduleTimeoutH()
      modifies this`pending
      ensures State() == AfterReschedule(config, old(State()))
    {
      pending := RemoveMessages(pending, DISMISS);
      var timeout := ComputeTimeout(config.timeouts, expanded, hovering);
      pending := pending + [Message(DISMISS, DISMISS_REASON_TIMEOUT, if timeout < 0 then 0 else timeout)];
    }

    /** addCarVolumeListItem, with the group's volume, maximum and mute state read from the audio manager. */
    method AddCarVolumeListItem(groupId: int, expandIcon: bool)
      requires 0 <= groupId < |availableItems| && groupId < |config.audio.groups|
      modifies this`availableItems, this`lineItems, this`nextSerial
      ensures State() == AddLine(config, old(State()), groupId, expandIcon)
    {
      var audio := config.audio.groups[groupId];
      var line := LineItem(nextSerial, groupId, audio.maxVolume, audio.volume,
                           config.audio.mutingEnabled && audio.muted, expandIcon);
      availableItems := availableItems[groupId := availableItems[groupId].(carItem := Some(nextSerial), progress := audio.volume)];
      lineItems := lineItems + [line];
      nextSerial := nextSerial + 1;
    }

    /** clearAllAndSetupDefaultCarVolumeLineItem. */
    method ClearAllAndSetupDefaultCarVolumeLineItem(groupId: int)
      requires 0 <= groupId < |availableItems| && groupId < |config.audio.groups|
      modifies this`availableItems, this`lineItems, this`nextSerial
      ensures State() == ClearAllAndSetupDefault(config, old(State()), groupId)
    {
      lineItems := [];
      availableItems := availableItems[groupId := availableItems[groupId].(defaultItem := true)];
      AddCarVolumeListItem(groupId, true);
    }

    /** showH. */
    method ShowH()
      requires Valid() && (ShowHRebuilds(State()) ==> |availableItems| > 0)
      modifies this`pending, this`availableItems, this`lineItems, this`nextSerial, this`dismissing, this`showing
      ensures State() == AfterShowH(config, old(State())) && Valid()
    {
      ghost var s := State();
      ShowHKeepsWellFormed(config, s);
      RemoveBothEmpties(pending, SHOW, DISMISS);
      pending := RemoveMessages(pending, SHOW);
      pending := RemoveMessages(pending, DISMISS);
      RescheduleTimeoutH();
      ghost var t := State();
      if showing {
        if previousGroup == currentGroup || expanded {
          assert State() == AfterShowH(config, s);
          return;
        }
        ClearAllAndSetupDefaultCarVolumeLineItem(currentGroup);
        assert State() == AfterShowH(config, s);
        return;
      }
      ClearAllAndSetupDefaultCarVolumeLineItem(currentGroup);
      ghost var u := State();
      assert u == ClearAllAndSetupDefault(config, t, t.currentGroup);
      dismissing := false;
      showing := true;
      assert State() == u.(dismissing := false, showing := true);
    }

    /** dismissH; starting the dismiss animation runs its onAnimationStart, which sets dismissing. */
    method DismissH()
      requires Valid()
      modifies this`pending, this`dismissing, this`dismissAnimating
      ensures State() == AfterDismissH(old(State())) && Valid()
    {
      DismissHKeepsWellFormed(config, State());
      pending := RemoveMessages(pending, DISMISS);
      pending := RemoveMessages(pending, SHOW);
      if !showing || dismissing {
        return;
      }
      dismissAnimating := true;
      dismissing := true;
    }

    /** toggleDialogExpansion. */
    method ToggleDialogExpansion()
      requires Valid() && (expanded ==> |availableItems| > 0)
      modifies this`expanded, this`availableItems, this`lineItems, this`nextSerial
      ensures State() == AfterToggleExpansion(config, old(State())) && Valid()
    {
      expanded := !expanded;
      if expanded {
        ghost var start := State();
        var groupId := 0;
        while groupId < |availableItems|
          invariant 0 <= groupId <= |availableItems| == |start.items|
          invariant State() == AddGroupsExcept(config, start, currentGroup, groupId)
          invariant Valid()
        {
          if groupId != currentGroup {
            AddLineKeepsWellFormed(config, State(), groupId);
            AddCarVolumeListItem(groupId, false);
          }
          groupId := groupId + 1;
        }
      } else {
        ClearAllAndSetupDefaultCarVolumeLineItem(currentGroup);
      }
    }

    /** The expand icon's click listener. */
    method OnExpandIconClick()
      requires Valid() && (expanded ==> |availableItems| > 0)
      modifies this
      ensures State() == AfterExpandIconClick(config, old(State())) && Valid()
    {
      expandIconSet := true;
      ToggleDialogExpansion();
      RescheduleTimeoutH();
    }

    /** The end of the dismiss animation and the delayed dismissal it posts. */
    method OnDismissAnimationEnd()
      requires Valid() && dismissAnimating
      requires expandIconSet && expanded ==> |availableItems| > 0
      modifies this
      ensures State() == AfterDismissAnimationEnd(config, old(State())) && Valid()
    {
      dismissAnimating := false;
      showing := false;
      dismissing := false;
      if expandIconSet && expanded {
        ToggleDialogExpansion();
      }
    }

    /** The list's hover listener, which always handles the event. */
    method OnHover(action: int) returns (handled: bool)
      requires Valid()
      modifies this`hovering, this`pending
      ensures handled && Valid() && State() == AfterHover(config, old(State()), action)
    {
      hovering := action == ACTION_HOVER_ENTER || action == ACTION_HOVER_MOVE;
      RescheduleTimeoutH();
      return true;
    }

    /** The dialog's dispatchTouchEvent, before it hands the event on. */
    method DispatchTouchEvent()
      requires Valid()
      modifies this`pending
      ensures State() == AfterReschedule(config, old(State())) && Valid()
    {
      RescheduleTimeoutH();
    }

    /** The dialog's onTouchEvent: a touch outside a showing dialog posts DISMISS(TOUCH_OUTSIDE). */
    method OnTouchEvent(action: int) returns (consumed: bool)
      requires Valid()
      modifies this`pending
      ensures Valid() && consumed == ConsumesTouch(old(State()), action)
      ensures pending == old(pending) + if consumed then [Message(DISMISS, DISMISS_REASON_TOUCH_OUTSIDE, 0)] else []
    {
      if showing {
        if action == ACTION_OUTSIDE {
          pending := pending + [Message(DISMISS, DISMISS_REASON_TOUCH_OUTSIDE, 0)];
          return true;
        }
      }
      return false;
    }

    /** The handler's handleMessage for the pending message at index i, which the looper takes off the queue. */
    method HandleMessage(i: int)
      requires Valid() && 0 <= i < |pending|
      requires pending[i].what == SHOW && ShowHRebuilds(State()) ==> |availableItems| > 0
      modifies this
      ensures Valid()
      ensures var taken := old(State()).(pending := old(pending[..i] + pending[i + 1..]));
        State() == if old(pending[i].what) == SHOW then AfterShowH(config, taken)
                   else if old(pending[i].what) == DISMISS then AfterDismissH(taken)
                   else taken
    {
      var msg := pending[i];
      assert forall m :: m in pending[..i] + pending[i + 1..] ==> m in pending;
      pending := pending[..i] + pending[i + 1..];
      if msg.what == SHOW {
        ShowH();
      } else if msg.what == DISMISS {
        DismissH();
      }
    }

    /** updateVolumePreference for a group info whose group exists. */
    method UpdateVolumePreference(groupInfo: GroupInfo, eventTypes: bv32, extraInfos: seq<int>)
      requires Valid() && 0 <= groupInfo.id < |availableItems|
      modifies this`availableItems, this`lineItems, this`currentGroup, this`previousGroup, this`pending
      ensures State() == AfterUpdateVolumePreference(config, old(State()), groupInfo, eventTypes, extraInfos) && Valid()
    {
      var groupId := groupInfo.id;
      var volumeItem := availableItems[groupId];
      var isShowing := Displays(lineItems, groupId);
      if isShowing {
        lineItems := UpdateLines(lineItems, volumeItem.carItem.value, eventTypes, groupInfo);
        availableItems := availableItems[groupId := UpdatedItem(volumeItem, eventTypes, groupInfo)];
      }
      if ShiftsDisplayedGroup(extraInfos) {
        previousGroup := currentGroup;
        currentGroup := groupId;
        pending := pending + [Message(SHOW, SHOW_REASON_VOLUME_CHANGED, 0)];
      }
    }

    /**
     * The legacy volume callback; `groupInfo` is what the audio manager returns
     * for the group, None when there is no audio manager.
     */
    method UpdateVolumeAndMute(zoneId: int, groupInfo: Option<GroupInfo>, eventTypes: bv32, extraInfos: seq<int>)
      requires Valid()
      requires zoneId == config.audioZoneId && groupInfo.Some? ==> 0 <= groupInfo.value.id < |availableItems|
      modifies this`availableItems, this`lineItems, this`currentGroup, this`previousGroup, this`pending
      ensures State() == AfterUpdateVolumeAndMute(config, old(State()), zoneId, groupInfo, eventTypes, extraInfos) && Valid()
    {
      if zoneId != config.audioZoneId {
        return;
      }
      if groupInfo.Some? {
        UpdateVolumePreference(groupInfo.value, eventTypes, extraInfos);
      }
    }

    /** updateVolumeGroupForEvents. */
    method UpdateVolumeGroupForEvents(volumeGroupEvents: seq<GroupEvent>)
      requires Valid() && ZoneEventsInRange(config.audioZoneId, volumeGroupEvents, |availableItems|)
      modifies this`availableItems, this`lineItems, this`currentGroup, this`previousGroup, this`pending
      ensures State() == AfterUpdateVolumeGroupForEvents(config, old(State()), volumeGroupEvents) && Valid()
    {
      var filteredEvents := FilterVolumeGroupEventForZoneId(config.audioZoneId, volumeGroupEvents);
      EventsForZoneMembers(config.audioZoneId, volumeGroupEvents);
      assert forall k :: 0 <= k < |filteredEvents| ==> filteredEvents[k] in filteredEvents;
      ghost var start := State();
      var index := 0;
      while index < |filteredEvents|
        invariant 0 <= index <= |filteredEvents|
        invariant forall k :: 0 <= k < |filteredEvents[..index]| ==> InfosInRange(filteredEvents[..index][k], |start.items|)
        invariant State() == ApplyEvents(config, start, filteredEvents[..index])
        invariant Valid() && |availableItems| == |start.items|
      {
        assert filteredEvents[..index + 1][..index] == filteredEvents[..index];
        var event := filteredEvents[index];
        UpdateVolumeGroupForEvent(event);
        index := index + 1;
      }
      assert filteredEvents[..index] == filteredEvents;
    }

    /** The body of updateVolumeGroupForEvents' outer loop: every info of one event, in order. */
    method UpdateVolumeGroupForEvent(event: GroupEvent)
      requires Valid() && InfosInRange(event, |availableItems|)
      modifies this`availableItems, this`lineItems, this`currentGroup, this`previousGroup, this`pending
      ensures State() == ApplyInfos(config, old(State()), event.infos, event.eventTypes, event.extraInfos)
      ensures Valid() && |availableItems| == |old(availableItems)|
    {
      var eventTypes := event.eventTypes;
      var extraInfos := event.extraInfos;
      var infos := event.infos;
      var infoIndex := 0;
      while infoIndex < |infos|
        invariant 0 <= infoIndex <= |infos|
        invariant State() == ApplyInfos(config, old(State()), infos[..infoIndex], eventTypes, extraInfos)
        invariant Valid() && |availableItems| == |old(availableItems)|
      {
        assert infos[..infoIndex + 1][..infoIndex] == infos[..infoIndex];
        UpdateVolumePreference(infos[infoIndex], eventTypes, extraInfos);
        infoIndex := infoIndex + 1;
      }
      assert infos[..infoIndex] == infos;
    }

    /**
     * onProgressChanged of the seek-bar listener of the displayed line at
     * lineIndex: a user's change sets the group item's progress and its line
     * item's, and is sent to the audio manager.
     */
    method OnProgressChanged(lineIndex: int, progress: int, fromUser: bool)
      requires Valid() && 0 <= lineIndex < |lineItems|
      modifies this`availableItems, this`lineItems, this`volumeSets
      ensures State() == AfterProgressChanged(config, old(State()), lineIndex, progress, fromUser) && Valid()
    {
      ProgressChangedEffect(config, State(), lineIndex, progress, fromUser);
      if !fromUser {
        return;
      }
      var groupId := lineItems[lineIndex].groupId;
      var volumeItem := availableItems[groupId];
      availableItems := availableItems[groupId := volumeItem.(progress := progress)];
      lineItems := SetLineProgress(lineItems, volumeItem.carItem.value, progress);
      volumeSets := volumeSets + [VolumeSet(config.audioZoneId, groupId, progress)];
    }
  }
}
