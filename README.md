# Car system UI core, modelled in Dafny

This project models four pieces of the car system UI. Each one is a small
component that holds state and makes decisions:

- **The car volume dialog** (`CarVolumeDialogImpl`), in `volume_dialog.dfy`, module `CarVolumeDialog`:
  - it reads the volume items of the XML resource and gives them consecutive ranks;
  - when the car service connects, it fills one volume item per group and shows group 0's default line;
  - it picks the volume item that stands for a volume group;
  - it picks the timeout after which the dialog dismisses itself;
  - it keeps the SHOW and DISMISS messages pending on its handler;
  - it rebuilds the displayed line items when the dialog expands or collapses;
  - it guards `showH` and `dismissH` with the showing and dismissing flags;
  - it filters volume-group events by audio zone and applies their event-type bits to the displayed lines;
  - it handles a user's seek-bar change.
- **The overlay panel** (`OverlayPanelViewController`), in `overlay_panel.dfy`, module `OverlayPanel`:
  - it has a direction: from the top bar (+1) or from the bottom bar (-1);
  - the direction decides which touch actions open and which close the panel;
  - it sets clip bounds clamped to the layout and moves the handle bar;
  - it computes the end position of the open and close animations;
  - it decides, when a drag ends, whether to settle open or closed;
  - it keeps the visible, expanded, animating and tracking flags, which expand, collapse, toggle, animate and reset change.
- **The system bar view** (`CarSystemBarView`), in `systembar.dfy`, module `CarSystemBar`:
  - exactly one of its three button groups is shown;
  - it sets the home and control-center button visibility;
  - the notification-shade and HVAC click handlers never leave both panels open;
  - it decides whether to intercept a touch and forwards touches to the status-bar window listeners;
  - it hands the user tracker to every system-bar button of its view tree.
- **The task-view host** (`CarSystemUIProxyImpl`), in `taskview.dfy`, module `CarSystemUIProxy`:
  - it keeps the set of live remote task-view servers;
  - its constructor guards decide whether it listens for the car service;
  - on connection it removes the multi-window tasks left over from an earlier system UI process.

`wrappers.dfy` holds the `Option`, `Result` and `Outcome` types that the
error paths use.

Each Java class whose methods change fields is a Dafny `class` with those
fields. Its methods are proved against pure transition functions over a
snapshot datatype (`PanelState`, `DialogState`):

- `ensures State() == AfterX(old(State()), ...)` ties a method to its transition function;
- `Valid()` is the preserved invariant;
- the source's promises are lemmas about the transition functions;
- loops in the source are `while` loops carrying their invariants.

Values that come from the platform are parameters, configuration fields or
method arguments. Examples: the car audio manager's replies, the subclass
hooks of the overlay panel, and the task list reported by the shell task
organizer.

## Model

| member | source | states |
|---|---|---|
| CarVolumeDialog.ComputeTimeout | src/com/android/systemui/car/volume/CarVolumeDialogImpl.java:477-483 | the result is one of the four configured timeouts; expanded selects the expanded pair, hovering selects its hovering member |
| CarVolumeDialog.RemoveMessages | src/com/android/systemui/car/volume/CarVolumeDialogImpl.java:435-436 | a message stays pending iff it was pending and is of another kind; the queue never grows |
| CarVolumeDialog.CountMessagesAppend | src/com/android/systemui/car/volume/CarVolumeDialogImpl.java:466-470 | the count of one message kind in a concatenated queue is the sum of the counts of its parts |
| CarVolumeDialog.CountMessagesAbsent | src/com/android/systemui/car/volume/CarVolumeDialogImpl.java:466-470 | a queue holding no message of a kind counts zero of it |
| CarVolumeDialog.RescheduleLeavesOneDismiss | src/com/android/systemui/car/volume/CarVolumeDialogImpl.java:466-475 | after rescheduling exactly one DISMISS is pending; it is DISMISS(TIMEOUT) with the computed delay; messages of other kinds are kept |
| CarVolumeDialog.RemoveBothEmpties | src/com/android/systemui/car/volume/CarVolumeDialogImpl.java:435-436 | removing SHOW and DISMISS, in either order, from a queue of only those kinds leaves it empty |
| CarVolumeDialog.QualifyingCount | src/com/android/systemui/car/volume/CarVolumeDialogImpl.java:527-547 | the number of ranks used never exceeds the number of records read |
| CarVolumeDialog.LoadAudioUsageItems | src/com/android/systemui/car/volume/CarVolumeDialogImpl.java:509-559 | fails iff the first start tag is not the carVolumeItems root tag; otherwise the map holds each record with usage >= 0 at the next rank, in document order |
| CarVolumeDialog.RankedItemsDomain | src/com/android/systemui/car/volume/CarVolumeDialogImpl.java:527-547 | a usage has an item iff it had one before or some "item" record with a non-negative usage names it |
| CarVolumeDialog.RankedItemsLastRecordWins | src/com/android/systemui/car/volume/CarVolumeDialogImpl.java:527-547 | the item at a usage comes from the last qualifying record for it; its rank is the number of qualifying records before that record, so skipped records use no rank |
| CarVolumeDialog.QualifyingCountStep | src/com/android/systemui/car/volume/CarVolumeDialogImpl.java:529-545 | a qualifying record uses exactly one rank and any other record uses none |
| CarVolumeDialog.QualifyingCountIncreases | src/com/android/systemui/car/volume/CarVolumeDialogImpl.java:527-547 | ranks grow strictly in document order |
| CarVolumeDialog.RankedItemsRanksBounded | src/com/android/systemui/car/volume/CarVolumeDialogImpl.java:527-547 | every rank lies in 0 .. number of qualifying records - 1 |
| CarVolumeDialog.GetVolumeItemForUsages | src/com/android/systemui/car/volume/CarVolumeDialogImpl.java:561-575 | the loop returns the item chosen by the lowest-rank rule over the usages |
| CarVolumeDialog.LowestRankedIsFirstMinimum | src/com/android/systemui/car/volume/CarVolumeDialogImpl.java:561-575 | the chosen item has the smallest rank among the usages and is the first of that rank; no item (null) exactly when no rank is below Integer.MAX_VALUE, in particular for no usages |
| CarVolumeDialog.FilterVolumeGroupEventForZoneId | src/com/android/systemui/car/volume/CarVolumeDialogImpl.java:852-866 | the nested loop with its break returns the zone's events, in order, each once |
| CarVolumeDialog.EventsForZoneMembers | src/com/android/systemui/car/volume/CarVolumeDialogImpl.java:852-866 | an event is kept iff it is in the input and has an info in the zone |
| CarVolumeDialog.EventsForZoneAppend | src/com/android/systemui/car/volume/CarVolumeDialogImpl.java:852-866 | filtering keeps order: filtering a concatenation concatenates the filtered parts |
| CarVolumeDialog.EventsForZoneCounts | src/com/android/systemui/car/volume/CarVolumeDialogImpl.java:852-866 | a kept event occurs as often as in the input and a dropped one not at all, so no event is added twice |
| CarVolumeDialog.AddGroupsExcept | src/com/android/systemui/car/volume/CarVolumeDialogImpl.java:765-773 | the expansion loop changes only the items, the lines and the serial counter |
| CarVolumeDialog.ExpansionGroups | src/com/android/systemui/car/volume/CarVolumeDialogImpl.java:765-773 | the groups the expansion loop visits are exactly those below the group count other than the current one, strictly ascending |
| CarVolumeDialog.ClearAllLeavesDefaultLine | src/com/android/systemui/car/volume/CarVolumeDialogImpl.java:458-464 | exactly one line item remains, of group g; g's item is marked default and refers to that line; the other items are unchanged |
| CarVolumeDialog.AddGroupsExceptIds | src/com/android/systemui/car/volume/CarVolumeDialogImpl.java:765-773 | the loop appends one line per visited group, ascending, skipping the current group |
| CarVolumeDialog.AddGroupsExceptKeepsPrefix | src/com/android/systemui/car/volume/CarVolumeDialogImpl.java:765-773 | existing lines stay in front; appended lines carry no expand icon |
| CarVolumeDialog.ExpandedListHasEachGroupOnce | src/com/android/systemui/car/volume/CarVolumeDialogImpl.java:762-781 | expanding from the default line lists every group exactly once, the current group first |
| CarVolumeDialog.AddLineKeepsWellFormed | src/com/android/systemui/car/volume/CarVolumeDialogImpl.java:614-626 | adding a line, or resetting to the default line, keeps the dialog invariant |
| CarVolumeDialog.AddGroupsExceptKeepsWellFormed | src/com/android/systemui/car/volume/CarVolumeDialogImpl.java:765-773 | the expansion loop keeps the dialog invariant |
| CarVolumeDialog.UpdateLines | src/com/android/systemui/car/volume/CarVolumeDialogImpl.java:880-893 | an event update keeps which lines are displayed: serials, groups and expand icons stay as they were |
| CarVolumeDialog.AfterUpdateVolumePreference | src/com/android/systemui/car/volume/CarVolumeDialogImpl.java:868-900 | the update keeps the invariant and changes only the items, the lines, the two group ids and the pending messages |
| CarVolumeDialog.ApplyInfos | src/com/android/systemui/car/volume/CarVolumeDialogImpl.java:845-848 | applying an event's infos in order keeps the invariant and the number of items |
| CarVolumeDialog.ApplyEvents | src/com/android/systemui/car/volume/CarVolumeDialogImpl.java:841-849 | applying the filtered events in order keeps the invariant and the number of items |
| CarVolumeDialog.ShowHLeavesOnlyTimeout | src/com/android/systemui/car/volume/CarVolumeDialogImpl.java:430-456 | after showH the only pending message is DISMISS(TIMEOUT), with the delay for the state it ran in, so no SHOW remains |
| CarVolumeDialog.DismissHLeavesNothingPending | src/com/android/systemui/car/volume/CarVolumeDialogImpl.java:485-507 | after dismissH no SHOW and no DISMISS remains pending |
| CarVolumeDialog.ShowHGuards | src/com/android/systemui/car/volume/CarVolumeDialogImpl.java:440-455 | while showing, with the previous group equal to the current one or the dialog expanded, lines and items stay as they are; otherwise the lines become the current group's default line; a hidden dialog is shown and its dismissing flag cleared |
| CarVolumeDialog.DismissHGuards | src/com/android/systemui/car/volume/CarVolumeDialogImpl.java:492-506 | on a hidden or already dismissing dialog, dismissH only clears the messages; otherwise it starts dismissing |
| CarVolumeDialog.ToggleExpansionEffect | src/com/android/systemui/car/volume/CarVolumeDialogImpl.java:762-781 | expanded is flipped; collapsing leaves only the current group's default line; expanding from that line lists each group once |
| CarVolumeDialog.PreferenceTouchesOnlyDisplayedGroup | src/com/android/systemui/car/volume/CarVolumeDialogImpl.java:868-893 | a group with no displayed line changes neither lines nor items; which lines are displayed never changes; items of other groups never change |
| CarVolumeDialog.PreferenceFollowsEventBits | src/com/android/systemui/car/volume/CarVolumeDialogImpl.java:880-893 | progress, mute and max each change only with their event-type bit, and then take the event's value on the group's line item |
| CarVolumeDialog.PreferenceShiftsGroupsOnlyOnShowUi | src/com/android/systemui/car/volume/CarVolumeDialogImpl.java:895-899 | the current and previous group ids shift, and a SHOW is posted, iff SHOW_UI or VOLUME_INDEX_CHANGED_BY_AUDIO_SYSTEM is among the extra infos |
| CarVolumeDialog.ProgressChangedEffect | src/com/android/systemui/car/volume/CarVolumeDialogImpl.java:812-827 | a change not from the user is ignored; a user's change sets the group item's progress and its line's, sends one setGroupVolume, and keeps the invariant |
| CarVolumeDialog.RescheduleKeepsWellFormed | src/com/android/systemui/car/volume/CarVolumeDialogImpl.java:466-475 | rescheduling keeps the invariant |
| CarVolumeDialog.DismissHKeepsWellFormed | src/com/android/systemui/car/volume/CarVolumeDialogImpl.java:485-507 | dismissH keeps the invariant |
| CarVolumeDialog.HoverKeepsWellFormed | src/com/android/systemui/car/volume/CarVolumeDialogImpl.java:416-422 | the hover listener keeps the invariant |
| CarVolumeDialog.ShowHKeepsWellFormed | src/com/android/systemui/car/volume/CarVolumeDialogImpl.java:430-456 | showH keeps the invariant |
| CarVolumeDialog.ToggleKeepsWellFormed | src/com/android/systemui/car/volume/CarVolumeDialogImpl.java:762-781 | toggleDialogExpansion keeps the invariant |
| CarVolumeDialog.ExpansionEventsKeepWellFormed | src/com/android/systemui/car/volume/CarVolumeDialogImpl.java:715-760 | the expand icon's click and the end of the dismiss animation keep the invariant |
| CarVolumeDialog.Populate | src/com/android/systemui/car/volume/CarVolumeDialogImpl.java:205-216 | the connection loop appends one item per visited group and changes only the items, the lines and the serial counter |
| CarVolumeDialog.PopulateFromEmpty | src/com/android/systemui/car/volume/CarVolumeDialogImpl.java:205-216 | from an empty list, group 0's item is marked default and has the only line, and the other groups' items follow in group order as chosen |
| CarVolumeDialog.ConnectedShowsDefaultLine | src/com/android/systemui/car/volume/CarVolumeDialogImpl.java:187-216 | once connected the dialog is collapsed; with at least one group exactly group 0's default line is shown, group 0's item is the default one and refers to it, and every other group's item is its chosen one |
| CarVolumeDialog.ConnectedIsWellFormed | src/com/android/systemui/car/volume/CarVolumeDialogImpl.java:187-216 | connecting a dialog that has no items or lines yet establishes the invariant |
| CarVolumeDialog.ConnectedDialogExpandsToEachGroupOnce | src/com/android/systemui/car/volume/CarVolumeDialogImpl.java:762-781 | expanding the freshly connected dialog lists every volume group exactly once, group 0 first |
| CarVolumeDialog.ShowHKeepsStaleLine | src/com/android/systemui/car/volume/CarVolumeDialogImpl.java:443-445 | on a showing, collapsed dialog with the previous group equal to the current one, showH keeps a line of another group; the current group is then not displayed, and expanding lists the displayed group twice and the current group never |
| CarVolumeDialog.ShowUiTwiceForHiddenGroup | src/com/android/systemui/car/volume/CarVolumeDialogImpl.java:895-899 | two updates that show the UI for a group without a displayed line make it both the previous and the current group and leave the lines as they were |
| CarVolumeDialog.StaleLineIsReachable | src/com/android/systemui/car/volume/CarVolumeDialogImpl.java:443-445 | from a freshly connected three-group dialog shown once, two SHOW_UI updates for group 1 lead to a showH that keeps group 0's line, after which expanding lists groups 0, 0, 2 |
| CarVolumeDialog.CorrectedShowHAgreesElsewhere | src/com/android/systemui/car/volume/CarVolumeDialogImpl.java:430-456 | the corrected showH equals showH everywhere except the stale case |
| CarVolumeDialog.CorrectedShowHThenExpandListsEachGroupOnce | src/com/android/systemui/car/volume/CarVolumeDialogImpl.java:430-456 | after the corrected showH a collapsed dialog shows exactly one line, of the current group, and expanding then lists every group once, the current one first |
| CarVolumeDialog.CarVolumeDialogImpl.constructor | src/com/android/systemui/car/volume/CarVolumeDialogImpl.java:307-315 | init posts SHOW(VOLUME_CHANGED) and the connection follows: the dialog is collapsed and hidden, and with at least one group it shows group 0's default line, whose item is marked default |
| CarVolumeDialog.CarVolumeDialogImpl.OnConnected | src/com/android/systemui/car/volume/CarVolumeDialogImpl.java:187-216 | the loop chooses each group's item by getVolumeItemForUsages and appends it, resetting to group 0's default line right after group 0's item; the invariant then holds |
| CarVolumeDialog.CarVolumeDialogImpl.Show | src/com/android/systemui/car/volume/CarVolumeDialogImpl.java:361-363 | posts exactly one SHOW with the reason |
| CarVolumeDialog.CarVolumeDialogImpl.Dismiss | src/com/android/systemui/car/volume/CarVolumeDialogImpl.java:368-370 | posts exactly one DISMISS with the reason |
| CarVolumeDialog.CarVolumeDialogImpl.RescheduleTimeoutH | src/com/android/systemui/car/volume/CarVolumeDialogImpl.java:466-475 | the new state is the rescheduled one: pending DISMISS messages are replaced by DISMISS(TIMEOUT) |
| CarVolumeDialog.CarVolumeDialogImpl.AddCarVolumeListItem | src/com/android/systemui/car/volume/CarVolumeDialogImpl.java:577-626 | appends the line built from the audio manager's volume, maximum and mute state, and points the group's item at it |
| CarVolumeDialog.CarVolumeDialogImpl.ClearAllAndSetupDefaultCarVolumeLineItem | src/com/android/systemui/car/volume/CarVolumeDialogImpl.java:458-464 | the new state is the single default line of the group |
| CarVolumeDialog.CarVolumeDialogImpl.ShowH | src/com/android/systemui/car/volume/CarVolumeDialogImpl.java:430-456 | the new state is showH's transition, and the invariant holds |
| CarVolumeDialog.CarVolumeDialogImpl.DismissH | src/com/android/systemui/car/volume/CarVolumeDialogImpl.java:485-507 | the new state is dismissH's transition, and the invariant holds |
| CarVolumeDialog.CarVolumeDialogImpl.ToggleDialogExpansion | src/com/android/systemui/car/volume/CarVolumeDialogImpl.java:762-781 | the loop over the groups produces the expansion's lines; collapsing produces the default line |
| CarVolumeDialog.CarVolumeDialogImpl.OnExpandIconClick | src/com/android/systemui/car/volume/CarVolumeDialogImpl.java:753-760 | records the icon, toggles the expansion, then reschedules the timeout |
| CarVolumeDialog.CarVolumeDialogImpl.OnDismissAnimationEnd | src/com/android/systemui/car/volume/CarVolumeDialogImpl.java:721-736 | the dialog is hidden and not dismissing; an expanded dialog whose icon was clicked is collapsed |
| CarVolumeDialog.CarVolumeDialogImpl.OnHover | src/com/android/systemui/car/volume/CarVolumeDialogImpl.java:416-422 | hovering is set iff the action is HOVER_ENTER or HOVER_MOVE; the timeout is rescheduled; the event is handled |
| CarVolumeDialog.CarVolumeDialogImpl.DispatchTouchEvent | src/com/android/systemui/car/volume/CarVolumeDialogImpl.java:686-689 | every touch reschedules the timeout |
| CarVolumeDialog.CarVolumeDialogImpl.OnTouchEvent | src/com/android/systemui/car/volume/CarVolumeDialogImpl.java:703-712 | consumed iff the dialog is showing and the action is ACTION_OUTSIDE, and then exactly one DISMISS(TOUCH_OUTSIDE) is posted |
| CarVolumeDialog.CarVolumeDialogImpl.HandleMessage | src/com/android/systemui/car/volume/CarVolumeDialogImpl.java:656-677 | the message is taken off the queue; SHOW runs showH, DISMISS runs dismissH |
| CarVolumeDialog.CarVolumeDialogImpl.UpdateVolumePreference | src/com/android/systemui/car/volume/CarVolumeDialogImpl.java:868-900 | the new state is the preference update |
| CarVolumeDialog.CarVolumeDialogImpl.UpdateVolumeAndMute | src/com/android/systemui/car/volume/CarVolumeDialogImpl.java:162-173 | a change in another zone, or without an audio manager, is ignored; otherwise the group's info is applied |
| CarVolumeDialog.CarVolumeDialogImpl.UpdateVolumeGroupForEvents | src/com/android/systemui/car/volume/CarVolumeDialogImpl.java:838-850 | the nested loops apply each event of the zone with all of its infos, in order |
| CarVolumeDialog.CarVolumeDialogImpl.UpdateVolumeGroupForEvent | src/com/android/systemui/car/volume/CarVolumeDialogImpl.java:842-848 | the inner loop applies every info of one event, in order, with that event's bits and extra infos |
| CarVolumeDialog.CarVolumeDialogImpl.OnProgressChanged | src/com/android/systemui/car/volume/CarVolumeDialogImpl.java:812-827 | the new state is the seek-bar transition |
| OverlayPanel.DirectionFor | src/com/android/systemui/car/window/OverlayPanelViewController.java:185-193 | OVERLAY_FROM_TOP_BAR maps to +1 and OVERLAY_FROM_BOTTOM_BAR to -1, each an iff; every other value is rejected |
| OverlayPanel.OpeningAndClosingActions | src/com/android/systemui/car/window/OverlayPanelViewController.java:211-237 | no action both opens and closes; the top bar opens on DOWN and closes on UP; the bottom bar the reverse; any other direction on nothing |
| OverlayPanel.ClampToPanel | src/com/android/systemui/car/window/OverlayPanelViewController.java:512 | the result lies in [0, height]: y inside is kept, below becomes 0, above becomes height |
| OverlayPanel.ClipBoundsFor | src/com/android/systemui/car/window/OverlayPanelViewController.java:510-525 | 0 <= top <= bottom <= height and the full width; [0, y] for the top bar and [y, height] otherwise, with y clamped |
| OverlayPanel.EndPosition | src/com/android/systemui/car/window/OverlayPanelViewController.java:363-367 | the end is 0 or the height; it is the height iff (top bar and opening) or (bottom bar and closing), or the height is 0 |
| OverlayPanel.StartPositionOfClip | src/com/android/systemui/car/window/OverlayPanelViewController.java:359-361 | the start position read back from the clip of y is the clamped y |
| OverlayPanel.EndPositionShowsOrHidesAll | src/com/android/systemui/car/window/OverlayPanelViewController.java:354-367 | clipping at an opening end shows the whole panel; at a closing end, none of it; the default start is the closing end |
| OverlayPanel.HandleBarTranslation | src/com/android/systemui/car/window/OverlayPanelViewController.java:536-542 | max(0, y - handle height) for the top bar and y for the bottom bar; for y >= 0 it lies in [0, y] |
| OverlayPanel.ShouldClosePanel | src/com/android/systemui/car/window/OverlayPanelViewController.java:297-299 | for the top bar, close iff cursor% < settle%; for the bottom bar, close iff cursor% > settle% |
| OverlayPanel.SettleAtCursorOpens | src/com/android/systemui/car/window/OverlayPanelViewController.java:297-299 | a cursor exactly at the settle percentage never closes the panel |
| OverlayPanel.AnimateIgnoredWhileAnimating | src/com/android/systemui/car/window/OverlayPanelViewController.java:369-372 | animate changes nothing while an animation runs |
| OverlayPanel.AnimationEndEffect | src/com/android/systemui/car/window/OverlayPanelViewController.java:381-396 | the end handler clears animating and tracking and resets both velocities; closing hides and collapses the panel; opening expands it |
| OverlayPanel.ExpandPanelShowsPanel | src/com/android/systemui/car/window/OverlayPanelViewController.java:264-278 | a permitted expand ends visible and expanded |
| OverlayPanel.ExpandPanelRefused | src/com/android/systemui/car/window/OverlayPanelViewController.java:265-271 | an expand the subclass or an unfinished user set-up forbids changes nothing |
| OverlayPanel.CollapseHiddenPanelNoOp | src/com/android/systemui/car/window/OverlayPanelViewController.java:244-255 | collapsing a panel that is neither expanded nor visible changes nothing |
| OverlayPanel.ToggleCollapsesIffExpanded | src/com/android/systemui/car/window/OverlayPanelViewController.java:196-205 | toggle collapses when expanded and expands otherwise |
| OverlayPanel.MaybeCompleteHiddenNoOp | src/com/android/systemui/car/window/OverlayPanelViewController.java:292-303 | maybeCompleteAnimation does nothing on a hidden panel |
| OverlayPanel.ReleasedAboveSettleLineCloses | src/com/android/systemui/car/window/OverlayPanelViewController.java:292-351 | a top-bar drag released above the settle line starts a closing animation from the clip edge to 0, whose end hides the panel |
| OverlayPanel.ClipResetEndKeepValid | src/com/android/systemui/car/window/OverlayPanelViewController.java:381-406 | clipping, resetting and ending an animation keep the controller invariant |
| OverlayPanel.AnimatePanelKeepsValid | src/com/android/systemui/car/window/OverlayPanelViewController.java:310-351 | animatePanel keeps the controller invariant |
| OverlayPanel.ExpandKeepsValid | src/com/android/systemui/car/window/OverlayPanelViewController.java:264-278 | animateExpandPanel keeps the controller invariant |
| OverlayPanel.CollapseKeepsValid | src/com/android/systemui/car/window/OverlayPanelViewController.java:244-255 | animateCollapsePanel keeps the controller invariant |
| OverlayPanel.ToggleKeepsValid | src/com/android/systemui/car/window/OverlayPanelViewController.java:196-205 | toggle keeps the controller invariant |
| OverlayPanel.MaybeCompleteKeepsValid | src/com/android/systemui/car/window/OverlayPanelViewController.java:292-303 | maybeCompleteAnimation keeps the controller invariant |
| OverlayPanel.RunLayoutWaitersEffect | src/com/android/systemui/car/window/OverlayPanelViewController.java:336-349 | the first layout pass keeps the invariant; only the first waiter starts an animation, from the default start to the opening end; visible and expanded are untouched |
| OverlayPanel.AnimatedStateIgnoresWaiters | src/com/android/systemui/car/window/OverlayPanelViewController.java:369-372 | while an animation runs, the waiting layout listeners change nothing |
| OverlayPanel.OverlayPanelViewController.constructor | src/com/android/systemui/car/window/OverlayPanelViewController.java:105-130 | a new controller is hidden, collapsed, idle, has no clip and points from the top bar |
| OverlayPanel.OverlayPanelViewController.SetOverlayDirection | src/com/android/systemui/car/window/OverlayPanelViewController.java:185-193 | a supported value sets the direction; any other value fails and leaves the direction unchanged |
| OverlayPanel.OverlayPanelViewController.SetPanelVisible | src/com/android/systemui/car/window/OverlayPanelViewController.java:425-428 | sets the visible flag |
| OverlayPanel.OverlayPanelViewController.SetPanelExpanded | src/com/android/systemui/car/window/OverlayPanelViewController.java:464-467 | sets the expanded flag |
| OverlayPanel.OverlayPanelViewController.SetViewClipBounds | src/com/android/systemui/car/window/OverlayPanelViewController.java:510-525 | the clip becomes the clamped bounds for y and the handle bar follows; the invariant holds |
| OverlayPanel.OverlayPanelViewController.OnScroll | src/com/android/systemui/car/window/OverlayPanelViewController.java:531-543 | with a handle bar its translation is the handle-bar rule for y; without one nothing moves |
| OverlayPanel.OverlayPanelViewController.ResetPanelVisibility | src/com/android/systemui/car/window/OverlayPanelViewController.java:401-406 | the panel becomes hidden, collapsed and unclipped |
| OverlayPanel.OverlayPanelViewController.Animate | src/com/android/systemui/car/window/OverlayPanelViewController.java:369-399 | unless an animation runs, starts one and sets animating and tracking |
| OverlayPanel.OverlayPanelViewController.OnAnimationUpdate | src/com/android/systemui/car/window/OverlayPanelViewController.java:376-380 | each animated value clips the panel at that position |
| OverlayPanel.OverlayPanelViewController.OnAnimationEnd | src/com/android/systemui/car/window/OverlayPanelViewController.java:381-396 | the new state is the end handler's transition |
| OverlayPanel.OverlayPanelViewController.AnimatePanel | src/com/android/systemui/car/window/OverlayPanelViewController.java:310-351 | animates when start and end differ; otherwise resets when closing, or expands an idle collapsed panel; without a clip it waits for layout |
| OverlayPanel.OverlayPanelViewController.OnGlobalLayout | src/com/android/systemui/car/window/OverlayPanelViewController.java:336-349 | every waiting listener removes itself and calls animate, in order |
| OverlayPanel.OverlayPanelViewController.AnimateExpandPanel | src/com/android/systemui/car/window/OverlayPanelViewController.java:264-278 | the new state is animateExpandPanel's transition |
| OverlayPanel.OverlayPanelViewController.AnimateCollapsePanel | src/com/android/systemui/car/window/OverlayPanelViewController.java:244-255 | the new state is animateCollapsePanel's transition |
| OverlayPanel.OverlayPanelViewController.Toggle | src/com/android/systemui/car/window/OverlayPanelViewController.java:196-205 | inflates the view, then collapses or expands |
| OverlayPanel.OverlayPanelViewController.MaybeCompleteAnimation | src/com/android/systemui/car/window/OverlayPanelViewController.java:292-303 | on a visible panel, settles open or closed by the settle rule, fetching the settle percentage once |
| CarSystemBar.Dispatches | src/com/android/systemui/car/systembar/CarSystemBarView.java:339-346 | one call per listener, in order, each with the event |
| CarSystemBar.InterceptDecision | src/com/android/systemui/car/systembar/CarSystemBarView.java:167-184 | with listeners: false when buttons are not draggable, true when the consume config holds and the shade is open; otherwise the superclass's answer |
| CarSystemBar.OpeningOnePanelClosesTheOther | src/com/android/systemui/car/systembar/CarSystemBarView.java:227-254 | a click that opens the shade leaves HVAC closed, and the reverse |
| CarSystemBar.ClosingClickTouchesOnlyItsPanel | src/com/android/systemui/car/systembar/CarSystemBarView.java:227-254 | a click on the open panel's button closes it and leaves the other panel as it was |
| CarSystemBar.ClicksNeverOpenBothPanels | src/com/android/systemui/car/systembar/CarSystemBarView.java:227-254 | starting from "not both open", no sequence of clicks opens both panels |
| CarSystemBar.WithUserTrackerReachesEveryButton | src/com/android/systemui/car/systembar/CarSystemBarView.java:148-157 | after the walk every button reachable through view groups holds the tracker, and the tree keeps its shape |
| CarSystemBar.WithUserTrackerIdempotent | src/com/android/systemui/car/systembar/CarSystemBarView.java:148-157 | walking a tree whose reachable buttons already hold the tracker changes nothing |
| CarSystemBar.SetupSystemBarButtons | src/com/android/systemui/car/systembar/CarSystemBarView.java:144-157 | the recursion and its loop over children produce the tree with the tracker given to reachable buttons |
| CarSystemBar.CarSystemBarView.constructor | src/com/android/systemui/car/systembar/CarSystemBarView.java:80-109 | the two touch configs and the child views as found; no listeners, toggles or touches yet |
| CarSystemBar.CarSystemBarView.UpdateHomeButtonVisibility | src/com/android/systemui/car/systembar/CarSystemBarView.java:111-121 | false, or no passenger button, changes nothing; otherwise home becomes GONE and passenger home VISIBLE |
| CarSystemBar.CarSystemBarView.UpdateControlCenterButtonVisibility | src/com/android/systemui/car/systembar/CarSystemBarView.java:159-163 | a present button becomes GONE whatever isMumd is |
| CarSystemBar.CarSystemBarView.ShowButtonsOfType | src/com/android/systemui/car/systembar/CarSystemBarView.java:264-282 | the selected group becomes VISIBLE and the other two GONE, so exactly one is visible; an unknown type changes nothing |
| CarSystemBar.CarSystemBarView.SetNavigationButtonsVisibility | src/com/android/systemui/car/systembar/CarSystemBarView.java:321-325 | a present navigation group takes the visibility |
| CarSystemBar.CarSystemBarView.SetKeyguardButtonsVisibility | src/com/android/systemui/car/systembar/CarSystemBarView.java:327-331 | a present lock-screen group takes the visibility |
| CarSystemBar.CarSystemBarView.SetOcclusionButtonsVisibility | src/com/android/systemui/car/systembar/CarSystemBarView.java:333-337 | a present occlusion group takes the visibility |
| CarSystemBar.CarSystemBarView.OnNotificationsClick | src/com/android/systemui/car/systembar/CarSystemBarView.java:227-242 | a disabled button runs its runnable and toggles nothing; otherwise an open HVAC panel is closed only when the shade is about to open, then the shade is toggled exactly once |
| CarSystemBar.CarSystemBarView.OnHvacClick | src/com/android/systemui/car/systembar/CarSystemBarView.java:244-254 | an open shade is closed only when HVAC is about to open, then HVAC is toggled exactly once |
| CarSystemBar.CarSystemBarView.ToggleNotificationsPanel | src/com/android/systemui/car/systembar/CarSystemBarView.java:240 | flips the shade and counts one toggle |
| CarSystemBar.CarSystemBarView.ToggleHvacPanel | src/com/android/systemui/car/systembar/CarSystemBarView.java:252 | flips HVAC and counts one toggle |
| CarSystemBar.CarSystemBarView.SetStatusBarWindowTouchListeners | src/com/android/systemui/car/systembar/CarSystemBarView.java:211-214 | stores the listener set |
| CarSystemBar.CarSystemBarView.TriggerAllTouchListeners | src/com/android/systemui/car/systembar/CarSystemBarView.java:339-346 | every listener is called once with the event, in order; none when unset |
| CarSystemBar.CarSystemBarView.OnInterceptTouchEvent | src/com/android/systemui/car/systembar/CarSystemBarView.java:167-184 | returns the intercept decision; the listeners get the event exactly when they are non-empty and the buttons are draggable |
| CarSystemBar.CarSystemBarView.OnTouchEvent | src/com/android/systemui/car/systembar/CarSystemBarView.java:222-225 | forwards the event to every listener, then answers as the superclass does |
| CarSystemUIProxy.DanglingTaskIdsSound | src/com/android/systemui/car/taskview/CarSystemUIProxyImpl.java:135-145 | every removed id belongs to a multi-window task of the list |
| CarSystemUIProxy.DanglingTaskIdsComplete | src/com/android/systemui/car/taskview/CarSystemUIProxyImpl.java:135-145 | every multi-window task of the list is removed |
| CarSystemUIProxy.CleanUpRemovesExactlyDanglingTasks | src/com/android/systemui/car/taskview/CarSystemUIProxyImpl.java:135-145 | with distinct ids, a task is removed iff its windowing mode is WINDOWING_MODE_MULTI_WINDOW |
| CarSystemUIProxy.CleanUpExistingTaskViewTasks | src/com/android/systemui/car/taskview/CarSystemUIProxyImpl.java:135-145 | the loop issues exactly the removals of the multi-window tasks, in list order |
| CarSystemUIProxy.RemoteCarTaskViewServer.constructor | src/com/android/systemui/car/taskview/CarSystemUIProxyImpl.java:96-102 | the server is bound to its client |
| CarSystemUIProxy.CarSystemUIProxyImpl.constructor | src/com/android/systemui/car/taskview/CarSystemUIProxyImpl.java:69-92 | a non-system user registers nothing; a disabled config_registerCarSystemUIProxy registers no car-service listener |
| CarSystemUIProxy.CarSystemUIProxyImpl.CreateCarTaskView | src/com/android/systemui/car/taskview/CarSystemUIProxyImpl.java:95-106 | exactly one new server joins the set; nothing else changes |
| CarSystemUIProxy.CarSystemUIProxyImpl.OnCarTaskViewReleased | src/com/android/systemui/car/taskview/CarSystemUIProxyImpl.java:108-110 | that server leaves the set and the rest stays; an unknown server changes nothing |
| CarSystemUIProxy.CarSystemUIProxyImpl.OnConnected | src/com/android/systemui/car/taskview/CarSystemUIProxyImpl.java:113-123 | sets connected, removes exactly the dangling tasks, and registers the task monitor and the proxy |

## Left out

- Views, windows, drawables, the recycler view and its adapter are left out. Only the state the logic reads is modelled.
- Animator, interpolator and fling work is left out. An animation is modelled as "starts", "updates the clip" and "ends".
- Velocities are whole numbers, because the float fling maths is not modelled.
- The cursor and settle percentages are inputs to the settle decision. The float percentage maths of the gesture listeners is not modelled.
- `GestureDetector` dispatch and `MotionEvent` internals are left out. A touch is an action and a y coordinate.
- Handler timing is not modelled. Pending messages are a queue. `HandleMessage` takes the index of the message the looper delivers, because delivery order depends on delays.
- The delayed dismissal posted by the dismiss animation's end is merged into `OnDismissAnimationEnd`. The delay is a constant with no logic.
- `CarVolumeDialog.CarVolumeDialogImpl.HandleMessage`: the show or dismiss reason is kept as the message's object and is not passed to showH or dismissH. In the source those methods use it only for logging.
- The car audio manager, occupant zone manager, CarActivityManager, ActivityTaskManager and ShellTaskOrganizer are left out, because they are binder calls with no visible implementation.
  - Their replies are configuration: the group volumes, maxima, mute states and muting flag.
  - Their calls are logs: setGroupVolume calls and removed task ids.
  - Their registrations are flags.
- The volume dialog's constructor runs init and then the car service's onConnected, so the dialog is modelled once connected. The occupant-zone lookup and its INVALID_AUDIO_ZONE early return, a missing audio manager, notifyDataSetChanged and the callback registration are left out: the zone and the manager's replies are configuration.
- `CarVolumeDialog.CarVolumeDialogImpl.OnConnected` models the first connection only: it requires no items and no lines yet. A second connection would append a second set of items in the source. It also requires every group's usages to choose an item. The source adds null instead, which throws in clearAllAndSetupDefaultCarVolumeLineItem for group 0 and when another group's item is next read.
- `CarVolumeDialog.ExpandedListHasEachGroupOnce` and `CarVolumeDialog.ToggleExpansionEffect` state each-group-once only for a collapsed dialog whose single line is of the current group. showH's early return can leave a line of another group, and then expanding repeats that group (see Findings).
- `CarVolumeDialog.CarVolumeDialogImpl.ShowH`, `ToggleDialogExpansion`, `OnExpandIconClick`, `OnDismissAnimationEnd` and `HandleMessage` require at least one volume group where they rebuild the lines. With no group the source's mAvailableVolumeItems.get throws IndexOutOfBoundsException.
- `CarVolumeDialog.CarVolumeDialogImpl.OnProgressChanged`: the branch where the car audio manager is null is not modelled, because the dialog is modelled once connected.
- The close-system-dialogs broadcast receiver, user tracker callbacks, configuration and night-mode callbacks and dump are left out. They are registration plumbing.
- `CarVolumeDialog.VolumeItem` is a value. Its mCarVolumeItem reference is the serial number of the line item last created for it. Two groups sharing one VolumeItem object (one usage item chosen for two groups) is not modelled: each group has its own item.
- XML parsing is a sequence of records (tag, usage, icon, mute icon). Parser exceptions other than the wrong root tag are not modelled.
- The Events reasons and the CarVolumeGroupEvent and WindowConfiguration constants are written out as values. The platform classes that define them are not part of this model.
- `CarVolumeDialog.GetVolumeItemForUsages` and `CarVolumeDialog.CarVolumeDialogImpl.UpdateVolumePreference` require every usage to have an item and every group id to be in range. The source would throw a NullPointerException or IndexOutOfBoundsException there.
- The small setters and getters of CarSystemBarView are left out: panel controllers, setDisabledSystemBarButton, setVisibilityByViewId and toggleNotificationUnseenIndicator. No candidate property reads them.
- `CarSystemBar.CarSystemBarView.OnNotificationsClick` and `OnHvacClick` model a panel controller as the open state it reports. togglePanel flips that state. The controllers' own panels are not part of this model.
- CarSystemUIProxyImpl's dump and the task-view lifecycle beyond the server set are left out.

## Findings

| source | as written | input that shows it | evidently intended | confidence | as-written member | corrected member |
|---|---|---|---|---|---|---|
| src/com/android/systemui/car/volume/CarVolumeDialogImpl.java:443-445 | showH returns early on a showing dialog whenever the previous group id equals the current one, without checking which line is displayed | three groups; the dialog shows group 0's line; two volume-group events with SHOW_UI for group 1 arrive before the SHOW they post is handled (both run on the main looper), so previous = current = 1; showH keeps group 0's line and expanding lists groups 0, 0, 2 | return early only when the current group's line is already displayed | medium, not executed | CarVolumeDialog.StaleLineIsReachable | CarVolumeDialog.CorrectedShowHThenExpandListsEachGroupOnce |

`CarVolumeDialog.AfterShowHCorrected` is the corrected transition. `CarVolumeDialog.CorrectedShowHAgreesElsewhere` proves it differs from the source's showH only in the stale case. The dialog class keeps showH as the source writes it, so the class's other contracts describe the code as it runs.
