/**
 * The bookkeeping of the spelling preference block: the descriptor list
 * model, the per-provider cache of preference blocks and of their controls,
 * the block shown at present, the forwarding status monitor, the guarded
 * provider switch, and the all-or-nothing commit.
 *
 * Widgets are opaque identities.  The spelling service, the answers of the
 * contributed blocks and the user's answer to the question dialog are inputs.
 * The overlay preference store is the pair of values it stages for its two
 * keys.
 */
module SpellingConfiguration {
  import opened Wrappers

  /** A spelling engine as the service's registry describes it. */
  datatype Descriptor = Descriptor(id: string, displayLabel: string)

  /** A widget; only its identity matters here. */
  datatype Control = Control(id: nat)

  datatype Severity = Ok | Info | Warning | Error | Cancel
  datatype Status = Status(severity: Severity, message: string)

  /** `new StatusInfo()`: severity OK and an empty message. */
  const FreshStatus := Status(Ok, "")

  /** `status.matches(IStatus.ERROR)` on a status that may be null. */
  predicate IsError(st: Option<Status>)
  {
    st.Some? && st.value.severity == Error
  }

  datatype KeyType = BooleanKey | StringKey
  datatype OverlayKey = OverlayKey(keyType: KeyType, key: string)

  /** `SpellingService.PREFERENCE_SPELLING_ENABLED` and `PREFERENCE_SPELLING_ENGINE`. */
  const SpellingEnabledKey := "spellingEnabled"
  const SpellingEngineKey := "spellingEngine"

  /** The message shown when the stored engine resolves to no descriptor (its resource key). */
  const NotExistMessage := "SpellingConfigurationBlock.error.not_exist"

  /** `createOverlayStoreKeys()`: a boolean key for the enablement and a string key for the engine id. */
  function OverlayStoreKeys(): (keys: seq<OverlayKey>)
    ensures |keys| == 2
    ensures OverlayKey(BooleanKey, SpellingEnabledKey) in keys
    ensures OverlayKey(StringKey, SpellingEngineKey) in keys
    ensures forall i, j :: 0 <= i < j < |keys| ==> keys[i].key != keys[j].key
  {
    [OverlayKey(BooleanKey, SpellingEnabledKey), OverlayKey(StringKey, SpellingEngineKey)]
  }

  /** No later descriptor in `descs` has the id of `descs[i]`. */
  ghost predicate LastOfItsId(descs: seq<Descriptor>, i: int)
    requires 0 <= i < |descs|
  {
    forall j :: i < j < |descs| ==> descs[j].id != descs[i].id
  }

  /**
   * `createListModel()`: the registry's descriptors keyed by id; of several
   * descriptors with one id, the last one wins.
   */
  method CreateListModel(descs: seq<Descriptor>) returns (m: map<string, Descriptor>)
    ensures m.Keys == set i | 0 <= i < |descs| :: descs[i].id
    ensures forall id :: id in m ==> m[id].id == id && m[id] in descs
    ensures forall i :: 0 <= i < |descs| && LastOfItsId(descs, i) ==> m[descs[i].id] == descs[i]
  {
    m := map[];
    var k := 0;
    while k < |descs|
      invariant 0 <= k <= |descs|
      invariant m.Keys == set i | 0 <= i < k :: descs[i].id
      invariant forall id :: id in m ==> m[id].id == id && m[id] in descs[..k]
      invariant forall i :: 0 <= i < k && (forall j :: i < j < k ==> descs[j].id != descs[i].id) ==> m[descs[i].id] == descs[i]
    {
      m := m[descs[k].id := descs[k]];
      k := k + 1;
    }
    assert descs[..k] == descs;
  }

  /** What the selection handler does once a non-empty selection arrives. */
  datatype Switch = Proceed | RevertThenProceed | Stay

  /**
   * The guard of the provider switch: while a block is shown whose last
   * status is an error, the user is asked; declining keeps everything, and
   * accepting reverts that block before switching.
   */
  function SwitchGuard(hasBlock: bool, st: Option<Status>, discard: bool): (d: Switch)
    ensures d == Stay <==> hasBlock && IsError(st) && !discard
    ensures d == RevertThenProceed <==> hasBlock && IsError(st) && discard
    ensures d == Proceed <==> !(hasBlock && IsError(st))
  {
    if hasBlock && IsError(st) then (if discard then RevertThenProceed else Stay) else Proceed
  }

  /** The spelling service's `getActiveSpellingEngineDescriptor`, as a function of the staged engine id. */
  datatype Service = Service(active: string -> Option<Descriptor>)

  /** The id the block shown is filed under: the descriptor's, or "" when there is none. */
  function ActiveId(d: Option<Descriptor>): string
  {
    if d.Some? then d.value.id else ""
  }

  /** What `descriptor.createPreferences()` does: a new block answering as given, or a CoreException. */
  datatype Creation = Creates(committable: bool, control: Option<Control>) | Throws(message: string)

  /**
   * The inputs one event may consume: how block creation goes, the widget the
   * toolkit creates for an error panel, the statuses (null among them) a
   * contributed block reports from `initialize`, and the user's answer to the
   * discard question.
   */
  datatype Inputs = Inputs(creation: Creation, panel: Control, reports: seq<Option<Status>>, discard: bool)

  /** The statuses a block of kind `kind` reports while it initializes: an error block reports none. */
  function InitReports(kind: BlockKind, reports: seq<Option<Status>>): seq<Option<Status>>
  {
    if kind.Contributed? then reports else []
  }

  datatype BlockKind = Contributed(providerId: string) | ErrorBlock(message: string)

  /**
   * A call the configuration block makes on a preference block.  The query
   * `canPerformOk` is not logged: it changes nothing and its answer is the
   * block's `CanPerformOk()`.
   */
  datatype Request =
    | CallCreateControl | CallInitialize
    | CallPerformOk | CallPerformDefaults | CallPerformRevert | CallDispose | CallSetEnabled(enabled: bool)

  /** The calls a block receives when it is shown: `createControl` unless its id has a cached control, then `initialize`. */
  function SetupCalls(createsControl: bool): seq<Request>
  {
    (if createsControl then [CallCreateControl] else []) + [CallInitialize]
  }

  /**
   * An `ISpellingPreferenceBlock`: a contributed one, or an `ErrorPreferences`
   * showing a message.  A block is host code; the model keeps only its
   * answers, which are fixed when it is made.
   */
  class PreferenceBlock {
    const kind: BlockKind
    /** What `createControl` returns. */
    const control: Option<Control>
    /** What a contributed block's `canPerformOk` answers. */
    const committable: bool

    constructor Contribute(id: string, committable: bool, control: Option<Control>)
      ensures kind == Contributed(id) && this.control == control && this.committable == committable
    {
      kind := Contributed(id);
      this.control := control;
      this.committable := committable;
    }

    /** `new ErrorPreferences(message)`; its control is a new panel showing the message. */
    constructor Error(message: string, panel: Control)
      ensures kind == ErrorBlock(message) && control == Some(panel) && CanPerformOk()
    {
      kind := ErrorBlock(message);
      control := Some(panel);
      committable := true;
    }

    /** `canPerformOk()`: an error block can always commit. */
    predicate CanPerformOk()
    {
      kind.ErrorBlock? || committable
    }
  }

  /** The calls made so far on each block, in order; a block missing from the map was sent nothing. */
  type CallLog = map<PreferenceBlock, seq<Request>>

  function LogOf(log: CallLog, b: PreferenceBlock): seq<Request>
  {
    if b in log then log[b] else []
  }

  /** The log after the further calls `calls` on `b`. */
  function AfterCalls(log: CallLog, b: PreferenceBlock, calls: seq<Request>): (after: CallLog)
    ensures LogOf(after, b) == LogOf(log, b) + calls
    ensures after.Keys == log.Keys + {b}
    ensures forall c :: c in log && c != b ==> after[c] == log[c]
  {
    log[b := LogOf(log, b) + calls]
  }

  /** Two batches of calls on one block are one batch. */
  lemma AfterCallsCompose(log: CallLog, b: PreferenceBlock, xs: seq<Request>, ys: seq<Request>)
    ensures AfterCalls(AfterCalls(log, b, xs), b, ys) == AfterCalls(log, b, xs + ys)
  {
    assert LogOf(log, b) + xs + ys == LogOf(log, b) + (xs + ys);
  }

  /** No call already made is taken back: each block's log only grows. */
  ghost predicate LogGrows(before: CallLog, after: CallLog)
  {
    forall b :: b in before ==> before[b] <= LogOf(after, b)
  }

  lemma AfterCallsGrows(log: CallLog, b: PreferenceBlock, calls: seq<Request>)
    ensures LogGrows(log, AfterCalls(log, b, calls))
  {
  }

  lemma LogGrowsTransitive(a: CallLog, b: CallLog, c: CallLog)
    requires LogGrows(a, b) && LogGrows(b, c)
    ensures LogGrows(a, c)
  {
  }

  /** `after` is `before` with one more call `r` on each block of `targets` and on no other block. */
  ghost predicate SentToEach(before: CallLog, after: CallLog, targets: set<PreferenceBlock>, r: Request)
  {
    && after.Keys == before.Keys + targets
    && forall b :: b in after ==> after[b] == LogOf(before, b) + (if b in targets then [r] else [])
  }

  /** One call more on a block not yet reached extends the broadcast by that block. */
  lemma SentToEachStep(before: CallLog, mid: CallLog, done: set<PreferenceBlock>, r: Request, b: PreferenceBlock)
    requires SentToEach(before, mid, done, r) && b !in done
    ensures SentToEach(before, AfterCalls(mid, b, [r]), done + {b}, r)
  {
  }

  lemma SentToEachGrows(before: CallLog, after: CallLog, targets: set<PreferenceBlock>, r: Request)
    requires SentToEach(before, after, targets, r)
    ensures LogGrows(before, after)
  {
  }

  /** `ForwardingStatusMonitor`: remembers the latest status and passes it on. */
  class ForwardingStatusMonitor {
    /** `fStatus`; null until the first report, and null again after a null report. */
    var status: Option<Status>
    /** Every status passed on to the wrapped monitor, in order; `None` stands for null. */
    var forwarded: seq<Option<Status>>

    /** The remembered status is the last one passed on. */
    ghost predicate Valid()
      reads this
    {
      status == if forwarded == [] then None else Last(forwarded)
    }

    constructor ()
      ensures Valid() && forwarded == []
    {
      status := None;
      forwarded := [];
    }

    method StatusChanged(st: Option<Status>)
      requires Valid()
      modifies this
      ensures Valid()
      ensures status == st && forwarded == old(forwarded) + [st]
    {
      status := st;
      forwarded := forwarded + [st];
    }

    /** The `statusChanged` calls a block makes while it initializes, in order. */
    method StatusesChanged(sts: seq<Option<Status>>)
      requires Valid()
      modifies this
      ensures Valid()
      ensures forwarded == old(forwarded) + sts
    {
      var k := 0;
      while k < |sts|
        invariant 0 <= k <= |sts|
        invariant Valid()
        invariant forwarded == old(forwarded) + sts[..k]
      {
        StatusChanged(sts[k]);
        assert sts[..k + 1] == sts[..k] + [sts[k]];
        k := k + 1;
      }
      assert sts[..k] == sts;
    }

    /** `getStatus()`: null before any report, else the last status passed on. */
    method GetStatus() returns (st: Option<Status>)
      requires Valid()
      ensures forwarded == [] ==> st.None?
      ensures forwarded != [] ==> st == Last(forwarded)
    {
      st := status;
    }
  }

  /** Every block cached before is still cached, under the same id. */
  ghost predicate CacheExtends(before: map<string, PreferenceBlock>, after: map<string, PreferenceBlock>)
  {
    forall id :: id in before ==> id in after && after[id] == before[id]
  }

  /** `SpellingConfigurationBlock` */
  class ConfigurationBlock {
    /** The overlay store's staged values for its two keys. */
    var enabledPref: bool
    var enginePref: string
    /** The enablement checkbox's selection. */
    var checkbox: bool
    /** Whether `createControl` built the provider combo viewer (more than one descriptor). */
    var hasViewer: bool
    /** The keys added to the overlay store. */
    const storeKeys: seq<OverlayKey>
    const descriptors: map<string, Descriptor>
    /** `fProviderPreferences` */
    var blocks: map<string, PreferenceBlock>
    /** `fProviderControls` */
    var controls: map<string, Control>
    /** The stack layout's top control. */
    var topControl: Option<Control>
    const monitor: ForwardingStatusMonitor
    /** `fCurrentBlock` */
    var current: PreferenceBlock?
    /** The calls this configuration block has made on each preference block. */
    var sent: CallLog

    /**
     * Each cached block is a contributed block filed under its own provider
     * id (so no block is cached twice), and a contributed block shown is the
     * cached one.
     */
    ghost predicate Valid()
      reads this`blocks, this`current, monitor
    {
      && monitor.Valid()
      && (forall id :: id in blocks ==> blocks[id].kind == Contributed(id))
      && (current != null && current.kind.Contributed? ==>
            current.kind.providerId in blocks && blocks[current.kind.providerId] == current)
    }

    /** The calls made so far on `b`. */
    function Sent(b: PreferenceBlock): seq<Request>
      reads this`sent
    {
      LogOf(sent, b)
    }

    /** Every cached block can commit. */
    ghost predicate AllCommittable()
      reads this`blocks
    {
      forall id :: id in blocks ==> blocks[id].CanPerformOk()
    }

    constructor (enabled: bool, engine: string, registry: seq<Descriptor>)
      ensures Valid() && fresh(monitor) && monitor.forwarded == []
      ensures storeKeys == OverlayStoreKeys()
      ensures enabledPref == enabled && enginePref == engine
      ensures blocks == map[] && controls == map[] && current == null && topControl.None? && !hasViewer
      ensures sent == map[]
      // the descriptor map is the list model of the registry
      ensures descriptors.Keys == set i | 0 <= i < |registry| :: registry[i].id
      ensures forall id :: id in descriptors ==> descriptors[id].id == id && descriptors[id] in registry
      ensures forall i :: 0 <= i < |registry| && LastOfItsId(registry, i) ==> descriptors[registry[i].id] == registry[i]
      ensures forall d :: d in registry ==> d.id in descriptors
    {
      enabledPref, enginePref, checkbox, hasViewer := enabled, engine, false, false;
      storeKeys := OverlayStoreKeys();
      var model := CreateListModel(registry);
      descriptors := model;
      blocks, controls, topControl, current, sent := map[], map[], None, null, map[];
      monitor := new ForwardingStatusMonitor();
      new;
      forall d | d in registry ensures d.id in descriptors {
        var i :| 0 <= i < |registry| && registry[i] == d;
      }
    }

    /** The part of `createControl` the model keeps: the combo viewer exists iff there is more than one descriptor. */
    method CreateControl()
      modifies this`hasViewer
      ensures hasViewer == (|descriptors| > 1)
    {
      hasViewer := |descriptors| > 1;
    }

    /** One call `r` on `b`. */
    method Send(b: PreferenceBlock, r: Request)
      modifies this`sent
      ensures sent == AfterCalls(old(sent), b, [r])
    {
      sent := AfterCalls(sent, b, [r]);
    }

    /**
     * The first half of `updateListDependencies()`: the block of descriptor
     * `desc` is taken from the cache, or created and cached the first time;
     * without a descriptor, or when creation throws, an uncached error block.
     */
    method SelectBlock(desc: Option<Descriptor>, inp: Inputs)
      requires Valid()
      modifies this`current, this`blocks
      ensures Valid()
      ensures current != null
      ensures current.kind.ErrorBlock? ==> current.control == Some(inp.panel)
      ensures fresh(current) ==> Sent(current) == []
      ensures desc.None? ==>
        fresh(current) && current.kind == ErrorBlock(NotExistMessage) && blocks == old(blocks)
      ensures desc.Some? && desc.value.id in old(blocks) ==>
        current == old(blocks)[desc.value.id] && blocks == old(blocks)
      ensures desc.Some? && desc.value.id !in old(blocks) && inp.creation.Creates? ==>
        && fresh(current) && current.kind == Contributed(desc.value.id)
        && current.control == inp.creation.control && current.committable == inp.creation.committable
        && blocks == old(blocks)[desc.value.id := current]
      ensures desc.Some? && desc.value.id !in old(blocks) && inp.creation.Throws? ==>
        fresh(current) && current.kind == ErrorBlock(inp.creation.message) && blocks == old(blocks)
    {
      if desc.None? {
        current := new PreferenceBlock.Error(NotExistMessage, inp.panel);
      } else if desc.value.id in blocks {
        current := blocks[desc.value.id];
      } else if inp.creation.Creates? {
        var created := new PreferenceBlock.Contribute(desc.value.id, inp.creation.committable, inp.creation.control);
        current := created;
        blocks := blocks[desc.value.id := created];
      } else {
        current := new PreferenceBlock.Error(inp.creation.message, inp.panel);
      }
    }

    /**
     * The second half's stacking: the control cached under `id`, else the
     * block's own control (from `createControl`), cached, else a fresh error
     * panel that is not cached.
     */
    method SelectControl(id: string, panel: Control)
      requires current != null
      modifies this`controls, this`topControl, this`sent
      ensures sent == if id in old(controls) then old(sent) else AfterCalls(old(sent), current, [CallCreateControl])
      ensures id in old(controls) ==> controls == old(controls) && topControl == Some(old(controls)[id])
      ensures id !in old(controls) && current.control.Some? ==>
        controls == old(controls)[id := current.control.value] && topControl == current.control
      ensures id !in old(controls) && current.control.None? ==>
        controls == old(controls) && topControl == Some(panel)
    {
      var control: Control;
      if id in controls {
        control := controls[id];
      } else {
        Send(current, CallCreateControl);
        if current.control.Some? {
          control := current.control.value;
          controls := controls[id := control];
        } else {
          control := panel;
        }
      }
      topControl := Some(control);
    }

    /**
     * The block of descriptor `desc` (none: an error block) is shown, against
     * the state before: it is taken from the cache, or created and cached the
     * first time, or it is an uncached error block; its control is shown
     * (cached if non-null); it is sent `createControl` (unless the id has a
     * cached control) and `initialize`, and no other block is sent anything:
     * the log becomes `before` with those calls.
     */
    twostate predicate BlockShown(new desc: Option<Descriptor>, inp: Inputs, before: CallLog)
      reads this
    {
      var id := ActiveId(desc);
      && current != null && CacheExtends(old(blocks), blocks)
      // which block is shown, and what the cache becomes
      && (desc.None? ==> fresh(current) && current.kind == ErrorBlock(NotExistMessage) && blocks == old(blocks))
      && (desc.Some? && desc.value.id in old(blocks) ==> current == old(blocks)[desc.value.id] && blocks == old(blocks))
      && (desc.Some? && desc.value.id !in old(blocks) && inp.creation.Creates? ==>
            && fresh(current) && current.kind == Contributed(desc.value.id)
            && current.control == inp.creation.control && current.committable == inp.creation.committable
            && blocks == old(blocks)[desc.value.id := current])
      && (desc.Some? && desc.value.id !in old(blocks) && inp.creation.Throws? ==>
            fresh(current) && current.kind == ErrorBlock(inp.creation.message) && blocks == old(blocks))
      && (current.kind.ErrorBlock? ==> current.control == Some(inp.panel))
      // which calls the blocks receive
      && sent == AfterCalls(before, current, SetupCalls(id !in old(controls)))
      && (fresh(current) ==> Sent(current) == SetupCalls(id !in old(controls)))
      // which control is shown, and what the control cache becomes
      && (id in old(controls) ==> controls == old(controls) && topControl == Some(old(controls)[id]))
      && (id !in old(controls) && current.control.Some? ==>
            controls == old(controls)[id := current.control.value] && topControl == current.control)
      && (id !in old(controls) && current.control.None? ==> controls == old(controls) && topControl == Some(inp.panel))
    }

    /**
     * What `updateListDependencies()` leaves behind: the block of the active
     * descriptor is shown, and the monitor is reset to a fresh OK status
     * before the block reports while it initializes.
     */
    twostate predicate ListUpdated(svc: Service, inp: Inputs, before: CallLog)
      reads this, monitor
    {
      && enabledPref == old(enabledPref) && checkbox == old(checkbox) && hasViewer == old(hasViewer)
      && BlockShown(svc.active(enginePref), inp, before)
      && monitor.forwarded == old(monitor.forwarded) + [Some(FreshStatus)] + InitReports(current.kind, inp.reports)
    }

    /**
     * `updateListDependencies()`: show the block of the active descriptor and
     * its control, reset the monitor to a fresh OK status, and let the block
     * initialize (a contributed block may report statuses then).
     */
    method UpdateListDependencies(svc: Service, inp: Inputs)
      requires Valid()
      modifies this, monitor
      ensures Valid()
      ensures enginePref == old(enginePref)
      ensures ListUpdated(svc, inp, old(sent))
      ensures CacheExtends(old(blocks), blocks) && LogGrows(old(sent), sent)
    {
      ShowBlock(svc.active(enginePref), inp);
      AfterCallsGrows(old(sent), current, SetupCalls(ActiveId(svc.active(enginePref)) !in old(controls)));
      monitor.StatusChanged(Some(FreshStatus));
      if current.kind.Contributed? {
        monitor.StatusesChanged(inp.reports);
      }
    }

    /** The first half of `updateListDependencies()` with the block's setup calls. */
    method ShowBlock(desc: Option<Descriptor>, inp: Inputs)
      requires Valid()
      modifies this`current, this`blocks, this`controls, this`topControl, this`sent
      ensures Valid()
      ensures BlockShown(desc, inp, old(sent))
    {
      SelectBlock(desc, inp);
      ShowCurrent(ActiveId(desc), inp.panel);
    }

    /** The control of the block shown is put on top, and the block is initialized. */
    method ShowCurrent(id: string, panel: Control)
      requires current != null
      modifies this`controls, this`topControl, this`sent
      ensures sent == AfterCalls(old(sent), current, SetupCalls(id !in old(controls)))
      ensures id in old(controls) ==> controls == old(controls) && topControl == Some(old(controls)[id])
      ensures id !in old(controls) && current.control.Some? ==>
        controls == old(controls)[id := current.control.value] && topControl == current.control
      ensures id !in old(controls) && current.control.None? ==>
        controls == old(controls) && topControl == Some(panel)
    {
      ghost var hadControl := id in controls;
      SelectControl(id, panel);
      Send(current, CallInitialize);
      if hadControl {
        assert SetupCalls(false) == [CallInitialize];
      } else {
        AfterCallsCompose(old(sent), current, [CallCreateControl], [CallInitialize]);
      }
    }

    /** Nothing of the model changed, and no block was sent a call. */
    twostate predicate Untouched()
      reads this, monitor
    {
      && enabledPref == old(enabledPref) && enginePref == old(enginePref)
      && checkbox == old(checkbox) && hasViewer == old(hasViewer)
      && blocks == old(blocks) && controls == old(controls)
      && current == old(current) && topControl == old(topControl) && monitor.forwarded == old(monitor.forwarded)
      && sent == old(sent)
    }

    /**
     * What the selection listener leaves behind for `selection`: nothing
     * changes for an empty selection or when the user keeps a block in error;
     * otherwise the block shown before is sent `performRevert` exactly when
     * the user agreed to discard, the selected engine id is stored, and the
     * list dependencies are updated.
     */
    twostate predicate SelectionHandled(svc: Service, selection: Option<Descriptor>, inp: Inputs)
      reads this, monitor
    {
      var guard := SwitchGuard(old(current) != null, old(monitor.status), inp.discard);
      && (selection.None? || guard == Stay ==> Untouched())
      && (selection.Some? && guard != Stay ==>
            && enginePref == selection.value.id
            && ListUpdated(svc, inp,
                 if guard == RevertThenProceed then AfterCalls(old(sent), old(current), [CallPerformRevert]) else old(sent)))
    }

    /**
     * The selection listener of the provider viewer: ignore an empty
     * selection; apply the switch guard; then store the selected engine id
     * and show its block.
     */
    method SelectionChanged(svc: Service, selection: Option<Descriptor>, inp: Inputs)
      requires Valid()
      modifies this, monitor
      ensures Valid()
      ensures SelectionHandled(svc, selection, inp)
      ensures CacheExtends(old(blocks), blocks) && LogGrows(old(sent), sent)
    {
      if selection.None? {
        return;
      }
      var st := monitor.GetStatus();
      var decision := SwitchGuard(current != null, st, inp.discard);
      if decision == Stay {
        // the combo selection is put back; that is widget state only
        return;
      }
      SwitchTo(svc, selection.value, inp, decision == RevertThenProceed);
    }

    /** The switch once the guard let it through: revert the block shown if asked, store the id, update the list. */
    method SwitchTo(svc: Service, selected: Descriptor, inp: Inputs, revert: bool)
      requires Valid() && (revert ==> current != null)
      modifies this, monitor
      ensures Valid()
      ensures enginePref == selected.id
      ensures ListUpdated(svc, inp, if revert then AfterCalls(old(sent), old(current), [CallPerformRevert]) else old(sent))
      ensures CacheExtends(old(blocks), blocks) && LogGrows(old(sent), sent)
    {
      if revert {
        Send(current, CallPerformRevert);
        AfterCallsGrows(old(sent), old(current), [CallPerformRevert]);
      }
      ghost var beforeUpdate := sent;
      enginePref := selected.id;
      UpdateListDependencies(svc, inp);
      LogGrowsTransitive(old(sent), beforeUpdate, sent);
    }

    /** The enablement checkbox was toggled: stage the value and pass it on. */
    method CheckboxSelected(svc: Service, selected: bool)
      requires Valid()
      modifies this`enabledPref, this`checkbox, this`sent
      ensures Valid()
      ensures enabledPref == selected && checkbox == selected
      ensures var id := ActiveId(svc.active(enginePref));
        sent == if id in blocks then AfterCalls(old(sent), blocks[id], [CallSetEnabled(selected)]) else old(sent)
    {
      enabledPref := selected;
      checkbox := selected;
      UpdateCheckboxDependencies(svc);
    }

    /** `updateCheckboxDependencies()`: the cached block of the active engine follows the checkbox. */
    method UpdateCheckboxDependencies(svc: Service)
      modifies this`sent
      ensures var id := ActiveId(svc.active(enginePref));
        sent == if id in blocks then AfterCalls(old(sent), blocks[id], [CallSetEnabled(checkbox)]) else old(sent)
      ensures var id := ActiveId(svc.active(enginePref));
        id in blocks ==> |Sent(blocks[id])| > 0 && Last(Sent(blocks[id])) == CallSetEnabled(checkbox)
      ensures LogGrows(old(sent), sent)
    {
      var id := ActiveId(svc.active(enginePref));
      if id in blocks {
        AfterCallsGrows(sent, blocks[id], [CallSetEnabled(checkbox)]);
        Send(blocks[id], CallSetEnabled(checkbox));
      }
    }

    /** Send `r` to every cached block, once each, and to no other block. */
    method Broadcast(r: Request)
      requires Valid()
      modifies this`sent
      ensures SentToEach(old(sent), sent, blocks.Values, r)
    {
      var pending := blocks.Keys;
      ghost var done: set<PreferenceBlock> := {};
      while pending != {}
        invariant pending <= blocks.Keys && done <= blocks.Values
        invariant forall id :: id in blocks ==> (blocks[id] in done <==> id !in pending)
        invariant SentToEach(old(sent), sent, done, r)
        decreases pending
      {
        var id :| id in pending;
        SentToEachStep(old(sent), sent, done, r, blocks[id]);
        Send(blocks[id], r);
        done := done + {blocks[id]};
        pending := pending - {id};
      }
      assert done == blocks.Values by {
        forall b | b in blocks.Values ensures b in done {
          var id :| id in blocks && blocks[id] == b;
        }
      }
    }

    /** The first loop of `performOk()`: does every cached block agree to commit? */
    method CanCommitAll() returns (ok: bool)
      ensures ok <==> AllCommittable()
    {
      var pending := blocks.Keys;
      while pending != {}
        invariant pending <= blocks.Keys
        invariant forall id :: id in blocks && id !in pending ==> blocks[id].CanPerformOk()
        decreases pending
      {
        var id :| id in pending;
        if !blocks[id].CanPerformOk() {
          return false;
        }
        pending := pending - {id};
      }
      ok := true;
    }

    /** `performOk()`: all or nothing. */
    method PerformOk()
      requires Valid()
      modifies this`sent
      ensures AllCommittable() ==> SentToEach(old(sent), sent, blocks.Values, CallPerformOk)
      ensures !AllCommittable() ==> sent == old(sent)
    {
      var ok := CanCommitAll();
      if !ok {
        return;
      }
      Broadcast(CallPerformOk);
    }

    /**
     * The middle of `restoreFromPreferences()`: without a viewer the list
     * dependencies are updated directly; with one the viewer is set to the
     * active descriptor, which notifies the selection listener.
     */
    method ShowActiveProvider(svc: Service, inp: Inputs)
      requires Valid()
      modifies this, monitor
      ensures Valid()
      ensures !hasViewer ==> enginePref == old(enginePref) && ListUpdated(svc, inp, old(sent))
      ensures hasViewer && svc.active(old(enginePref)).None? ==> Untouched()
      ensures hasViewer && svc.active(old(enginePref)).Some? ==> SelectionHandled(svc, svc.active(old(enginePref)), inp)
      ensures checkbox == old(checkbox) && enabledPref == old(enabledPref) && (!hasViewer ==> current != null)
      ensures CacheExtends(old(blocks), blocks) && LogGrows(old(sent), sent)
    {
      if !hasViewer {
        UpdateListDependencies(svc, inp);
      } else {
        var desc := svc.active(enginePref);
        if desc.Some? {
          SelectionChanged(svc, desc, inp);
        }
      }
    }

    /**
     * `restoreFromPreferences()`: the checkbox shows the staged enablement,
     * the active provider is shown, and its cached block follows the checkbox.
     */
    method RestoreFromPreferences(svc: Service, inp: Inputs)
      requires Valid()
      modifies this, monitor
      ensures Valid()
      ensures checkbox == enabledPref && enabledPref == old(enabledPref)
      ensures CacheExtends(old(blocks), blocks) && LogGrows(old(sent), sent)
      ensures !hasViewer ==> current != null
      // the active provider's cached block ends up following the checkbox
      ensures var id := ActiveId(svc.active(enginePref));
        id in blocks ==> |Sent(blocks[id])| > 0 && Last(Sent(blocks[id])) == CallSetEnabled(enabledPref)
    {
      checkbox := enabledPref;
      ShowActiveProvider(svc, inp);
      ghost var beforeCheckbox := sent;
      UpdateCheckboxDependencies(svc);
      LogGrowsTransitive(old(sent), beforeCheckbox, sent);
    }

    /** `initialize()` */
    method Initialize(svc: Service, inp: Inputs)
      requires Valid()
      modifies this, monitor
      ensures Valid()
      ensures checkbox == enabledPref && enabledPref == old(enabledPref)
      ensures CacheExtends(old(blocks), blocks) && LogGrows(old(sent), sent)
      ensures !hasViewer ==> current != null
      ensures var id := ActiveId(svc.active(enginePref));
        id in blocks ==> |Sent(blocks[id])| > 0 && Last(Sent(blocks[id])) == CallSetEnabled(enabledPref)
    {
      RestoreFromPreferences(svc, inp);
    }

    /** `performDefaults()`: restore, then every cached block restores its defaults. */
    method PerformDefaults(svc: Service, inp: Inputs)
      requires Valid()
      modifies this, monitor
      ensures Valid()
      ensures checkbox == enabledPref && enabledPref == old(enabledPref)
      ensures CacheExtends(old(blocks), blocks) && LogGrows(old(sent), sent)
      ensures forall id :: id in blocks ==> |Sent(blocks[id])| > 0 && Last(Sent(blocks[id])) == CallPerformDefaults
      ensures forall id :: id in old(blocks) ==> LogOf(old(sent), blocks[id]) < Sent(blocks[id])
    {
      RestoreFromPreferences(svc, inp);
      ghost var restored := sent;
      Broadcast(CallPerformDefaults);
      SentToEachGrows(restored, sent, blocks.Values, CallPerformDefaults);
      LogGrowsTransitive(old(sent), restored, sent);
      forall id | id in blocks
        ensures Sent(blocks[id]) == LogOf(restored, blocks[id]) + [CallPerformDefaults]
      {
        assert blocks[id] in blocks.Values;
      }
    }

    /** `dispose()`: every cached block is disposed once, and no other block is sent anything. */
    method Dispose()
      requires Valid()
      modifies this`sent
      ensures SentToEach(old(sent), sent, blocks.Values, CallDispose)
    {
      Broadcast(CallDispose);
    }
  }
}
