/**
 * The bookkeeping of the Find/Replace action: the dialog stub that follows the
 * active workbench part, the two global stub slots (one per anchor mode), and
 * the action's `run` and `update`.
 *
 * Parts, targets, shells and windows are opaque identities; Java's reference
 * comparisons are equality on them, and a Java null is `None`.  The host's
 * answers (adapter lookup, editability, the part's site) are the fields of a
 * `Workbench` value.  A dialog is the record of what was done to it.
 */
module FindReplace {
  import opened Wrappers

  datatype Part = Part(id: nat)
  datatype Target = Target(id: nat)
  datatype Shell = Shell(id: nat)
  datatype Window = Window(id: nat)

  /** What the workbench answers about parts and find/replace targets. */
  datatype Workbench = Workbench(
    adapter: Part -> Option<Target>,        // part.getAdapter(IFindReplaceTarget.class)
    inputModifiable: Part -> Option<bool>,  // Some(b) iff the part is an ITextEditorExtension2 answering b
    editable: Target -> bool,               // target.isEditable()
    canPerformFind: Target -> bool,         // target.canPerformFind()
    siteShell: Part -> Shell,               // part.getSite().getShell()
    siteWindow: Part -> Window,             // part.getSite().getWorkbenchWindow()
    activePart: Window -> Option<Part>)     // window.getPartService().getActivePart()

  /** One call of `FindReplaceDialog.updateTarget(target, isTargetEditable, initializeFindString)`. */
  datatype TargetUpdate = TargetUpdate(target: Option<Target>, editable: bool, initFindString: bool)

  /**
   * A find/replace dialog: its parent shell, every `updateTarget` it received,
   * and whether it was opened.  Closing a dialog disposes its shell, and the
   * stub drops the dialog then, so a closed dialog is never looked at again.
   */
  datatype Dialog = Dialog(parentShell: Shell, updates: seq<TargetUpdate>, isOpen: bool)

  function NewDialog(shell: Shell): Dialog
  {
    Dialog(shell, [], false)
  }

  /** The dialog (if any) after one more `updateTarget` call. */
  function Retargeted(d: Option<Dialog>, u: TargetUpdate): Option<Dialog>
  {
    if d.Some? then Some(d.value.(updates := d.value.updates + [u])) else None
  }

  /** The find/replace target a part adapts to; a null part has none. */
  function TargetOf(h: Workbench, p: Option<Part>): Option<Target>
  {
    if p.Some? then h.adapter(p.value) else None
  }

  /**
   * The editability handed to the dialog: the part's "input modifiable"
   * answer when the part has that capability, otherwise the target's own flag,
   * and false when there is no target to ask.
   */
  function Editable(h: Workbench, part: Option<Part>, target: Option<Target>): (r: bool)
    ensures part.Some? && h.inputModifiable(part.value).Some? ==> r == h.inputModifiable(part.value).value
    ensures part.None? || h.inputModifiable(part.value).None? ==> (r <==> target.Some? && h.editable(target.value))
    ensures part.None? && target.None? ==> !r
  {
    if part.Some? && h.inputModifiable(part.value).Some? then h.inputModifiable(part.value).value
    else if target.Some? then h.editable(target.value)
    else false
  }

  /*
   * The stub as a value, and the transitions its listener methods make.
   */

  datatype StubState = StubState(
    part: Option<Part>,
    previousPart: Option<Part>,
    previousTarget: Option<Target>,
    window: Option<Window>,
    dialog: Option<Dialog>)

  /** `partActivated(p)` */
  function Activated(s: StubState, h: Workbench, p: Option<Part>): (r: StubState)
    // the stub tracks p exactly when p adapts to a target; the old part becomes the previous one
    ensures r.part.Some? <==> TargetOf(h, p).Some?
    ensures r.part.Some? ==> r.part == p
    ensures r.previousPart == s.part
    ensures r.previousTarget == TargetOf(h, p)
    ensures r.window == s.window
    // the dialog is retargeted only when the target differs from the previous one
    ensures TargetOf(h, p) == s.previousTarget ==> r.dialog == s.dialog
    ensures TargetOf(h, p) != s.previousTarget ==>
      r.dialog == Retargeted(s.dialog, TargetUpdate(TargetOf(h, p), Editable(h, r.part, TargetOf(h, p)), false))
  {
    var t := TargetOf(h, p);
    var tracked := if t.None? then None else p;
    if s.previousTarget == t then
      s.(previousPart := s.part, part := tracked)
    else
      s.(previousPart := s.part, part := tracked, previousTarget := t,
         dialog := Retargeted(s.dialog, TargetUpdate(t, Editable(h, tracked, t), false)))
  }

  /** The first half of `partClosed(p)`: closing the previous part forgets it and the previous target. */
  function Forgotten(s: StubState, p: Part): StubState
  {
    if s.previousPart == Some(p) then s.(previousPart := None, previousTarget := None) else s
  }

  /** `partClosed(p)` */
  function Closed(s: StubState, h: Workbench, p: Part): (r: StubState)
    // a closed part is never the tracked part afterwards
    ensures r.part != Some(p)
    ensures r.window == s.window
    // closing an unrelated part changes nothing
    ensures s.part != Some(p) && s.previousPart != Some(p) ==> r == s
    // closing the previous part clears the previous part and the previous target
    ensures s.part != Some(p) && s.previousPart == Some(p) ==>
      r == s.(previousPart := None, previousTarget := None)
    // closing the tracked part is activation of no part
    ensures s.part == Some(p) ==> r == Activated(Forgotten(s, p), h, None)
    ensures s.part == Some(p) ==> r.part.None? && r.previousPart == Some(p) && r.previousTarget.None?
    ensures s.part == Some(p) ==>
      r.dialog == if Forgotten(s, p).previousTarget.Some? then Retargeted(s.dialog, TargetUpdate(None, false, false)) else s.dialog
  {
    var s1 := Forgotten(s, p);
    if s1.part == Some(p) then Activated(s1, h, None) else s1
  }

  /** `widgetDisposed`: the stub lets go of everything (its slots are cleared by the method). */
  function Disposed(s: StubState): (r: StubState)
    ensures r.part.None? && r.previousPart.None? && r.previousTarget.None?
    ensures r.window.None? && r.dialog.None?
  {
    StubState(None, None, None, None, None)
  }

  /** `updateTarget(u)` and then `open()` on the stub's dialog. */
  function Opened(s: StubState, u: TargetUpdate): (r: StubState)
    requires s.dialog.Some?
    ensures r.dialog.Some? && r.dialog.value.isOpen && r.dialog.value.parentShell == s.dialog.value.parentShell
    ensures r.dialog.value.updates == s.dialog.value.updates + [u] && Last(r.dialog.value.updates) == u
    ensures r.part == s.part && r.previousPart == s.previousPart
    ensures r.previousTarget == s.previousTarget && r.window == s.window
  {
    s.(dialog := Some(s.dialog.value.(updates := s.dialog.value.updates + [u], isOpen := true)))
  }

  /**
   * A part-anchored stub just made for `site`: a new dialog on the site's
   * shell, the site's window, and the window's active part activated.
   */
  function SiteState(h: Workbench, site: Part): (r: StubState)
    ensures r.dialog.Some? && r.dialog.value.parentShell == h.siteShell(site) && !r.dialog.value.isOpen
    ensures r.window == Some(h.siteWindow(site))
    ensures r.previousPart.None?
  {
    Activated(StubState(None, None, None, Some(h.siteWindow(site)), Some(NewDialog(h.siteShell(site)))),
      h, h.activePart(h.siteWindow(site)))
  }

  /** Activation notifications, one after the other. */
  function ActivateAll(s: StubState, h: Workbench, ps: seq<Option<Part>>): StubState
    decreases |ps|
  {
    if ps == [] then s else ActivateAll(Activated(s, h, ps[0]), h, ps[1..])
  }

  /** How many times the adapted target changes identity along `ps`, starting from `prev`. */
  function TargetChanges(prev: Option<Target>, h: Workbench, ps: seq<Option<Part>>): nat
    decreases |ps|
  {
    if ps == [] then 0
    else (if TargetOf(h, ps[0]) != prev then 1 else 0) + TargetChanges(TargetOf(h, ps[0]), h, ps[1..])
  }

  /** The dialog's latest update names the stub's previous target. */
  ghost predicate Synced(s: StubState)
  {
    s.dialog.Some? && s.dialog.value.updates != [] ==> Last(s.dialog.value.updates).target == s.previousTarget
  }

  /** Re-activating the part just activated leaves the dialog untouched. */
  lemma ActivationIdempotent(s: StubState, h: Workbench, p: Option<Part>)
    ensures Activated(Activated(s, h, p), h, p).dialog == Activated(s, h, p).dialog
    ensures Activated(Activated(s, h, p), h, p) == Activated(s, h, p).(previousPart := Activated(s, h, p).part)
  {
  }

  /** Over any run of activations, the dialog receives exactly one update per change of target identity. */
  lemma {:induction false} UpdatesCountTargetChanges(s: StubState, h: Workbench, ps: seq<Option<Part>>)
    requires s.dialog.Some?
    ensures ActivateAll(s, h, ps).dialog.Some?
    ensures |ActivateAll(s, h, ps).dialog.value.updates| == |s.dialog.value.updates| + TargetChanges(s.previousTarget, h, ps)
    ensures s.dialog.value.updates <= ActivateAll(s, h, ps).dialog.value.updates
    ensures ActivateAll(s, h, ps).dialog.value.parentShell == s.dialog.value.parentShell
    decreases |ps|
  {
    if ps != [] {
      var s1 := Activated(s, h, ps[0]);
      UpdatesCountTargetChanges(s1, h, ps[1..]);
    }
  }

  /** Activations keep the dialog showing the stub's latest target. */
  lemma {:induction false} ActivationsKeepSynced(s: StubState, h: Workbench, ps: seq<Option<Part>>)
    requires Synced(s)
    ensures Synced(ActivateAll(s, h, ps))
    ensures ActivateAll(s, h, ps).previousTarget == if ps == [] then s.previousTarget else TargetOf(h, Last(ps))
    decreases |ps|
  {
    if ps != [] {
      var s1 := Activated(s, h, ps[0]);
      ActivationsKeepSynced(s1, h, ps[1..]);
      if |ps| > 1 {
        assert Last(ps[1..]) == Last(ps);
      }
    }
  }

  /**
   * Closing the previous part forgets the previous target even when that target
   * belongs to the part still tracked, so the dialog is no longer in step with
   * the stub and the next activation of the tracked part updates it again.
   */
  lemma ClosingPreviousPartUnsyncs(s: StubState, h: Workbench, p: Part, q: Part)
    requires s.part == Some(q) && s.previousPart == Some(p) && p != q
    requires s.previousTarget.Some? && s.previousTarget == h.adapter(q) && s.dialog.Some?
    ensures Closed(s, h, p).previousTarget.None?
    ensures Activated(Closed(s, h, p), h, Some(q)).dialog ==
      Retargeted(s.dialog, TargetUpdate(h.adapter(q), Editable(h, Some(q), h.adapter(q)), false))
  {
  }

  /**
   * When the tracked part is also the previous part, closing it clears the
   * previous target first, so the dialog is not retargeted to "no target".
   */
  lemma ClosingTwiceActivatedPartKeepsDialog(s: StubState, h: Workbench, p: Part)
    requires s.part == Some(p) && s.previousPart == Some(p)
    ensures Closed(s, h, p).dialog == s.dialog
    ensures Closed(s, h, p).part.None?
  {
  }

  /** A global slot after `stub` removes itself: it never holds `stub`, and another stub stays. */
  function Vacate(slot: DialogStub?, stub: DialogStub): (r: DialogStub?)
    ensures r != stub
    ensures slot != stub ==> r == slot
    ensures slot == stub ==> r == null
  {
    if slot == stub then null else slot
  }

  /** `FindReplaceAction.FindReplaceDialogStub` */
  class DialogStub {
    var part: Option<Part>
    var previousPart: Option<Part>
    var previousTarget: Option<Target>
    var window: Option<Window>
    var dialog: Option<Dialog>

    function State(): StubState
      reads this
    {
      StubState(part, previousPart, previousTarget, window, dialog)
    }

    /** The stub still owns a dialog: its shell has not been disposed. */
    predicate Live()
      reads this
    {
      dialog.Some?
    }

    /** The shell-anchored stub: a fresh dialog on `shell`, no part tracking. */
    constructor ForShell(shell: Shell)
      ensures State() == StubState(None, None, None, None, Some(NewDialog(shell)))
      ensures Live()
    {
      part, previousPart, previousTarget, window := None, None, None, None;
      dialog := Some(NewDialog(shell));
    }

    /** The part-anchored stub: a fresh dialog on the site's shell, then activation of the window's active part. */
    constructor ForSite(h: Workbench, site: Part)
      ensures State() == SiteState(h, site)
      ensures Live()
    {
      part, previousPart, previousTarget := None, None, None;
      dialog := Some(NewDialog(h.siteShell(site)));
      window := Some(h.siteWindow(site));
      new;
      PartActivated(h, h.activePart(h.siteWindow(site)));
    }

    method PartActivated(h: Workbench, p: Option<Part>)
      modifies this
      ensures State() == Activated(old(State()), h, p)
    {
      var target := TargetOf(h, p);
      previousPart := part;
      part := if target.None? then None else p;
      if previousTarget != target {
        previousTarget := target;
        if dialog.Some? {
          var isEditable := Editable(h, part, target);
          dialog := Some(dialog.value.(updates := dialog.value.updates + [TargetUpdate(target, isEditable, false)]));
        }
      }
    }

    method PartClosed(h: Workbench, p: Part)
      modifies this
      ensures State() == Closed(old(State()), h, p)
    {
      if Some(p) == previousPart {
        previousPart := None;
        previousTarget := None;
      }
      if Some(p) == part {
        PartActivated(h, None);
      }
    }

    /** The dialog's shell was disposed: leave both slots and drop every reference. */
    method WidgetDisposed(slots: Slots)
      modifies this, slots
      ensures State() == Disposed(old(State()))
      ensures slots.partStub == Vacate(old(slots.partStub), this)
      ensures slots.shellStub == Vacate(old(slots.shellStub), this)
      ensures old(slots.Valid()) ==> slots.Valid()
    {
      if slots.partStub == this {
        slots.partStub := null;
      }
      if slots.shellStub == this {
        slots.shellStub := null;
      }
      window := None;
      dialog := None;
      part := None;
      previousPart := None;
      previousTarget := None;
    }

    /**
     * When the dialog sits on another shell than `shell`, leave both slots and
     * close the dialog.  Closing disposes the dialog's shell, whose dispose
     * listener is this stub: `widgetDisposed` runs before `close` returns.
     */
    method CheckShell(shell: Shell, slots: Slots)
      modifies this, slots
      ensures old(dialog).Some? && old(dialog).value.parentShell != shell ==>
        && slots.partStub == Vacate(old(slots.partStub), this)
        && slots.shellStub == Vacate(old(slots.shellStub), this)
        && State() == Disposed(old(State()))
      ensures !(old(dialog).Some? && old(dialog).value.parentShell != shell) ==>
        && slots.partStub == old(slots.partStub)
        && slots.shellStub == old(slots.shellStub)
        && State() == old(State())
      ensures old(slots.Valid()) ==> slots.Valid()
    {
      if dialog.Some? && shell != dialog.value.parentShell {
        if slots.partStub == this {
          slots.partStub := null;
        }
        if slots.shellStub == this {
          slots.shellStub := null;
        }
        WidgetDisposed(slots);
      }
    }

    /** `dialog.updateTarget(...)` followed by `dialog.open()` on the stub's dialog. */
    method ShowTarget(u: TargetUpdate)
      requires dialog.Some?
      modifies this
      ensures State() == Opened(old(State()), u)
    {
      dialog := Some(dialog.value.(updates := dialog.value.updates + [u], isOpen := true));
    }
  }

  /** The two static slots `fgFindReplaceDialogStub` (part mode) and `fgFindReplaceDialogStubShell` (shell mode). */
  class Slots {
    var partStub: DialogStub?
    var shellStub: DialogStub?

    constructor ()
      ensures partStub == null && shellStub == null
    {
      partStub, shellStub := null, null;
    }

    /** A stub in a slot owns an open dialog, and no stub sits in both slots. */
    ghost predicate Valid()
      reads this, partStub, shellStub
    {
      && (partStub != null ==> partStub.Live())
      && (shellStub != null ==> shellStub.Live())
      && (partStub == null || partStub != shellStub)
    }
  }

  /** The stub in `stub` shows its dialog opened with `u` as the latest update. */
  ghost predicate Shows(stub: DialogStub?, u: TargetUpdate)
    reads stub
  {
    stub != null && stub.dialog.Some? && stub.dialog.value.isOpen
    && stub.dialog.value.updates != [] && Last(stub.dialog.value.updates) == u
  }

  /** `FindReplaceAction` */
  class Action {
    var target: Option<Target>
    var workbenchPart: Option<Part>
    var workbenchWindow: Option<Window>
    var shell: Option<Shell>
    var enabled: bool

    /** Outside shell mode a target only comes from a part. */
    ghost predicate Valid()
      reads this
    {
      shell.None? && target.Some? ==> workbenchPart.Some?
    }

    constructor ForPart(h: Workbench, part: Part)
      ensures Valid() && shell.None? && workbenchPart == Some(part)
      ensures target == h.adapter(part)
      ensures enabled <==> target.Some? && h.canPerformFind(target.value)
    {
      target, workbenchPart, workbenchWindow, shell, enabled := None, Some(part), None, None, false;
      new;
      Update(h);
    }

    constructor ForShell(h: Workbench, shell: Shell, target: Target)
      ensures Valid() && this.shell == Some(shell) && this.target == Some(target)
      ensures enabled == h.canPerformFind(target)
    {
      this.target, workbenchPart, workbenchWindow, this.shell, enabled := Some(target), None, None, Some(shell), false;
      new;
      Update(h);
    }

    /** The deprecated window-based action: its part is the window's active part at the first update. */
    constructor ForWindow(h: Workbench, window: Option<Window>)
      ensures Valid() && shell.None? && workbenchWindow == window
      ensures workbenchPart == if window.Some? then h.activePart(window.value) else None
      ensures target == TargetOf(h, workbenchPart)
      ensures enabled <==> target.Some? && h.canPerformFind(target.value)
    {
      target, workbenchPart, workbenchWindow, shell, enabled := None, None, window, None, false;
      new;
      Update(h);
    }

    /** `update()`: re-resolve the target outside shell mode, then enable iff the target can find. */
    method Update(h: Workbench)
      modifies this
      ensures Valid()
      ensures shell == old(shell) && workbenchWindow == old(workbenchWindow)
      ensures shell.Some? ==> target == old(target) && workbenchPart == old(workbenchPart)
      ensures shell.None? ==>
        workbenchPart == if old(workbenchPart).None? && workbenchWindow.Some? then h.activePart(workbenchWindow.value)
                         else old(workbenchPart)
      ensures shell.None? ==> target == TargetOf(h, workbenchPart)
      ensures enabled <==> target.Some? && h.canPerformFind(target.value)
    {
      if shell.None? {
        if workbenchPart.None? && workbenchWindow.Some? {
          workbenchPart := h.activePart(workbenchWindow.value);
        }
        if workbenchPart.Some? {
          target := h.adapter(workbenchPart.value);
        } else {
          target := None;
        }
      }
      enabled := target.Some? && h.canPerformFind(target.value);
    }

    /** The update `run` hands to the dialog. */
    function RunUpdate(h: Workbench): TargetUpdate
      reads this
    {
      TargetUpdate(target, Editable(h, if shell.None? then workbenchPart else None, target), true)
    }

    /**
     * `run()`: nothing without a target; otherwise keep the mode's stub when its
     * dialog is on the expected shell (else close it and make a new stub), then
     * retarget the dialog and open it.
     */
    method Run(h: Workbench, slots: Slots)
      requires Valid() && slots.Valid()
      modifies slots, slots.partStub, slots.shellStub
      ensures slots.Valid()
      ensures target.None? ==>
        && slots.partStub == old(slots.partStub) && slots.shellStub == old(slots.shellStub)
        && (slots.partStub != null ==> slots.partStub.State() == old(slots.partStub.State()))
        && (slots.shellStub != null ==> slots.shellStub.State() == old(slots.shellStub.State()))
      // part mode: the part stub is kept when its dialog sits on the part's site shell, replaced otherwise
      ensures target.Some? && shell.None? ==>
        && Shows(slots.partStub, RunUpdate(h)) && slots.shellStub == old(slots.shellStub)
        && (slots.shellStub != null ==> slots.shellStub.State() == old(slots.shellStub.State()))
      ensures target.Some? && shell.None? ==>
        var kept := old(slots.partStub) != null
          && old(slots.partStub.dialog.value.parentShell) == h.siteShell(workbenchPart.value);
        && (kept ==> slots.partStub == old(slots.partStub)
                     && slots.partStub.State() == Opened(old(slots.partStub.State()), RunUpdate(h)))
        && (!kept ==> fresh(slots.partStub)
                      && slots.partStub.State() == Opened(SiteState(h, workbenchPart.value), RunUpdate(h)))
        && (!kept && old(slots.partStub) != null ==>
              old(slots.partStub).State() == Disposed(old(slots.partStub.State())))
      // shell mode: the same, against the action's own shell
      ensures target.Some? && shell.Some? ==>
        && Shows(slots.shellStub, RunUpdate(h)) && slots.partStub == old(slots.partStub)
        && (slots.partStub != null ==> slots.partStub.State() == old(slots.partStub.State()))
      ensures target.Some? && shell.Some? ==>
        var kept := old(slots.shellStub) != null
          && old(slots.shellStub.dialog.value.parentShell) == shell.value;
        && (kept ==> slots.shellStub == old(slots.shellStub)
                     && slots.shellStub.State() == Opened(old(slots.shellStub.State()), RunUpdate(h)))
        && (!kept ==> fresh(slots.shellStub)
                      && slots.shellStub.State() == Opened(StubState(None, None, None, None, Some(NewDialog(shell.value))), RunUpdate(h)))
        && (!kept && old(slots.shellStub) != null ==>
              old(slots.shellStub).State() == Disposed(old(slots.shellStub.State())))
    {
      if target.None? {
        return;
      }
      var stub: DialogStub;
      if shell.None? {
        var site := workbenchPart.value;
        if slots.partStub != null {
          slots.partStub.CheckShell(h.siteShell(site), slots);
        }
        if slots.partStub == null {
          var created := new DialogStub.ForSite(h, site);
          slots.partStub := created;
        }
        stub := slots.partStub;
      } else {
        if slots.shellStub != null {
          slots.shellStub.CheckShell(shell.value, slots);
        }
        if slots.shellStub == null {
          var created := new DialogStub.ForShell(shell.value);
          slots.shellStub := created;
        }
        stub := slots.shellStub;
      }
      stub.ShowTarget(RunUpdate(h));
    }
  }
}
