/**
 * The control panel binding (src/components/ControlsPanel.tsx): three
 * groups of control values are combined into one settings update, and a
 * single pending timeout debounces the updates sent to the page.
 */
module Controls {
  import opened Values
  import opened PartColors
  import Page

  /** The four part-colour inputs. */
  datatype PartInputs = PartInputs(part1: string, part2: string, part3: string, part4: string)

  /**
   * What the panel's inputs hold at one moment: the model selection, the
   * part colours, and the values of the lighting, material and background
   * group (`settings`).
   */
  datatype PanelValues = PanelValues(selectedModel: string, parts: PartInputs, settings: Settings)

  /** The `Model Selection` group's values. */
  function ModelGroup(selectedModel: string): (g: Settings)
    ensures g.Keys == {"selectedModel"} && g["selectedModel"] == Text(selectedModel)
  {
    map["selectedModel" := Text(selectedModel)]
  }

  /** The `Part Colors` group's values: parts 3 and 4 are exposed only for the 4-piece model. */
  function PartGroup(selectedModel: string, parts: PartInputs): (g: Settings)
    ensures "part1Color" in g && g["part1Color"] == Text(parts.part1)
    ensures "part2Color" in g && g["part2Color"] == Text(parts.part2)
    ensures "part3Color" in g <==> selectedModel == FourPiece
    ensures "part4Color" in g <==> selectedModel == FourPiece
    ensures "part3Color" in g ==> g["part3Color"] == Text(parts.part3)
    ensures "part4Color" in g ==> g["part4Color"] == Text(parts.part4)
    ensures g.Keys <= {"part1Color", "part2Color", "part3Color", "part4Color"}
  {
    var shown := map["part1Color" := Text(parts.part1), "part2Color" := Text(parts.part2)];
    if selectedModel == FourPiece then
      shown + map["part3Color" := Text(parts.part3), "part4Color" := Text(parts.part4)]
    else
      shown
  }

  /** `{...modelSettings, ...partControls, ...settings}`: a later group wins on a shared key. */
  function Combine(modelSettings: Settings, partControls: Settings, settings: Settings): (r: Settings)
    ensures r.Keys == modelSettings.Keys + partControls.Keys + settings.Keys
    ensures forall k :: k in settings ==> r[k] == settings[k]
    ensures forall k :: k in partControls && k !in settings ==> r[k] == partControls[k]
    ensures forall k :: k in modelSettings && k !in partControls && k !in settings ==> r[k] == modelSettings[k]
  {
    modelSettings + partControls + settings
  }

  /** The update the panel sends for the values `p`. */
  function CombinedSettings(p: PanelValues): (c: Settings)
    ensures "selectedModel" in c && "part1Color" in c && "part2Color" in c
    ensures forall k :: k in p.settings ==> k in c && c[k] == p.settings[k]
    ensures "part1Color" !in p.settings ==> c["part1Color"] == Text(p.parts.part1)
    ensures "part3Color" in c <==> p.selectedModel == FourPiece || "part3Color" in p.settings
    ensures "part4Color" in c <==> p.selectedModel == FourPiece || "part4Color" in p.settings
  {
    Combine(ModelGroup(p.selectedModel), PartGroup(p.selectedModel, p.parts), p.settings)
  }

  /** The lighting, material and background group exposes exactly the page's twelve fields. */
  predicate WellFormedPanel(p: PanelValues) {
    p.settings.Keys == Page.SettingsFields
  }

  /** The sent update carries the model, both first part colours and the twelve fields; parts 3 and 4 only for the 4-piece model. */
  lemma CombinedKeys(p: PanelValues)
    requires WellFormedPanel(p)
    ensures var c := CombinedSettings(p);
      && "selectedModel" in c && c["selectedModel"] == Text(p.selectedModel)
      && Page.SettingsFields <= c.Keys
      && ("part3Color" in c <==> p.selectedModel == FourPiece)
      && ("part4Color" in c <==> p.selectedModel == FourPiece)
  {
    var parts := PartGroup(p.selectedModel, p.parts);
    GroupKeysAreNotFields();
    assert "selectedModel" !in parts.Keys;
  }

  /** The model and part keys are not among the page's twelve fields. */
  lemma GroupKeysAreNotFields()
    ensures "selectedModel" !in Page.SettingsFields
    ensures "part1Color" !in Page.SettingsFields && "part2Color" !in Page.SettingsFields
    ensures "part3Color" !in Page.SettingsFields && "part4Color" !in Page.SettingsFields
  {
  }

  /**
   * With the 2-piece model selected the update carries no part-3 or part-4
   * colour, so the merge keeps whatever the page held for them.
   */
  lemma TwoPieceKeepsHiddenPartColors(held: Settings, p: PanelValues)
    requires WellFormedPanel(p) && p.selectedModel != FourPiece
    ensures Lookup(Page.Merge(held, CombinedSettings(p)), "part3Color") == Lookup(held, "part3Color")
    ensures Lookup(Page.Merge(held, CombinedSettings(p)), "part4Color") == Lookup(held, "part4Color")
  {
    assert "part3Color" !in Page.SettingsFields && "part4Color" !in Page.SettingsFields;
  }

  /** The initial values of the panel's inputs. */
  const DefaultModel: string := FourPiece
  const DefaultParts: PartInputs := PartInputs("#666666", "#aaaaaa", "#888888", "#999999")

  function DefaultGroupSettings(): (g: Settings)
    ensures g.Keys == Page.SettingsFields
  {
    map[
      "hdriIntensity" := Number(Finite(1.0)),
      "environmentRotation" := Number(Finite(0.0)),
      "directionalLightIntensity" := Number(Finite(1.0)),
      "directionalLightAngle" := Number(Finite(45.0)),
      "ambientLightColor" := Text("#ffffff"),
      "ambientLightIntensity" := Number(Finite(0.5)),
      "roughness" := Number(Finite(0.5)),
      "metalness" := Number(Finite(0.0)),
      "backgroundType" := Text("hdri"),
      "backgroundColor" := Text("#2a2a2a"),
      "enableShadows" := Flag(true),
      "shadowOpacity" := Number(Finite(0.3))
    ]
  }

  function DefaultPanel(): (p: PanelValues)
    ensures WellFormedPanel(p)
    ensures p.selectedModel == "4-piece.glb"
    ensures p.parts == PartInputs("#666666", "#aaaaaa", "#888888", "#999999")
  {
    PanelValues(DefaultModel, DefaultParts, DefaultGroupSettings())
  }

  /** What the page holds after merging one update from the panel: the panel's values for every field the update carries. */
  lemma MergedUpdate(held: Settings, p: PanelValues)
    requires WellFormedPanel(p)
    ensures var r := Page.Merge(held, CombinedSettings(p));
      && (forall k :: k in Page.SettingsFields ==> r[k] == p.settings[k])
      && r["selectedModel"] == Text(p.selectedModel)
      && r["part1Color"] == Text(p.parts.part1) && r["part2Color"] == Text(p.parts.part2)
      && (p.selectedModel == FourPiece ==> r["part3Color"] == Text(p.parts.part3) && r["part4Color"] == Text(p.parts.part4))
  {
    GroupKeysAreNotFields();
  }

  /**
   * The panel's defaults agree with the page's default record on all twelve
   * shared fields, so the first update leaves them as they were and adds
   * the 4-piece model with its four part colours.
   */
  lemma FirstUpdateAgreesWithDefaults(p: PanelValues)
    requires p == DefaultPanel()
    ensures WellFormedPanel(p)
    ensures var held := Page.Merge(Page.DefaultSettings(), CombinedSettings(p));
      && (forall k :: k in Page.SettingsFields ==> held[k] == Page.DefaultSettings()[k])
      && held["selectedModel"] == Text("4-piece.glb")
      && held["part1Color"] == Text("#666666") && held["part2Color"] == Text("#aaaaaa")
      && held["part3Color"] == Text("#888888") && held["part4Color"] == Text("#999999")
  {
    ControlDefaultsMatchPage();
    MergedUpdate(Page.DefaultSettings(), p);
  }

  /** The panel's initial lighting, material and background values are the page's default record. */
  lemma ControlDefaultsMatchPage()
    ensures DefaultGroupSettings() == Page.DefaultSettings()
  {
    assert DefaultGroupSettings().Keys == Page.DefaultSettings().Keys;
  }

  // ---------------------------------------------------------------------
  // Debounce: the effect that watches the three groups.
  // ---------------------------------------------------------------------

  type TimerId = nat

  /**
   * The binding's state: `updateTimeoutRef.current`, the timeouts this
   * panel has scheduled and that have neither fired nor been cleared (each
   * holding the values its callback closed over), and the handle the next
   * `setTimeout` returns.
   */
  datatype Binding = Binding(timeoutRef: Option<TimerId>, timers: map<TimerId, PanelValues>, nextTimer: TimerId)

  /**
   * What can happen to the binding: the effect re-runs because the values
   * changed, a scheduled timeout fires (and `onSettingsChange` may throw),
   * or the panel unmounts.
   */
  datatype Event = ValuesChanged(values: PanelValues) | TimerFires(id: TimerId, deliveryThrows: bool) | Unmount

  /** No timeout handed out and none live: the state before mounting and after teardown. */
  const Idle: Binding := Binding(None, map[], 0)

  /** A live timeout is the one the ref holds, and the ref holds a handle already handed out. */
  predicate Inv(b: Binding) {
    && (forall id :: id in b.timers ==> b.timeoutRef == Some(id))
    && (b.timeoutRef.Some? ==> b.timeoutRef.value < b.nextTimer)
  }

  /** `if (updateTimeoutRef.current) clearTimeout(updateTimeoutRef.current)`. */
  function ClearPending(b: Binding): (c: Binding)
    ensures c.timeoutRef == b.timeoutRef && c.nextTimer == b.nextTimer
    ensures b.timeoutRef.None? ==> c.timers == b.timers
    ensures b.timeoutRef.Some? ==> c.timers == b.timers - {b.timeoutRef.value}
  {
    if b.timeoutRef.Some? then b.(timers := b.timers - {b.timeoutRef.value}) else b
  }

  /** The effect body: clear the pending timeout, then schedule one carrying `values`. */
  function EffectBody(b: Binding, values: PanelValues): (n: Binding)
    ensures n.timeoutRef == Some(b.nextTimer) && n.nextTimer == b.nextTimer + 1
    ensures b.nextTimer in n.timers && n.timers[b.nextTimer] == values
    ensures forall id :: id in n.timers && id != b.nextTimer ==> id in b.timers && Some(id) != b.timeoutRef
  {
    var c := ClearPending(b);
    Binding(Some(c.nextTimer), c.timers[c.nextTimer := values], c.nextTimer + 1)
  }

  /** Outcome of one event: the new state and the update delivered to `onSettingsChange`, if any. */
  datatype StepResult = StepResult(next: Binding, delivered: Option<Settings>)

  /** One event. A re-run first runs the previous effect's cleanup, then the body. */
  function Step(b: Binding, e: Event): (r: StepResult)
    ensures r.delivered.Some? <==> e.TimerFires? && e.id in b.timers && !e.deliveryThrows
    ensures r.delivered.Some? ==> r.delivered.value == CombinedSettings(b.timers[e.id])
    ensures e.TimerFires? ==> r.next.timers == b.timers - {e.id} && r.next.timeoutRef == b.timeoutRef
    ensures e.Unmount? ==> r.next.timeoutRef == b.timeoutRef && r.next.timers.Keys <= b.timers.Keys
    ensures e.Unmount? && b.timeoutRef.Some? ==> b.timeoutRef.value !in r.next.timers
  {
    match e
    case ValuesChanged(values) => StepResult(EffectBody(ClearPending(b), values), None)
    case TimerFires(id, deliveryThrows) =>
      if id in b.timers then
        StepResult(b.(timers := b.timers - {id}),
                   if deliveryThrows then None else Some(CombinedSettings(b.timers[id])))
      else
        StepResult(b, None)
    case Unmount => StepResult(ClearPending(b), None)
  }

  /** The cleanup that precedes a re-run changes nothing the body does not already do. */
  lemma CleanupBeforeRerunIsRedundant(b: Binding, values: PanelValues)
    ensures EffectBody(ClearPending(b), values) == EffectBody(b, values)
  {
  }

  /** Every event keeps the invariant. */
  lemma StepKeepsInv(b: Binding, e: Event)
    requires Inv(b)
    ensures Inv(Step(b, e).next)
  {
  }

  /** There is never more than one live timeout. */
  lemma AtMostOnePending(b: Binding)
    requires Inv(b)
    ensures |b.timers| <= 1
  {
    if b.timers != map[] {
      var id :| id in b.timers;
      assert b.timers.Keys == {id};
    }
  }

  /** A change leaves exactly one live timeout, holding the new values, and cancels the one before. */
  lemma ChangeReplacesPending(b: Binding, values: PanelValues)
    requires Inv(b)
    ensures var n := Step(b, ValuesChanged(values)).next;
      n.timeoutRef == Some(b.nextTimer) && n.timers == map[b.nextTimer := values]
  {
    var c := ClearPending(ClearPending(b));
    assert forall id :: id !in c.timers;
  }

  /** Outcome of a run of events: the final state and the updates delivered, in order. */
  datatype RunResult = RunResult(final: Binding, delivered: seq<Settings>)

  function Run(b: Binding, events: seq<Event>): (r: RunResult)
    ensures |r.delivered| <= |events|
    decreases |events|
  {
    if events == [] then RunResult(b, [])
    else
      var s := Step(b, events[0]);
      var rest := Run(s.next, events[1..]);
      RunResult(rest.final, (if s.delivered.Some? then [s.delivered.value] else []) + rest.delivered)
  }

  lemma {:induction false} RunKeepsInv(b: Binding, events: seq<Event>)
    requires Inv(b)
    ensures Inv(Run(b, events).final)
    decreases |events|
  {
    if events != [] {
      StepKeepsInv(b, events[0]);
      RunKeepsInv(Step(b, events[0]).next, events[1..]);
    }
  }

  lemma {:induction false} RunAppend(b: Binding, xs: seq<Event>, ys: seq<Event>)
    ensures Run(b, xs + ys).final == Run(Run(b, xs).final, ys).final
    ensures Run(b, xs + ys).delivered == Run(b, xs).delivered + Run(Run(b, xs).final, ys).delivered
    decreases |xs|
  {
    RunAppendFinal(b, xs, ys);
    RunAppendDelivered(b, xs, ys);
  }

  lemma {:induction false} RunAppendFinal(b: Binding, xs: seq<Event>, ys: seq<Event>)
    ensures Run(b, xs + ys).final == Run(Run(b, xs).final, ys).final
    decreases |xs|
  {
    if xs != [] {
      var s := Step(b, xs[0]);
      assert (xs + ys)[0] == xs[0];
      assert (xs + ys)[1..] == xs[1..] + ys;
      assert Run(b, xs + ys).final == Run(s.next, xs[1..] + ys).final;
      assert Run(b, xs).final == Run(s.next, xs[1..]).final;
      RunAppendFinal(s.next, xs[1..], ys);
    } else {
      assert xs + ys == ys;
    }
  }

  lemma {:induction false} RunAppendDelivered(b: Binding, xs: seq<Event>, ys: seq<Event>)
    ensures Run(b, xs + ys).delivered == Run(b, xs).delivered + Run(Run(b, xs).final, ys).delivered
    decreases |xs|
  {
    if xs != [] {
      var s := Step(b, xs[0]);
      var out := if s.delivered.Some? then [s.delivered.value] else [];
      assert (xs + ys)[0] == xs[0];
      assert (xs + ys)[1..] == xs[1..] + ys;
      assert Run(b, xs + ys).delivered == out + Run(s.next, xs[1..] + ys).delivered;
      assert Run(b, xs).delivered == out + Run(s.next, xs[1..]).delivered;
      assert Run(b, xs).final == Run(s.next, xs[1..]).final;
      RunAppendDelivered(s.next, xs[1..], ys);
      var d1, d2 := Run(s.next, xs[1..]).delivered, Run(Run(s.next, xs[1..]).final, ys).delivered;
      assert Run(b, xs + ys).delivered == out + (d1 + d2);
      assert out + (d1 + d2) == (out + d1) + d2;
    } else {
      assert xs + ys == ys;
    }
  }

  /** The events of a burst of value changes. */
  function Changes(vs: seq<PanelValues>): (es: seq<Event>)
    ensures |es| == |vs|
    ensures forall i :: 0 <= i < |vs| ==> es[i] == ValuesChanged(vs[i])
  {
    if vs == [] then [] else [ValuesChanged(vs[0])] + Changes(vs[1..])
  }

  predicate OnlyFirings(events: seq<Event>) {
    forall i :: 0 <= i < |events| ==> events[i].TimerFires?
  }

  /** A burst of changes delivers nothing and leaves one live timeout, holding the last values. */
  lemma {:induction false} BurstLeavesLastPending(b: Binding, vs: seq<PanelValues>)
    requires Inv(b) && vs != []
    ensures Run(b, Changes(vs)).delivered == []
    ensures Run(b, Changes(vs)).final.timeoutRef == Some(b.nextTimer + |vs| - 1)
    ensures Run(b, Changes(vs)).final.timers == map[b.nextTimer + |vs| - 1 := vs[|vs| - 1]]
    decreases |vs|
  {
    var es := Changes(vs);
    assert es[0] == ValuesChanged(vs[0]);
    ChangeReplacesPending(b, vs[0]);
    StepKeepsInv(b, es[0]);
    var n := Step(b, es[0]).next;
    assert es[1..] == Changes(vs[1..]);
    assert Run(b, es) == RunResult(Run(n, es[1..]).final, Run(n, es[1..]).delivered);
    if |vs| > 1 {
      BurstLeavesLastPending(n, vs[1..]);
      assert vs[1..][|vs[1..]| - 1] == vs[|vs| - 1];
    } else {
      assert es[1..] == [];
    }
  }

  /**
   * Firings from a state whose only possible live timeout is `t`, holding
   * `v`, deliver nothing or the single update `v` combined; nothing at all
   * when `t` is no longer live.
   */
  lemma {:induction false} FiringsDeliverPending(b: Binding, events: seq<Event>, t: TimerId, v: PanelValues)
    requires OnlyFirings(events)
    requires b.timers.Keys <= {t} && (t in b.timers ==> b.timers[t] == v)
    ensures t !in b.timers ==> Run(b, events).delivered == []
    ensures Run(b, events).delivered == [] || Run(b, events).delivered == [CombinedSettings(v)]
    decreases |events|
  {
    if events != [] {
      var s := Step(b, events[0]);
      assert OnlyFirings(events[1..]) by {
        forall i | 0 <= i < |events[1..]| ensures events[1..][i].TimerFires? {
          assert events[1..][i] == events[i + 1];
        }
      }
      FiringsDeliverPending(s.next, events[1..], t, v);
      if events[0].id == t && t in b.timers {
        assert t !in s.next.timers;
      }
    }
  }

  /**
   * Debounce coalescing: a burst of N changes followed by any firings
   * delivers at most one update, and it carries the last change's values.
   */
  lemma BurstDeliversAtMostLast(b: Binding, vs: seq<PanelValues>, firings: seq<Event>)
    requires Inv(b) && vs != [] && OnlyFirings(firings)
    ensures var d := Run(b, Changes(vs) + firings).delivered;
      |d| <= 1 && forall u :: u in d ==> u == CombinedSettings(vs[|vs| - 1])
  {
    RunAppend(b, Changes(vs), firings);
    BurstLeavesLastPending(b, vs);
    FiringsDeliverPending(Run(b, Changes(vs)).final, firings, b.nextTimer + |vs| - 1, vs[|vs| - 1]);
  }

  /** When the burst's own timeout fires, exactly one update is delivered: the last values, combined. */
  lemma BurstThenFireDeliversLast(b: Binding, vs: seq<PanelValues>, fire: seq<Event>)
    requires Inv(b) && vs != []
    requires fire == [TimerFires(b.nextTimer + |vs| - 1, false)]
    ensures Run(b, Changes(vs) + fire).delivered == [CombinedSettings(vs[|vs| - 1])]
  {
    BurstLeavesLastPending(b, vs);
    PendingFires(Run(b, Changes(vs)).final, b.nextTimer + |vs| - 1, vs[|vs| - 1]);
    RunAppend(b, Changes(vs), fire);
  }

  /** The live timeout firing without a throw delivers its values, combined. */
  lemma PendingFires(m: Binding, t: TimerId, v: PanelValues)
    requires t in m.timers && m.timers[t] == v
    ensures Run(m, [TimerFires(t, false)]).delivered == [CombinedSettings(v)]
  {
    var fire := [TimerFires(t, false)];
    assert fire[1..] == [];
  }

  /** After unmounting, no firing delivers anything. */
  lemma UnmountSilences(b: Binding, firings: seq<Event>)
    requires Inv(b) && OnlyFirings(firings)
    ensures Run(b, [Unmount] + firings).delivered == []
  {
    var n := Step(b, Unmount).next;
    assert forall id :: id !in n.timers;
    assert ([Unmount] + firings)[1..] == firings;
    FiringsDeliverPending(n, firings, 0, DefaultPanel());
  }

  /** A delivery that throws is swallowed: the timeout is consumed, nothing is delivered, and the binding carries on. */
  lemma ThrowingDeliveryIsContained(b: Binding, id: TimerId)
    requires Inv(b) && id in b.timers
    ensures Step(b, TimerFires(id, true)).delivered.None?
    ensures Step(b, TimerFires(id, true)).next == Step(b, TimerFires(id, false)).next
    ensures Inv(Step(b, TimerFires(id, true)).next)
  {
  }

  /**
   * The mounted panel: the `updateTimeoutRef` slot and the timeouts it has
   * scheduled with the browser, delivering to the page's `Home` holder.
   */
  class ControlsPanel {
    var updateTimeoutRef: Option<TimerId>
    /** The browser's table of this panel's timeouts that are still to fire, with the values each closed over. */
    var scheduled: map<TimerId, PanelValues>
    var nextHandle: TimerId
    const home: Page.Home

    function State(): Binding
      reads this
    {
      Binding(updateTimeoutRef, scheduled, nextHandle)
    }

    constructor (home: Page.Home)
      ensures State() == Idle && this.home == home
    {
      updateTimeoutRef := None;
      scheduled := map[];
      nextHandle := 0;
      this.home := home;
    }

    /** The effect's cleanup: clear the pending timeout (the ref keeps the stale handle). */
    method Cleanup()
      modifies this
      ensures State() == ClearPending(old(State()))
    {
      if updateTimeoutRef.Some? {
        scheduled := scheduled - {updateTimeoutRef.value};
      }
    }

    /** The values changed: the previous effect is cleaned up and the effect re-runs. */
    method OnValuesChange(values: PanelValues)
      modifies this
      ensures State() == Step(old(State()), ValuesChanged(values)).next
    {
      Cleanup();
      if updateTimeoutRef.Some? {
        scheduled := scheduled - {updateTimeoutRef.value};
      }
      var handle := nextHandle;
      nextHandle := nextHandle + 1;
      scheduled := scheduled[handle := values];
      updateTimeoutRef := Some(handle);
    }

    /** A timeout fires: if it is still scheduled, its values are combined and handed to the page. */
    method OnTimerFires(id: TimerId, deliveryThrows: bool)
      modifies this, home
      ensures State() == Step(old(State()), TimerFires(id, deliveryThrows)).next
      ensures var d := Step(old(State()), TimerFires(id, deliveryThrows)).delivered;
        home.lightingSettings == if d.Some? then Page.Merge(old(home.lightingSettings), d.value)
                                 else old(home.lightingSettings)
    {
      if id in scheduled {
        var values := scheduled[id];
        scheduled := scheduled - {id};
        if !deliveryThrows {
          var combinedSettings := Combine(ModelGroup(values.selectedModel),
                                          PartGroup(values.selectedModel, values.parts),
                                          values.settings);
          home.HandleSettingsChange(combinedSettings);
        }
      }
    }

    method OnUnmount()
      modifies this
      ensures State() == Step(old(State()), Unmount).next
    {
      Cleanup();
    }
  }
}
