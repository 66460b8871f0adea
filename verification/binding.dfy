/**
 * The callback-binding state machine of the mute indicator as pure transitions.
 * A World holds the four script globals together with the part of the host they act on.
 * SourceLoading, Update, Load, Unload and MuteSignal are the entry points the host calls, and
 * SourceCreated and SourceDestroyed are changes the host makes on its own; all of them keep Inv.
 * Create and Remove are the script's helpers and keep only BindingInv: Create may record a name
 * before bootstrap, which its two callers rule out. The class in mute_indicator.dfy is proved
 * to make these transitions.
 */
module Binding {
  import opened Wrappers
  import opened ObsHost
  import Output

  datatype World = World(
    // script globals
    debug: bool,
    sourceName: string,
    sourcesLoaded: bool,
    callbackName: Option<string>,
    // host state the script reads and changes
    present: set<string>,
    connected: set<string>,
    privateData: map<string, string>,
    log: seq<Event>,
    timerActive: bool)

  /** The outcome of create_muted_callback / remove_muted_callback: new world and returned flag. */
  datatype Outcome = Outcome(next: World, ok: bool)

  function NameSet(name: Option<string>): set<string>
  {
    if name.Some? then {name.value} else {}
  }

  /**
   * At most one "mute" subscription exists, it sits on the name recorded in callback_name,
   * and only on a registered source. The recorded name may be stale (recorded, not connected).
   */
  ghost predicate BindingInv(w: World)
  {
    w.connected <= w.present && w.connected <= NameSet(w.callbackName)
  }

  /** BindingInv, and nothing is recorded before bootstrap has finished. */
  ghost predicate Inv(w: World)
  {
    BindingInv(w) && (!w.sourcesLoaded ==> w.callbackName.None?)
  }

  /** The globals right after the script is imported, over a host with no handler connected. */
  function Init(present: set<string>, privateData: map<string, string>, log: seq<Event>): (w: World)
    ensures Inv(w) && w.connected == {} && !w.timerActive
  {
    World(true, "", false, None, present, {}, privateData, log, false)
  }

  /** dprint: the event reaches the log only when debug is set. */
  function DPrint(w: World, e: Event): (r: World)
    ensures r.(log := w.log) == w
    ensures w.debug ==> r.log == w.log + [e]
    ensures !w.debug ==> r.log == w.log
  {
    if w.debug then w.(log := w.log + [e]) else w
  }

  /** remove_muted_callback(sn) */
  function Remove(w: World, sn: Option<string>): (t: Outcome)
    ensures t.next.(connected := w.connected, log := w.log) == w
    ensures t.ok <==> sn.Some? && sn.value in w.present
    ensures sn.None? ==> t.next == w
    ensures t.next.connected == if t.ok then w.connected - {sn.value} else w.connected
    ensures sn.Some? && !t.ok ==> t.next.log == w.log + (if w.debug then [RemoveFailed(sn.value)] else [])
    ensures t.ok ==> t.next.log == w.log + (if w.debug then [CallbackRemoved(sn.value)] else [])
    ensures BindingInv(w) ==> BindingInv(t.next)
  {
    match sn
    case None => Outcome(w, false)
    case Some(name) =>
      if name !in w.present then
        Outcome(DPrint(w, RemoveFailed(name)), false)
      else
        Outcome(DPrint(w.(connected := w.connected - {name}), CallbackRemoved(name)), true)
  }

  /** What remove_muted_callback(callback_name) logs when create_muted_callback rebinds. */
  function RemovalLog(w: World): seq<Event>
  {
    match w.callbackName
    case None => []
    case Some(bound) =>
      if !w.debug then []
      else if bound in w.present then [CallbackRemoved(bound)]
      else [RemoveFailed(bound)]
  }

  /** create_muted_callback(sn) */
  function Create(w: World, sn: Option<string>): (t: Outcome)
    // None or the recorded name: nothing at all happens
    ensures sn.None? || sn == w.callbackName ==> t == Outcome(w, false)
    ensures t.ok <==> sn.Some? && sn != w.callbackName && sn.value in w.present
    // only the subscriptions, the recorded name and the log can change
    ensures t.next.(connected := w.connected, callbackName := w.callbackName, log := w.log) == w
    ensures t.ok ==> t.next.callbackName == sn && sn.value in t.next.connected
    ensures !t.ok ==> t.next.callbackName == w.callbackName
    ensures BindingInv(w) ==> BindingInv(t.next)
    ensures BindingInv(w) && t.ok ==> t.next.connected == {sn.value}
    // a successful create never connects a second handler on a source that already has one
    ensures BindingInv(w) && t.ok ==> sn.value !in w.connected
    // a failed rebind leaves no subscription behind, though the old name stays recorded
    ensures BindingInv(w) && sn.Some? && sn != w.callbackName && !t.ok ==> t.next.connected == {}
    ensures sn.Some? && sn != w.callbackName ==>
      t.next.log == w.log + RemovalLog(w) +
        (if t.ok then (if w.debug then [CallbackAdded(sn.value)] else [])
         else (if w.sourcesLoaded && w.debug then [CreateFailed(sn.value)] else []))
  {
    if sn.None? || sn == w.callbackName then
      Outcome(w, false)
    else
      var w1 := if w.callbackName.Some? then Remove(w, w.callbackName).next else w;
      var name := sn.value;
      if name !in w1.present then
        Outcome(if w1.sourcesLoaded then DPrint(w1, CreateFailed(name)) else w1, false)
      else
        var w2 := w1.(connected := w1.connected + {name}, callbackName := sn);
        Outcome(DPrint(w2, CallbackAdded(name)), true)
  }

  /** source_loading: one tick of the bootstrap timer. */
  function SourceLoading(w: World): (r: World)
    ensures var bound := w.sourceName in w.present && Some(w.sourceName) != w.callbackName;
      && (bound ==> r.sourcesLoaded && !r.timerActive && r.callbackName == Some(w.sourceName)
                    && w.sourceName in r.connected)
      // in the bound case nothing but the bootstrap flag, the timer, the binding and the log changes
      && (bound ==> r.(sourcesLoaded := w.sourcesLoaded, timerActive := w.timerActive,
                       connected := w.connected, callbackName := w.callbackName, log := w.log) == w)
      && (bound && BindingInv(w) ==> r.connected == {w.sourceName})
      && (bound ==> r.log == w.log + RemovalLog(w) + (if w.debug then [CallbackAdded(w.sourceName)] else []))
      && (!bound ==> r == DPrint(w, WaitingForSources))
    ensures w.sourcesLoaded ==> r.sourcesLoaded
    ensures Inv(w) ==> Inv(r)
  {
    if w.sourceName in w.present then
      var t := Create(w, Some(w.sourceName));
      if t.ok then t.next.(sourcesLoaded := true, timerActive := false)
      else DPrint(t.next, WaitingForSources)
    else
      DPrint(w, WaitingForSources)
  }

  /** script_update(settings) */
  function Update(w: World, settings: Settings): (r: World)
    ensures r.debug == GetBool(settings, "debug") && r.sourceName == GetString(settings, "source")
    ensures r.sourcesLoaded == w.sourcesLoaded && r.timerActive == w.timerActive
    ensures r.present == w.present && r.privateData == w.privateData
    // before bootstrap only the two settings change
    ensures !w.sourcesLoaded ==> r == w.(debug := r.debug, sourceName := r.sourceName)
    // after bootstrap an existing source other than the recorded one becomes the bound one;
    // the recorded name itself is left alone, connected or not
    ensures w.sourcesLoaded && r.sourceName in w.present && Some(r.sourceName) != w.callbackName ==>
      r.callbackName == Some(r.sourceName) && r.sourceName in r.connected
    ensures w.sourcesLoaded && r.sourceName in w.present && Some(r.sourceName) != w.callbackName ==>
      && (BindingInv(w) ==> r.connected == {r.sourceName})
      && r.log == w.log + RemovalLog(w.(debug := r.debug)) + (if r.debug then [CallbackAdded(r.sourceName)] else [])
    // after bootstrap a missing new source still costs the old handler: it is removed, its name
    // stays recorded, and the failure is logged
    ensures w.sourcesLoaded && r.sourceName !in w.present && Some(r.sourceName) != w.callbackName ==>
      && r.callbackName == w.callbackName
      && (BindingInv(w) ==> r.connected == {})
      && r.log == w.log + RemovalLog(w.(debug := r.debug)) + (if r.debug then [CreateFailed(r.sourceName)] else [])
    ensures Some(r.sourceName) == w.callbackName ==> r == w.(debug := r.debug, sourceName := r.sourceName)
    ensures Inv(w) ==> Inv(r)
  {
    var w1 := w.(debug := GetBool(settings, "debug"), sourceName := GetString(settings, "source"));
    if w1.sourcesLoaded then Create(w1, Some(w1.sourceName)).next else w1
  }

  /** script_load: arm the bootstrap timer. */
  function Load(w: World): (r: World)
    ensures r.timerActive && r.(timerActive := w.timerActive) == w
    ensures Inv(w) ==> Inv(r)
  {
    w.(timerActive := true)
  }

  /** script_unload: drop the timer, remove the callback for the recorded name, say goodbye. */
  function Unload(w: World): (r: World)
    ensures !r.timerActive
    ensures r.callbackName == w.callbackName && r.sourcesLoaded == w.sourcesLoaded
    ensures r.(timerActive := w.timerActive, connected := w.connected, log := w.log) == w
    ensures BindingInv(w) ==> r.connected == {}
    ensures r.log == w.log + RemovalLog(w) + (if w.debug then [Unloaded] else [])
    ensures Inv(w) ==> Inv(r)
  {
    var w1 := w.(timerActive := false);
    DPrint(Remove(w1, w1.callbackName).next, Unloaded)
  }

  /** mute_callback / write_output: the host reports a mute change with payload `muted`. */
  function MuteSignal(w: World, muted: bool): (r: World)
    ensures Output.MutedKey in r.privateData
    ensures Output.ParseStatus(r.privateData[Output.MutedKey]) == Some(Output.Status(w.sourceName, muted))
    ensures forall k :: k in w.privateData && k != Output.MutedKey ==>
      k in r.privateData && r.privateData[k] == w.privateData[k]
    ensures r.privateData.Keys == w.privateData.Keys + {Output.MutedKey}
    ensures r.(privateData := w.privateData) == w
    ensures Inv(w) ==> Inv(r)
  {
    Output.ParseStatusText(w.sourceName, muted);
    w.(privateData := w.privateData[Output.MutedKey := Output.StatusText(w.sourceName, muted)])
  }

  /** The host registers a new source. */
  function SourceCreated(w: World, name: string): (r: World)
    ensures r.present == w.present + {name} && r.(present := w.present) == w
    ensures Inv(w) ==> Inv(r)
  {
    w.(present := w.present + {name})
  }

  /** The host destroys a source, and the signal handler with it. */
  function SourceDestroyed(w: World, name: string): (r: World)
    ensures name !in r.present && name !in r.connected
    ensures r.(present := w.present, connected := w.connected) == w
    ensures Inv(w) ==> Inv(r)
  {
    w.(present := w.present - {name}, connected := w.connected - {name})
  }
}
