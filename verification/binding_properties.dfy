/**
 * Properties of the binding state machine that relate several steps: binding twice, rebinding,
 * binding a missing source, unloading, the bootstrap poller, and every reachable state.
 */
module BindingProperties {
  import opened Wrappers
  import opened ObsHost
  import Output
  import opened Binding

  /** A second request for the name just bound is silent: one "added" event, not two. */
  lemma BindTwiceIsNoOp(w: World, name: string)
    requires Create(w, Some(name)).ok
    ensures var w1 := Create(w, Some(name)).next;
      Create(w1, Some(name)) == Outcome(w1, false)
  {
  }

  /** Rebinding from one existing source to another removes the old callback, then adds the new one. */
  lemma RebindRemovesThenAdds(w: World, a: string, b: string)
    requires BindingInv(w) && w.callbackName == Some(a) && a != b
    requires a in w.present && b in w.present
    ensures var t := Create(w, Some(b));
      && t.ok && t.next.callbackName == Some(b) && t.next.connected == {b}
      && t.next.log == w.log + (if w.debug then [CallbackRemoved(a), CallbackAdded(b)] else [])
  {
  }

  /**
   * Binding a source that is not registered fails and keeps the recorded name; the one error line
   * appears only after bootstrap and with debug set.
   */
  lemma BindMissingSource(w: World, name: string)
    requires Inv(w) && w.callbackName == None && name !in w.present
    ensures var t := Create(w, Some(name));
      && !t.ok && t.next.callbackName == None && t.next.connected == {}
      && t.next.log == w.log + (if w.sourcesLoaded && w.debug then [CreateFailed(name)] else [])
  {
  }

  /**
   * As written, a failed rebind disconnects the old source but keeps its name recorded, so asking
   * for that old source again is a silent no-op that leaves nothing connected.
   */
  lemma StaleNameAfterFailedRebind(w: World, a: string, b: string)
    requires BindingInv(w) && w.callbackName == Some(a) && a in w.connected
    requires b !in w.present
    ensures var w1 := Create(w, Some(b)).next;
      && w1.callbackName == Some(a) && a in w1.present && w1.connected == {}
      && Create(w1, Some(a)) == Outcome(w1, false)
  {
  }

  /**
   * Unloading while bound disconnects the bound source. Because the recorded name is never
   * cleared, a second unload disconnects again: the state stays the same, only the log grows.
   */
  lemma UnloadTwice(w: World, a: string)
    requires BindingInv(w) && w.callbackName == Some(a) && a in w.connected
    ensures var u1 := Unload(w); var u2 := Unload(u1);
      && a !in u1.connected && u1.connected == {} && !u1.timerActive
      && u2 == u1.(log := u2.log)
      && u2.log == u1.log + (if w.debug then [CallbackRemoved(a), Unloaded] else [])
  {
  }

  /** The bootstrap timer fired k times, while it stays registered. */
  function Ticks(w: World, k: nat): World
    decreases k
  {
    if k == 0 || !w.timerActive then w else Ticks(SourceLoading(w), k - 1)
  }

  function Waits(k: nat): (r: seq<Event>)
    ensures |r| == k && forall i :: 0 <= i < k ==> r[i] == WaitingForSources
  {
    if k == 0 then [] else Waits(k - 1) + [WaitingForSources]
  }

  /** While the configured source is missing, each tick only logs that it is waiting. */
  lemma {:induction false} TicksWhileMissing(w: World, k: nat)
    requires w.timerActive && w.sourceName !in w.present
    ensures Ticks(w, k) == w.(log := w.log + (if w.debug then Waits(k) else []))
    decreases k
  {
    if k > 0 {
      var w1 := SourceLoading(w);
      assert w1 == w.(log := w.log + (if w.debug then [WaitingForSources] else []));
      TicksWhileMissing(w1, k - 1);
      if w.debug {
        assert Waits(k) == [WaitingForSources] + Waits(k - 1) by { WaitsCons(k); }
      }
    }
  }

  lemma {:induction false} WaitsCons(k: nat)
    requires k > 0
    ensures Waits(k) == [WaitingForSources] + Waits(k - 1)
  {
    if k > 1 {
      WaitsCons(k - 1);
    }
  }

  /** Once the timer is gone, ticks change nothing. */
  lemma TicksAfterCancel(w: World, k: nat)
    requires !w.timerActive
    ensures Ticks(w, k) == w
  {
  }

  /**
   * The bootstrap poller: k ticks with the source missing only wait; once the host registers the
   * source, the next tick binds it, marks the sources loaded and cancels the timer, and no
   * further tick does anything. Exactly one callback is added over the whole run.
   */
  lemma PollerBindsOnce(w: World, k: nat, m: nat)
    requires Inv(w) && w.timerActive && !w.sourcesLoaded && w.sourceName !in w.present
    ensures var w1 := Ticks(w, k);
      var w2 := SourceCreated(w1, w.sourceName);
      var w3 := Ticks(w2, m + 1);
      && !w1.sourcesLoaded && w1.timerActive && w1.connected == {}
      && w3.sourcesLoaded && !w3.timerActive
      && w3.callbackName == Some(w.sourceName) && w3.connected == {w.sourceName}
      && w3.log == w.log + (if w.debug then Waits(k) + [CallbackAdded(w.sourceName)] else [])
  {
    TicksWhileMissing(w, k);
    var w2 := SourceCreated(Ticks(w, k), w.sourceName);
    var w3 := SourceLoading(w2);
    TicksAfterCancel(w3, m);
  }

  /** A mute change publishes "<source_name> is muted/unmuted" and a later one replaces it. */
  lemma LatestMuteWins(w: World, first: bool, second: bool)
    ensures MuteSignal(MuteSignal(w, first), second) == MuteSignal(w, second)
    ensures MuteSignal(w, second).privateData[Output.MutedKey] == Output.StatusText(w.sourceName, second)
  {
  }

  /** Everything that can happen to the script: its entry points and the host's own changes. */
  datatype Op =
    | Tick
    | Configure(settings: Settings)
    | MuteChanged(calldata: map<string, bool>)
    | LoadScript
    | UnloadScript
    | Created(name: string)
    | Destroyed(name: string)

  function Apply(w: World, op: Op): World
  {
    match op
    case Tick => if w.timerActive then SourceLoading(w) else w
    case Configure(settings) => Update(w, settings)
    case MuteChanged(calldata) => MuteSignal(w, CalldataBool(calldata, "muted"))
    case LoadScript => Load(w)
    case UnloadScript => Unload(w)
    case Created(name) => SourceCreated(w, name)
    case Destroyed(name) => SourceDestroyed(w, name)
  }

  function Run(w: World, ops: seq<Op>): World
    decreases |ops|
  {
    if ops == [] then w else Run(Apply(w, ops[0]), ops[1..])
  }

  lemma ApplyKeepsInv(w: World, op: Op)
    requires Inv(w)
    ensures Inv(Apply(w, op))
  {
  }

  /** No operation clears sources_loaded. */
  lemma ApplyKeepsLoaded(w: World, op: Op)
    requires w.sourcesLoaded
    ensures Apply(w, op).sourcesLoaded
  {
  }

  /** The one handler, if any, sits on the configured source: the name MuteSignal publishes. */
  ghost predicate TracksSource(w: World)
  {
    w.connected <= {w.sourceName}
  }

  lemma ApplyKeepsTracking(w: World, op: Op)
    requires Inv(w) && TracksSource(w)
    ensures TracksSource(Apply(w, op))
  {
  }

  lemma {:induction false} RunKeepsTracking(w: World, ops: seq<Op>)
    requires Inv(w) && TracksSource(w)
    ensures TracksSource(Run(w, ops))
    decreases |ops|
  {
    if ops != [] {
      ApplyKeepsInv(w, ops[0]);
      ApplyKeepsTracking(w, ops[0]);
      RunKeepsTracking(Apply(w, ops[0]), ops[1..]);
    }
  }

  /** The invariant holds in every state reachable from one that satisfies it. */
  lemma {:induction false} RunKeepsInv(w: World, ops: seq<Op>)
    requires Inv(w)
    ensures Inv(Run(w, ops))
    decreases |ops|
  {
    if ops != [] {
      ApplyKeepsInv(w, ops[0]);
      RunKeepsInv(Apply(w, ops[0]), ops[1..]);
    }
  }

  /** sources_loaded never goes back to false. */
  lemma {:induction false} LoadedStaysLoaded(w: World, ops: seq<Op>)
    requires w.sourcesLoaded
    ensures Run(w, ops).sourcesLoaded
    decreases |ops|
  {
    if ops != [] {
      ApplyKeepsLoaded(w, ops[0]);
      LoadedStaysLoaded(Apply(w, ops[0]), ops[1..]);
    }
  }

  /** From the script's import, whatever happens, at most one "mute" subscription exists. */
  lemma AtMostOneSubscription(present: set<string>, data: map<string, string>, log: seq<Event>, ops: seq<Op>)
    ensures var w := Run(Init(present, data, log), ops);
      && |w.connected| <= 1
      && w.connected <= NameSet(w.callbackName) && w.connected <= w.present
      && w.connected <= {w.sourceName}
  {
    var w := Run(Init(present, data, log), ops);
    RunKeepsInv(Init(present, data, log), ops);
    RunKeepsTracking(Init(present, data, log), ops);
    if w.callbackName.Some? {
      SubsetOfSingleton(w.connected, w.callbackName.value);
    }
  }

  lemma SubsetOfSingleton(s: set<string>, x: string)
    requires s <= {x}
    ensures |s| <= 1
  {
    if s != {} {
      assert s == {x};
    }
  }
}
