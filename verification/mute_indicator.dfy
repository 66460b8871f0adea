/**
 * The script itself: its four globals as the fields of one object, its functions as methods
 * that update them and the host step by step. Each method is proved to make the transition
 * of the same name in module Binding and to release every source reference it takes.
 */
module MuteIndicator {
  import opened Wrappers
  import opened ObsHost
  import Output
  import Binding

  /** get_muted(sn): the mute flag of a registered source, None for an unknown name. */
  method GetMuted(host: Host, sn: string) returns (muted: Option<bool>)
    modifies host`refs
    ensures host.refs == old(host.refs)
    ensures muted.None? <==> sn !in Names(host.sources)
    ensures muted.Some? ==> exists s :: s in host.sources && s.name == sn && s.muted == muted.value
  {
    var source := host.GetSourceByName(sn);
    if source.None? {
      return None;
    }
    muted := Some(source.value.muted);
    host.Release(source);
  }

  class Plugin {
    /** Whether diagnostics are printed. */
    var debug: bool
    /** The configured source to monitor. */
    var sourceName: string
    /** Set once the first binding has succeeded; the bootstrap timer is then gone. */
    var sourcesLoaded: bool
    /** The name the callback was last created for. */
    var callbackName: Option<string>
    const host: Host

    /** The globals and the host as one value of the transition model. */
    ghost function Abs(): Binding.World
      reads this, host
    {
      Binding.World(debug, sourceName, sourcesLoaded, callbackName,
        Names(host.sources), host.connected, host.privateData, host.log, host.timerActive)
    }

    ghost predicate Valid()
      reads this, host
    {
      Binding.Inv(Abs())
    }

    /** Importing the script: the module-level assignments. */
    constructor (host: Host)
      requires host.connected == {}
      ensures this.host == host && Valid()
      ensures debug && sourceName == "" && !sourcesLoaded && callbackName == None
    {
      this.host := host;
      debug := true;
      sourceName := "";
      sourcesLoaded := false;
      callbackName := None;
    }

    method DPrint(e: Event)
      modifies host`log
      ensures Abs() == Binding.DPrint(old(Abs()), e)
    {
      if debug {
        host.Print(e);
      }
    }

    /** write_output(muted), with send_to_private_data("string", "__muted__", ...) inlined. */
    method WriteOutput(muted: bool)
      modifies host`privateData
      ensures Abs() == Binding.MuteSignal(old(Abs()), muted)
      ensures host.privateData[Output.MutedKey] == Output.StatusText(sourceName, muted)
    {
      var output := if muted then "muted" else "unmuted";
      var result := sourceName + " is " + output;
      assert result == sourceName + (" is " + output);
      assert result == Output.StatusText(sourceName, muted);
      host.ApplyPrivateString(Output.MutedKey, result);
    }

    /** mute_callback(calldata): the handler the host calls on a "mute" signal. */
    method MuteCallback(calldata: map<string, bool>)
      modifies host`privateData
      ensures Abs() == Binding.MuteSignal(old(Abs()), CalldataBool(calldata, "muted"))
      ensures old(Valid()) ==> Valid()
    {
      var muted := CalldataBool(calldata, "muted");
      WriteOutput(muted);
    }

    /** remove_muted_callback(sn) */
    method RemoveMutedCallback(sn: Option<string>) returns (ok: bool)
      modifies host`refs, host`connected, host`log
      ensures Binding.Outcome(Abs(), ok) == Binding.Remove(old(Abs()), sn)
      ensures host.refs == old(host.refs)
    {
      if sn.None? {
        return false;
      }
      var source := host.GetSourceByName(sn.value);
      if source.None? {
        DPrint(RemoveFailed(sn.value));
        return false;
      }
      host.SignalDisconnect(source.value);
      DPrint(CallbackRemoved(source.value.name));
      host.Release(source);
      return true;
    }

    /** create_muted_callback(sn) */
    method CreateMutedCallback(sn: Option<string>) returns (ok: bool)
      modifies this`callbackName, host`refs, host`connected, host`log
      ensures Binding.Outcome(Abs(), ok) == Binding.Create(old(Abs()), sn)
      ensures host.refs == old(host.refs)
    {
      if sn.None? || sn == callbackName {
        return false;
      }
      if callbackName.Some? {
        var _ := RemoveMutedCallback(callbackName);
      }
      var source := host.GetSourceByName(sn.value);
      if source.None? {
        if sourcesLoaded {
          DPrint(CreateFailed(sn.value));
        }
        return false;
      }
      host.SignalConnect(source.value);
      callbackName := sn;
      DPrint(CallbackAdded(source.value.name));
      host.Release(source);
      return true;
    }

    /** source_loading: the bootstrap timer callback. */
    method SourceLoading()
      modifies this`sourcesLoaded, this`callbackName
      modifies host`refs, host`connected, host`log, host`timerActive
      ensures Abs() == Binding.SourceLoading(old(Abs()))
      ensures host.refs == old(host.refs)
      ensures old(Valid()) ==> Valid()
    {
      var source := host.GetSourceByName(sourceName);
      var bound := false;
      if source.Some? {
        bound := CreateMutedCallback(Some(sourceName));
      }
      if bound {
        sourcesLoaded := true;
        host.TimerRemove();
      } else {
        DPrint(WaitingForSources);
      }
      host.Release(source);
    }

    /** script_update(settings) */
    method ScriptUpdate(settings: Settings)
      modifies this`debug, this`sourceName, this`callbackName
      modifies host`refs, host`connected, host`log
      ensures Abs() == Binding.Update(old(Abs()), settings)
      ensures host.refs == old(host.refs)
      ensures old(Valid()) ==> Valid()
    {
      debug := GetBool(settings, "debug");
      sourceName := GetString(settings, "source");
      if sourcesLoaded {
        var _ := CreateMutedCallback(Some(sourceName));
      }
    }

    /** script_load(settings): the settings are not read. */
    method ScriptLoad()
      modifies host`timerActive
      ensures Abs() == Binding.Load(old(Abs()))
      ensures old(Valid()) ==> Valid()
    {
      host.TimerAdd();
    }

    /** script_unload() */
    method ScriptUnload()
      modifies host`refs, host`connected, host`log, host`timerActive
      ensures Abs() == Binding.Unload(old(Abs()))
      ensures host.refs == old(host.refs)
      ensures old(Valid()) ==> Valid()
    {
      host.TimerRemove();
      var _ := RemoveMutedCallback(callbackName);
      DPrint(Unloaded);
    }
  }
}
