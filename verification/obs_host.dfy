/**
 * A fake of the part of the OBS scripting API that the mute indicator calls.
 * The real host is foreign code; this module states what the model assumes of it:
 * name lookup returns the first registered source with that name and takes a reference
 * that a release gives back, a "mute" handler is either connected on a source or not,
 * private data is a string map that a write updates key by key, and prints append to a log.
 */
module ObsHost {
  import opened Wrappers

  /** The kinds of source the host distinguishes (obs_source_type). */
  datatype SourceType = Input | Filter | Transition | Scene

  /** The output-flag bit of a source that has audio (OBS_SOURCE_AUDIO). */
  const AudioFlag: bv32 := 2

  /** A registered source as the host reports it; `muted` is its current mute flag. */
  datatype Source = Source(name: string, kind: SourceType, outputFlags: bv32, muted: bool)

  /** The names of the registered sources. */
  function Names(sources: seq<Source>): set<string>
  {
    set s | s in sources :: s.name
  }

  /** Lookup of a source by name, as obs_get_source_by_name performs it (without the reference). */
  function Lookup(sources: seq<Source>, name: string): (r: Option<Source>)
    ensures r.Some? ==> r.value in sources && r.value.name == name
    ensures r.None? <==> name !in Names(sources)
  {
    if sources == [] then None
    else if sources[0].name == name then Some(sources[0])
    else
      var r := Lookup(sources[1..], name);
      assert forall s :: s in sources ==> s == sources[0] || s in sources[1..];
      r
  }

  /** The settings bag handed to the script; a missing key reads as false or "". */
  datatype Settings = Settings(bools: map<string, bool>, strings: map<string, string>)

  function GetBool(settings: Settings, key: string): bool
  {
    key in settings.bools && settings.bools[key]
  }

  function GetString(settings: Settings, key: string): string
  {
    if key in settings.strings then settings.strings[key] else ""
  }

  /** The payload of a signal; a missing boolean parameter reads as false (calldata_bool). */
  function CalldataBool(calldata: map<string, bool>, key: string): bool
  {
    key in calldata && calldata[key]
  }

  /** The diagnostic lines the script prints, as tagged events rather than formatted text. */
  datatype Event =
    | CallbackAdded(name: string)
    | CallbackRemoved(name: string)
    | CreateFailed(name: string)
    | RemoveFailed(name: string)
    | WaitingForSources
    | Unloaded

  class Host {
    /** The source registry, in enumeration order. */
    var sources: seq<Source>
    /** The names of the sources on whose signal handler the script's "mute" callback is connected. */
    var connected: set<string>
    /** Source references taken by lookups and not yet released. */
    ghost var refs: int
    /** The host's private data, which external readers poll. */
    var privateData: map<string, string>
    /** Everything printed to the script log. */
    var log: seq<Event>
    /** Whether the script's periodic timer callback is registered. */
    var timerActive: bool

    constructor (sources: seq<Source>)
      ensures this.sources == sources && connected == {} && refs == 0
      ensures privateData == map[] && log == [] && !timerActive
    {
      this.sources := sources;
      connected := {};
      refs := 0;
      privateData := map[];
      log := [];
      timerActive := false;
    }

    /** obs_get_source_by_name: a found source comes with one reference. */
    method GetSourceByName(name: string) returns (source: Option<Source>)
      modifies this`refs
      ensures source == Lookup(sources, name)
      ensures refs == old(refs) + (if source.Some? then 1 else 0)
    {
      source := Lookup(sources, name);
      if source.Some? {
        refs := refs + 1;
      }
    }

    /** obs_source_release; releasing None does nothing. */
    method Release(source: Option<Source>)
      modifies this`refs
      ensures refs == old(refs) - (if source.Some? then 1 else 0)
    {
      if source.Some? {
        refs := refs - 1;
      }
    }

    /** signal_handler_connect(handler of source, "mute", callback). */
    method SignalConnect(source: Source)
      modifies this`connected
      ensures connected == old(connected) + {source.name}
    {
      connected := connected + {source.name};
    }

    /** signal_handler_disconnect(handler of source, "mute", callback). */
    method SignalDisconnect(source: Source)
      modifies this`connected
      ensures connected == old(connected) - {source.name}
    {
      connected := connected - {source.name};
    }

    /** A one-field data object applied to the private data: only that key changes. */
    method ApplyPrivateString(key: string, value: string)
      modifies this`privateData
      ensures privateData == old(privateData)[key := value]
    {
      privateData := privateData[key := value];
    }

    method Print(e: Event)
      modifies this`log
      ensures log == old(log) + [e]
    {
      log := log + [e];
    }

    /** timer_add */
    method TimerAdd()
      modifies this`timerActive
      ensures timerActive
    {
      timerActive := true;
    }

    /** timer_remove, and remove_current_callback from inside the timer callback. */
    method TimerRemove()
      modifies this`timerActive
      ensures !timerActive
    {
      timerActive := false;
    }
  }
}
