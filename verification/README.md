# OBS Mute Indicator — a Dafny model of the callback-binding core

The OBS Mute Indicator script watches the mute flag of one audio source in OBS Studio. It writes
`"<source> is muted"` or `"<source> is unmuted"` under the private-data key `__muted__`, where an
external serial bridge reads it. The script keeps four globals:

- `debug`: print diagnostics or not.
- `source_name`: the configured source.
- `sources_loaded`: bootstrap finished.
- `callback_name`: the name the "mute" callback was last created for.

Around these globals it runs a small state machine:

- `create_muted_callback` / `remove_muted_callback` attach and detach the "mute" handler.
- A 10 ms timer (`source_loading`) retries until the first bind succeeds.
- `script_update` applies new settings and rebinds only after bootstrap.
- `script_load` / `script_unload` arm the timer, and tear down the timer and the callback.

The model has two layers.

- `binding.dfy` (module `Binding`) gives the script's functions as pure transitions on a `World`
  record. A `World` holds the four globals and the host state they act on: registered names,
  names with a connected handler, private data, log, timer flag. `Inv` says there is at most one
  subscription, that it sits on the recorded name and on a registered source, and that nothing
  is recorded before bootstrap. Every entry point the host calls (`SourceLoading`, `Update`,
  `Load`, `Unload`, `MuteSignal`) and every host event keeps `Inv`. `Create` and `Remove` keep only
  `BindingInv`: `Create` can record a name before bootstrap, and its two callers rule that out.
- `mute_indicator.dfy` (module `MuteIndicator`) is the script in its own imperative form. A
  `Plugin` object has the four globals as fields and a fake `ObsHost.Host`. Each method calls
  the host step by step, as the script does, and is proved to make the corresponding `Binding`
  transition (`WriteOutput` and `MuteCallback` make `MuteSignal`, `ScriptUpdate` makes `Update`,
  and so on); `GetMuted` only reads. Each method also leaves the host's ghost reference counter where it found it:
  every source the script looks up is released on every exit path.
- `binding_properties.dfy` holds the properties that span several steps: binding twice,
  rebinding, a missing source, the stale name, unloading twice, the bootstrap poller, and the
  invariant over any sequence of events.
- `output.dfy` gives the published string and its reader.
- `registry.dfy` gives `list_audio_sources`.
- `obs_host.dfy` gives the fake host and the settings bag.

The model follows the script as written; in particular:

- `create_muted_callback` rejects only `None`; an empty name passes the guard.
- When a rebind targets a source that is not registered, the old handler is disconnected first and
  `callback_name` keeps the old name. A later request for that old name is then a silent no-op
  with nothing connected (`StaleNameAfterFailedRebind`).
- `callback_name` is never cleared. A second `script_unload` disconnects the same name again and
  logs the removal and the goodbye again (`UnloadTwice`).
- Every message, including the success confirmations and the goodbye line, goes through
  `dprint`, so all of them depend on `debug`.
- `get_muted` is defined but never called by the script.

## Model

| member | source | states |
|---|---|---|
| Output.StatusText | scripts/OBS_Mute_Indicator.py:53-54 | the published text starts with the source name and ends with " is muted" exactly when the flag is set, " is unmuted" exactly when it is not |
| Output.ParseStatus | scripts/OBS_Mute_Indicator.py:52-55 | whatever a reader of the slot accepts is exactly the status text of the name and flag it returns |
| Output.ParseStatusText | scripts/OBS_Mute_Indicator.py:52-55 | the text written for (name, flag) reads back as that name and flag: the "muted"/"unmuted" encoding loses nothing |
| Output.StatusTextInjective | scripts/OBS_Mute_Indicator.py:53-54 | two different (name, flag) pairs never publish the same string |
| Registry.IsAudioInput | scripts/OBS_Mute_Indicator.py:125-133 | a source passes the filter iff its type is input and its output flags have the audio bit set; a non-input source never passes |
| Registry.ListAudioSources | scripts/OBS_Mute_Indicator.py:120-138 | the loop returns the audio-input names of the enumeration in order; a name is listed iff some enumerated source of type input with the audio bit carries it; an empty registry gives an empty list |
| Registry.AudioNamesAppend | scripts/OBS_Mute_Indicator.py:124-134 | the filter distributes over concatenation, so enumeration order is kept and nothing is added |
| Registry.AudioNamesMembers | scripts/OBS_Mute_Indicator.py:125-134 | membership in the list iff some enumerated source is an input whose output flags have the audio bit |
| Registry.AudioNamesLength | scripts/OBS_Mute_Indicator.py:124-134 | at most one name per enumerated source |
| Binding.Init | scripts/OBS_Mute_Indicator.py:28-33 | the initial globals (debug on, empty source name, not loaded, no callback) satisfy the binding invariant with no handler connected |
| Binding.DPrint | scripts/OBS_Mute_Indicator.py:39-41 | an event is appended to the log iff debug holds; nothing else changes |
| Binding.Remove | scripts/OBS_Mute_Indicator.py:101-117 | None: false, no effect; missing source: false, error logged only with debug; otherwise that name is disconnected and true returned; callback_name is never touched; the invariant is kept |
| Binding.Create | scripts/OBS_Mute_Indicator.py:75-98 | None or the recorded name: false and nothing changes; otherwise the old name is removed first; success iff the source exists, then it is connected and recorded, it alone is connected, and it had no handler before (no second connect); failure keeps the old name and leaves nothing connected; exact log, with the error only when loaded and debug |
| Binding.SourceLoading | scripts/OBS_Mute_Indicator.py:141-152 | if the source exists and differs from the recorded name, it becomes the only subscription, sources_loaded is set and the timer is cancelled, the log gets the removal of the old name and the added line, and nothing else changes; otherwise only a waiting line (debug-gated) is logged; sources_loaded never drops; the invariant is kept |
| Binding.Update | scripts/OBS_Mute_Indicator.py:174-182 | debug and source_name are always overwritten from the settings; before bootstrap nothing else changes; after it an existing new source becomes the only subscription with its exact log, a missing one costs the old handler, keeps the old name and logs the failure under the new debug flag; the recorded name itself is left alone |
| Binding.Load | scripts/OBS_Mute_Indicator.py:207-210 | arms the timer and changes nothing else |
| Binding.Unload | scripts/OBS_Mute_Indicator.py:213-216 | cancels the timer and leaves no subscription at all, keeps callback_name, logs the removal result and goodbye |
| Binding.MuteSignal | scripts/OBS_Mute_Indicator.py:52-55 | a mute notification sets `__muted__` to a string that reads back as (source_name, payload), the global source name rather than callback_name; other private-data keys and all other state are unchanged |
| BindingProperties.BindTwiceIsNoOp | scripts/OBS_Mute_Indicator.py:78-79 | after a successful bind, binding the same name again changes nothing and logs nothing |
| BindingProperties.RebindRemovesThenAdds | scripts/OBS_Mute_Indicator.py:81-94 | rebinding from a to an existing b logs exactly "removed a" then "added b" and leaves only b connected |
| BindingProperties.BindMissingSource | scripts/OBS_Mute_Indicator.py:84-89 | binding an unregistered name fails, connects nothing and logs one error only when loaded and debug |
| BindingProperties.StaleNameAfterFailedRebind | scripts/OBS_Mute_Indicator.py:78-89 | a failed rebind disconnects the old source but keeps its name, so requesting it again is a no-op that leaves it unmonitored |
| BindingProperties.UnloadTwice | scripts/OBS_Mute_Indicator.py:213-216 | unloading while bound disconnects; a second unload keeps the state and only logs the removal and goodbye again |
| BindingProperties.TicksWhileMissing | scripts/OBS_Mute_Indicator.py:144-150 | while the configured source is missing, k ticks only append k waiting lines (with debug) |
| BindingProperties.TicksAfterCancel | scripts/OBS_Mute_Indicator.py:147-148 | once the timer is removed, further ticks change nothing |
| BindingProperties.PollerBindsOnce | scripts/OBS_Mute_Indicator.py:141-152 | k missing ticks, then the source appears: the next tick binds it, sets sources_loaded and stops the timer, later ticks do nothing, and exactly one "added" event is logged |
| BindingProperties.LatestMuteWins | scripts/OBS_Mute_Indicator.py:52-55 | each mute notification fully replaces the previous status text |
| BindingProperties.ApplyKeepsInv | scripts/OBS_Mute_Indicator.py:75-216 | every entry point and host event keeps the binding invariant |
| BindingProperties.ApplyKeepsLoaded | scripts/OBS_Mute_Indicator.py:141-216 | no entry point or host event clears sources_loaded |
| BindingProperties.ApplyKeepsTracking | scripts/OBS_Mute_Indicator.py:52-55 | every entry point and host event keeps the only handler, if any, on the configured source_name, the name a mute notification publishes |
| BindingProperties.RunKeepsTracking | scripts/OBS_Mute_Indicator.py:52-55 | the handler stays on source_name after any sequence of entry points and host events |
| BindingProperties.RunKeepsInv | scripts/OBS_Mute_Indicator.py:75-216 | the invariant holds after any sequence of entry points and host events |
| BindingProperties.LoadedStaysLoaded | scripts/OBS_Mute_Indicator.py:32-33 | once set, sources_loaded never returns to false over any sequence of events, from any state |
| BindingProperties.AtMostOneSubscription | scripts/OBS_Mute_Indicator.py:75-117 | from script import onward, at most one "mute" subscription exists, on the recorded name, on a registered source and on the configured source_name |
| MuteIndicator.GetMuted | scripts/OBS_Mute_Indicator.py:58-67 | None iff no source has the name; otherwise the flag of a registered source of that name; the reference taken is released |
| MuteIndicator.Plugin.constructor | scripts/OBS_Mute_Indicator.py:28-33 | the module-level initial values, with the invariant established |
| MuteIndicator.Plugin.DPrint | scripts/OBS_Mute_Indicator.py:39-41 | prints the event only when debug holds (Binding.DPrint) |
| MuteIndicator.Plugin.WriteOutput | scripts/OBS_Mute_Indicator.py:52-55 | `__muted__` becomes the status text of source_name, as Binding.MuteSignal |
| MuteIndicator.Plugin.MuteCallback | scripts/OBS_Mute_Indicator.py:70-72 | publishes the calldata's "muted" boolean (false when absent), as Binding.MuteSignal |
| MuteIndicator.Plugin.RemoveMutedCallback | scripts/OBS_Mute_Indicator.py:101-117 | makes the Binding.Remove transition; acquisitions and releases balance |
| MuteIndicator.Plugin.CreateMutedCallback | scripts/OBS_Mute_Indicator.py:75-98 | makes the Binding.Create transition, including the nested removal; acquisitions and releases balance |
| MuteIndicator.Plugin.SourceLoading | scripts/OBS_Mute_Indicator.py:141-152 | makes the Binding.SourceLoading transition; the extra lookup and the nested ones are all released; the invariant is kept |
| MuteIndicator.Plugin.ScriptUpdate | scripts/OBS_Mute_Indicator.py:174-182 | makes the Binding.Update transition; references balance; the invariant is kept |
| MuteIndicator.Plugin.ScriptLoad | scripts/OBS_Mute_Indicator.py:207-210 | arms the timer (Binding.Load) |
| MuteIndicator.Plugin.ScriptUnload | scripts/OBS_Mute_Indicator.py:213-216 | makes the Binding.Unload transition; references balance; the invariant is kept |

## Left out

- The real OBS API is not modelled. `obspython` is foreign code; `ObsHost.Host` is a fake that
  records what the script asks of it. The fake's assumptions: lookup finds the first source with
  the name, disconnect removes the handler, and private data is updated one key at a time.
- The dynamic `getattr(obs, "obs_data_set_" + type)` dispatch in `send_to_private_data` is not
  modelled. The model sets the string field `__muted__` directly, and the temporary data object
  it creates and releases is not modelled.
- `script_properties` and `script_description` are not modelled; they only build the settings
  UI and a description string.
- The 10 ms timer period is not modelled. Timer ticks are explicit calls to `SourceLoading`,
  made only while the timer flag is set (`BindingProperties.Ticks`, `Apply`).
- Asynchronous and concurrent delivery of signals is not modelled. Every entry point, including
  a mute notification, is one sequential call.
- Printed messages are tagged events, not formatted text.
- The reference counts that `obs_enum_sources` takes and `source_list_release` gives back in
  `list_audio_sources` are not tracked. `Registry.ListAudioSources` takes the enumerated list as
  a parameter.
- Source renames are not modelled. The host fake can only create and destroy sources. In OBS a
  rename keeps the source and its signal handler, so the "mute" handler stays connected under the
  new name while `callback_name` keeps the old one. Selecting the renamed source then fails to
  remove the old handler (lookup of the old name) and connects a second handler on the same
  source. `connected` is a set of names and cannot count handlers, so
  `BindingProperties.AtMostOneSubscription` does not cover runs that include a rename.
- `script_load` ignores its settings argument, so `ScriptLoad` takes none.
- MuteIndicator.GetMuted: states the flag of some registered source with that name, not which
  one when names repeat, because the host keeps source names unique.
