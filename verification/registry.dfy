/** list_audio_sources: the names of the enumerated input sources that have audio. */
module Registry {
  import opened ObsHost

  /** An input source whose output flags carry the audio bit (any nonzero test of that one bit). */
  predicate IsAudioInput(s: Source)
    ensures IsAudioInput(s) <==> s.kind == Input && s.outputFlags & AudioFlag == AudioFlag
    ensures s.kind != Input ==> !IsAudioInput(s)
  {
    s.kind == Input && s.outputFlags & AudioFlag != 0
  }

  /** The reference definition: filter the enumeration, keeping order. */
  function AudioNames(sources: seq<Source>): seq<string>
  {
    if sources == [] then []
    else
      var last := sources[|sources| - 1];
      AudioNames(sources[..|sources| - 1]) + (if IsAudioInput(last) then [last.name] else [])
  }

  /** Filtering distributes over concatenation: enumeration order is kept, nothing is added. */
  lemma {:induction false} AudioNamesAppend(a: seq<Source>, b: seq<Source>)
    ensures AudioNames(a + b) == AudioNames(a) + AudioNames(b)
    decreases |b|
  {
    if b == [] {
      assert a + b == a;
    } else {
      var last := b[|b| - 1];
      assert (a + b)[..|a + b| - 1] == a + b[..|b| - 1];
      AudioNamesAppend(a, b[..|b| - 1]);
    }
  }

  /** A name is listed exactly when some enumerated audio input carries it. */
  lemma {:induction false} AudioNamesMembers(sources: seq<Source>, x: string)
    ensures x in AudioNames(sources) <==>
      exists i :: 0 <= i < |sources| && sources[i].name == x && IsAudioInput(sources[i])
    decreases |sources|
  {
    if sources != [] {
      var init := sources[..|sources| - 1];
      AudioNamesMembers(init, x);
      assert forall i :: 0 <= i < |init| ==> init[i] == sources[i];
    }
  }

  /** At most one name per enumerated source. */
  lemma {:induction false} AudioNamesLength(sources: seq<Source>)
    ensures |AudioNames(sources)| <= |sources|
    decreases |sources|
  {
    if sources != [] {
      AudioNamesLength(sources[..|sources| - 1]);
    }
  }

  /** The loop of list_audio_sources over the result of obs_enum_sources. */
  method ListAudioSources(sources: seq<Source>) returns (audioSources: seq<string>)
    ensures audioSources == AudioNames(sources)
    ensures forall x :: x in audioSources <==>
      exists i :: 0 <= i < |sources| && sources[i].name == x && IsAudioInput(sources[i])
    ensures sources == [] ==> audioSources == []
  {
    audioSources := [];
    for k := 0 to |sources|
      invariant audioSources == AudioNames(sources[..k])
    {
      var source := sources[k];
      assert sources[..k + 1][..k] == sources[..k];
      if source.kind == Input {
        var capabilities := source.outputFlags;
        var hasAudio := capabilities & AudioFlag;
        if hasAudio != 0 {
          audioSources := audioSources + [source.name];
        }
      }
    }
    assert sources[..|sources|] == sources;
    forall x {
      AudioNamesMembers(sources, x);
    }
  }
}
