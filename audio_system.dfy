/**
  The integer-handle facade (`AudioSystem`): sounds and events live in two
  growable tables whose indices are the handles given to callers, banks in a
  table keyed by file path. Every operation is a no-op unless the system is
  initialized and, for a per-handle operation, the handle indexes its table.
 */
module AudioSystemFacade {
  import opened Middleware

  /** One loaded sound and the channel it last played on; the defaults are those of a fresh record. */
  datatype SoundInstance = SoundInstance(
    sound: Ptr := Null,
    channel: Ptr := Null,
    path: string := "",
    isLooping: bool := false,
    volume: real := 1.0,
    pitch: real := 1.0)

  /** One event instance and its cached playing flag; the defaults are those of a fresh record. */
  datatype EventInstance = EventInstance(
    instance: Ptr := Null,
    path: string := "",
    isPlaying: bool := false)

  /** The number of events in `es` whose cached flag says they are playing. */
  function CountPlaying(es: seq<EventInstance>): nat {
    if es == [] then 0
    else CountPlaying(es[..|es| - 1]) + (if es[|es| - 1].isPlaying then 1 else 0)
  }

  /** The positions of `es` that hold a playing event: an independent definition of the count. */
  ghost function PlayingIndices(es: seq<EventInstance>): set<int> {
    set i | 0 <= i < |es| && es[i].isPlaying
  }

  lemma {:induction false} CountPlayingIsCardinality(es: seq<EventInstance>)
    ensures CountPlaying(es) == |PlayingIndices(es)|
  {
    if es != [] {
      var front := es[..|es| - 1];
      CountPlayingIsCardinality(front);
      var n := |es| - 1;
      assert PlayingIndices(es) == PlayingIndices(front) + (if es[n].isPlaying then {n} else {}) by {
        forall i | 0 <= i < n ensures front[i] == es[i] { }
      }
    }
  }

  lemma {:induction false} CountPlayingBounded(es: seq<EventInstance>)
    ensures CountPlaying(es) <= |es|
  {
    if es != [] {
      CountPlayingBounded(es[..|es| - 1]);
    }
  }

  /** Marking event `i` as playing raises the count by one exactly when it was not playing before. */
  lemma CountPlayingAfterStart(es: seq<EventInstance>, i: int)
    requires 0 <= i < |es|
    ensures CountPlaying(es[i := es[i].(isPlaying := true)])
         == CountPlaying(es) + (if es[i].isPlaying then 0 else 1)
  {
    var es' := es[i := es[i].(isPlaying := true)];
    CountPlayingIsCardinality(es);
    CountPlayingIsCardinality(es');
    assert PlayingIndices(es') == PlayingIndices(es) + {i};
  }

  /** The record after one Update: an event with an instance is playing unless the middleware reports it stopped. */
  function Refresh(e: EventInstance, state: Ptr -> PlaybackState): EventInstance {
    if e.instance != Null then e.(isPlaying := state(e.instance) != Stopped) else e
  }

  function Refreshed(es: seq<EventInstance>, state: Ptr -> PlaybackState): seq<EventInstance> {
    seq(|es|, i requires 0 <= i < |es| => Refresh(es[i], state))
  }

  /**
    Refreshing keeps the table's length, handles and paths, sets every flag
    of an event with an instance from the reported state, and leaves the rest
    alone; doing it twice in the same middleware state changes nothing more.
   */
  lemma RefreshedKeepsRecords(es: seq<EventInstance>, state: Ptr -> PlaybackState)
    ensures |Refreshed(es, state)| == |es|
    ensures forall i :: 0 <= i < |es| ==>
              && Refreshed(es, state)[i].instance == es[i].instance
              && Refreshed(es, state)[i].path == es[i].path
              && Refreshed(es, state)[i].isPlaying
                 == (if es[i].instance != Null then state(es[i].instance) != Stopped else es[i].isPlaying)
    ensures Refreshed(Refreshed(es, state), state) == Refreshed(es, state)
  {
  }

  /** The release commands Shutdown issues for the event table, in table order. */
  function EventReleases(es: seq<EventInstance>): seq<Call> {
    if es == [] then []
    else
      var last := es[|es| - 1];
      EventReleases(es[..|es| - 1]) + (if last.instance != Null then [ReleaseEvent(last.instance)] else [])
  }

  /** The release commands Shutdown issues for the sound table, in table order. */
  function SoundReleases(ss: seq<SoundInstance>): seq<Call> {
    if ss == [] then []
    else
      var last := ss[|ss| - 1];
      SoundReleases(ss[..|ss| - 1]) + (if last.sound != Null then [ReleaseSound(last.sound)] else [])
  }

  /** Every event that holds an instance has it released. */
  lemma {:induction false} EventReleasesCover(es: seq<EventInstance>, i: int)
    requires 0 <= i < |es| && es[i].instance != Null
    ensures ReleaseEvent(es[i].instance) in EventReleases(es)
  {
    if i < |es| - 1 {
      EventReleasesCover(es[..|es| - 1], i);
    }
  }

  /** Every sound that holds a middleware sound has it released. */
  lemma {:induction false} SoundReleasesCover(ss: seq<SoundInstance>, i: int)
    requires 0 <= i < |ss| && ss[i].sound != Null
    ensures ReleaseSound(ss[i].sound) in SoundReleases(ss)
  {
    if i < |ss| - 1 {
      SoundReleasesCover(ss[..|ss| - 1], i);
    }
  }

  /** The release commands for the instances of the event table, in table order. */
  method EventReleaseCalls(es: seq<EventInstance>) returns (releases: seq<Call>)
    ensures releases == EventReleases(es)
  {
    releases := [];
    var i := 0;
    while i < |es|
      invariant 0 <= i <= |es|
      invariant releases == EventReleases(es[..i])
    {
      if es[i].instance != Null {
        releases := releases + [ReleaseEvent(es[i].instance)];
      }
      assert es[..i + 1][..i] == es[..i];
      i := i + 1;
    }
    assert es[..|es|] == es;
  }

  /** The release commands for the sounds of the sound table, in table order. */
  method SoundReleaseCalls(ss: seq<SoundInstance>) returns (releases: seq<Call>)
    ensures releases == SoundReleases(ss)
  {
    releases := [];
    var i := 0;
    while i < |ss|
      invariant 0 <= i <= |ss|
      invariant releases == SoundReleases(ss[..i])
    {
      if ss[i].sound != Null {
        releases := releases + [ReleaseSound(ss[i].sound)];
      }
      assert ss[..i + 1][..i] == ss[..i];
      i := i + 1;
    }
    assert ss[..|ss|] == ss;
  }

  /**
    How far Initialize gets: the number of its four middleware steps (create
    the studio system, get the core system, initialize, create the master
    channel group) that succeed before the first failure.
   */
  function InitProgress(create: Answer, core: Answer, init: FmodResult, group: Answer): (p: nat)
    ensures p <= 4
    ensures p == 4 <==> create.result == FmodOk && core.result == FmodOk && init == FmodOk && group.result == FmodOk
  {
    if create.result != FmodOk then 0
    else if core.result != FmodOk then 1
    else if init != FmodOk then 2
    else if group.result != FmodOk then 3
    else 4
  }

  class AudioSystem {
    var coreSystem: Ptr
    var studioSystem: Ptr
    var masterChannelGroup: Ptr
    var sounds: seq<SoundInstance>
    var events: seq<EventInstance>
    var banks: map<string, Ptr>
    var initialized: bool
    var masterVolume: real
    var isRemoteConnected: bool
    /** The middleware commands issued so far. */
    var calls: seq<Call>

    /** Only an initialized system holds sounds, events or banks. */
    ghost predicate Valid()
      reads this
    {
      !initialized ==> sounds == [] && events == [] && banks == map[]
    }

    /** A handle that a per-sound operation acts on. */
    predicate IsSoundId(soundId: int)
      reads this
    {
      initialized && 0 <= soundId < |sounds|
    }

    /** A handle that a per-event operation acts on. */
    predicate IsEventId(eventId: int)
      reads this
    {
      initialized && 0 <= eventId < |events|
    }

    constructor ()
      ensures Valid()
      ensures !initialized && masterVolume == 1.0 && !isRemoteConnected
      ensures coreSystem == Null && studioSystem == Null && masterChannelGroup == Null
      ensures sounds == [] && events == [] && banks == map[] && calls == []
    {
      coreSystem, studioSystem, masterChannelGroup := Null, Null, Null;
      sounds, events, banks := [], [], map[];
      initialized, masterVolume, isRemoteConnected := false, 1.0, false;
      calls := [];
    }

    /**
      Brings the middleware up in four steps and stops at the first failing
      one; `create`, `core`, `init` and `group` are the middleware's answers
      to those steps.
     */
    method Initialize(create: Answer, core: Answer, init: FmodResult, group: Answer) returns (ok: bool)
      requires Valid()
      modifies this`studioSystem, this`coreSystem, this`masterChannelGroup, this`initialized, this`calls
      ensures Valid()
      ensures old(initialized) ==> ok && unchanged(this)
      ensures !old(initialized) ==>
        var p := InitProgress(create, core, init, group);
        && ok == (p == 4)
        && initialized == ok
        && studioSystem == create.handle
        && coreSystem == (if p >= 1 then core.handle else old(coreSystem))
        && masterChannelGroup == (if p >= 3 then group.handle else old(masterChannelGroup))
        && calls == old(calls) + [CreateStudioSystem]
                    + (if p >= 2 then [InitializeStudio(1024, false)] else [])
                    + (if p >= 3 then [CreateChannelGroup("Master")] else [])
    {
      if initialized {
        return true;
      }
      calls := calls + [CreateStudioSystem];
      studioSystem := create.handle;
      if create.result != FmodOk {
        return false;
      }
      coreSystem := core.handle;
      if core.result != FmodOk {
        return false;
      }
      calls := calls + [InitializeStudio(1024, false)];
      if init != FmodOk {
        return false;
      }
      calls := calls + [CreateChannelGroup("Master")];
      masterChannelGroup := group.handle;
      if group.result != FmodOk {
        return false;
      }
      initialized := true;
      return true;
    }

    /**
      Unloads every bank, releases every event instance and sound, the master
      channel group and the studio system, and empties all three tables.
      The master volume is left as it was.
     */
    method Shutdown()
      requires Valid()
      modifies this`banks, this`events, this`sounds, this`masterChannelGroup
      modifies this`studioSystem, this`coreSystem, this`initialized, this`calls
      ensures Valid() && !initialized
      ensures sounds == [] && events == [] && banks == map[]
      ensures !old(initialized) ==> unchanged(this)
      ensures old(initialized) ==>
        && masterChannelGroup == Null
        && studioSystem == Null
        && coreSystem == (if old(studioSystem) != Null then Null else old(coreSystem))
        && exists order :: Enumerates(order, old(banks).Keys) &&
             calls == old(calls) + UnloadCalls(order, old(banks))
                      + EventReleases(old(events)) + SoundReleases(old(sounds))
                      + (if old(masterChannelGroup) != Null then [ReleaseChannelGroup(old(masterChannelGroup))] else [])
                      + (if old(studioSystem) != Null then [ReleaseStudio(old(studioSystem))] else [])
    {
      if !initialized {
        return;
      }
      var unloads, order := BankUnloadCalls(banks);
      var eventReleases := EventReleaseCalls(events);
      var soundReleases := SoundReleaseCalls(sounds);
      var groupRelease := if masterChannelGroup != Null then [ReleaseChannelGroup(masterChannelGroup)] else [];
      var studioRelease := if studioSystem != Null then [ReleaseStudio(studioSystem)] else [];
      calls := calls + unloads + eventReleases + soundReleases + groupRelease + studioRelease;
      banks, events, sounds := map[], [], [];
      masterChannelGroup := Null;
      if studioSystem != Null {
        studioSystem := Null;
        coreSystem := Null;
      }
      initialized := false;
    }

    /**
      Pumps the middleware once and refreshes the cached playing flag of every
      event that holds an instance; `state` is the playback state the
      middleware reports for each instance.
     */
    method Update(deltaTime: real, state: Ptr -> PlaybackState)
      requires Valid()
      modifies this`events, this`calls
      ensures Valid()
      ensures !old(initialized) ==> unchanged(this)
      ensures old(initialized) ==>
        && events == Refreshed(old(events), state)
        && calls == old(calls) + (if studioSystem != Null then [StudioUpdate(studioSystem)] else [])
    {
      if !initialized {
        return;
      }
      if studioSystem != Null {
        calls := calls + [StudioUpdate(studioSystem)];
      }
      var i := 0;
      while i < |events|
        invariant 0 <= i <= |events| == |old(events)|
        invariant forall j :: 0 <= j < i ==> events[j] == Refresh(old(events)[j], state)
        invariant forall j :: i <= j < |events| ==> events[j] == old(events)[j]
        invariant calls == old(calls) + (if studioSystem != Null then [StudioUpdate(studioSystem)] else [])
      {
        if events[i].instance != Null {
          events := events[i := events[i].(isPlaying := state(events[i].instance) != Stopped)];
        }
        i := i + 1;
      }
    }

    /**
      Creates a sound from `path`; `created` is the middleware's answer.
      Returns the new handle, or -1 with the table unchanged.
     */
    method LoadSound(path: string, created: Answer, isLooping: bool := false, is3D: bool := false) returns (soundId: int)
      requires Valid()
      modifies this`sounds, this`calls
      ensures Valid()
      ensures !old(initialized) ==> soundId == -1 && unchanged(this)
      ensures old(initialized) ==> calls == old(calls) + [CreateSound(path, isLooping, is3D)]
      ensures soundId == -1 <==> !initialized || created.result != FmodOk
      ensures soundId == -1 ==> sounds == old(sounds)
      ensures soundId != -1 ==>
        && soundId == |old(sounds)|
        && sounds == old(sounds) + [SoundInstance(created.handle, Null, path, isLooping, 1.0, 1.0)]
    {
      if !initialized {
        return -1;
      }
      var newSound := SoundInstance(path := path, isLooping := isLooping);
      calls := calls + [CreateSound(path, isLooping, is3D)];
      newSound := newSound.(sound := created.handle);
      if created.result != FmodOk {
        return -1;
      }
      sounds := sounds + [newSound];
      return |sounds| - 1;
    }

    /**
      Plays the sound on the master channel group; `played` is the
      middleware's answer, whose pointer becomes the sound's channel. On
      success the cached volume and pitch are applied to that channel.
     */
    method PlaySound(soundId: int, played: Answer)
      modifies this`sounds, this`calls
      ensures !old(IsSoundId(soundId)) || old(sounds[soundId].sound) == Null ==> unchanged(this)
      ensures old(IsSoundId(soundId)) && old(sounds[soundId].sound) != Null ==>
        var s := old(sounds[soundId]);
        && sounds == old(sounds)[soundId := s.(channel := played.handle)]
        && calls == old(calls) + [PlaySoundOn(s.sound, masterChannelGroup)]
                    + (if played.result == FmodOk && played.handle != Null
                       then [ChannelSetVolume(played.handle, s.volume), ChannelSetPitch(played.handle, s.pitch)]
                       else [])
    {
      if !IsSoundId(soundId) {
        return;
      }
      var sound := sounds[soundId];
      if sound.sound != Null {
        calls := calls + [PlaySoundOn(sound.sound, masterChannelGroup)];
        sound := sound.(channel := played.handle);
        sounds := sounds[soundId := sound];
        if played.result == FmodOk && sound.channel != Null {
          calls := calls + [ChannelSetVolume(sound.channel, sound.volume), ChannelSetPitch(sound.channel, sound.pitch)];
        }
      }
    }

    /** Stops the sound's channel, if it has one; the record itself is kept. */
    method StopSound(soundId: int)
      modifies this`calls
      ensures calls == old(calls) + (if IsSoundId(soundId) && sounds[soundId].channel != Null
                                     then [ChannelStop(sounds[soundId].channel)] else [])
    {
      if !IsSoundId(soundId) {
        return;
      }
      if sounds[soundId].channel != Null {
        calls := calls + [ChannelStop(sounds[soundId].channel)];
      }
    }

    /** Caches `volume` in the sound's record, with or without a channel, and applies it to the channel if any. */
    method SetSoundVolume(soundId: int, volume: real)
      modifies this`sounds, this`calls
      ensures !old(IsSoundId(soundId)) ==> unchanged(this)
      ensures old(IsSoundId(soundId)) ==>
        var s := old(sounds[soundId]);
        && sounds == old(sounds)[soundId := s.(volume := volume)]
        && calls == old(calls) + (if s.channel != Null then [ChannelSetVolume(s.channel, volume)] else [])
    {
      if !IsSoundId(soundId) {
        return;
      }
      sounds := sounds[soundId := sounds[soundId].(volume := volume)];
      if sounds[soundId].channel != Null {
        calls := calls + [ChannelSetVolume(sounds[soundId].channel, volume)];
      }
    }

    /** Caches `pitch` in the sound's record, with or without a channel, and applies it to the channel if any. */
    method SetSoundPitch(soundId: int, pitch: real)
      modifies this`sounds, this`calls
      ensures !old(IsSoundId(soundId)) ==> unchanged(this)
      ensures old(IsSoundId(soundId)) ==>
        var s := old(sounds[soundId]);
        && sounds == old(sounds)[soundId := s.(pitch := pitch)]
        && calls == old(calls) + (if s.channel != Null then [ChannelSetPitch(s.channel, pitch)] else [])
    {
      if !IsSoundId(soundId) {
        return;
      }
      sounds := sounds[soundId := sounds[soundId].(pitch := pitch)];
      if sounds[soundId].channel != Null {
        calls := calls + [ChannelSetPitch(sounds[soundId].channel, pitch)];
      }
    }

    /** Pans the sound's channel, if it has one; the pan is not cached. */
    method SetSoundPan(soundId: int, pan: real)
      modifies this`calls
      ensures calls == old(calls) + (if IsSoundId(soundId) && sounds[soundId].channel != Null
                                     then [ChannelSetPan(sounds[soundId].channel, pan)] else [])
    {
      if !IsSoundId(soundId) {
        return;
      }
      if sounds[soundId].channel != Null {
        calls := calls + [ChannelSetPan(sounds[soundId].channel, pan)];
      }
    }

    /**
      Loads the bank at `bankPath` once; `loaded` is the middleware's answer.
      A path already in the table is reported loaded without a second load.
     */
    method LoadBank(bankPath: string, loaded: Answer, loadSamples: bool := true) returns (ok: bool)
      requires Valid()
      modifies this`banks, this`calls
      ensures Valid()
      ensures !old(initialized) ==> !ok && unchanged(this)
      ensures old(initialized) && bankPath in old(banks) ==> ok && unchanged(this)
      ensures old(initialized) && bankPath !in old(banks) ==>
        && calls == old(calls) + [LoadBankFile(bankPath, !loadSamples)]
        && ok == (loaded.result == FmodOk && loaded.handle != Null)
        && banks == (if ok then old(banks)[bankPath := loaded.handle] else old(banks))
      ensures banks.Keys == old(banks).Keys + (if ok then {bankPath} else {})
      ensures forall p :: p in old(banks) ==> p in banks && banks[p] == old(banks)[p]
    {
      if !initialized {
        return false;
      }
      if bankPath in banks {
        return true;
      }
      calls := calls + [LoadBankFile(bankPath, !loadSamples)];
      if loaded.result != FmodOk || loaded.handle == Null {
        return false;
      }
      banks := banks[bankPath := loaded.handle];
      return true;
    }

    /** Unloads and forgets the bank at `bankPath`, if the table has it. */
    method UnloadBank(bankPath: string)
      requires Valid()
      modifies this`banks, this`calls
      ensures Valid()
      ensures !(old(initialized) && bankPath in old(banks)) ==> unchanged(this)
      ensures old(initialized) && bankPath in old(banks) ==>
        && banks == old(banks) - {bankPath}
        && calls == old(calls) + (if old(banks)[bankPath] != Null then [Middleware.UnloadBank(old(banks)[bankPath])] else [])
    {
      if !initialized {
        return;
      }
      if bankPath in banks {
        if banks[bankPath] != Null {
          calls := calls + [Middleware.UnloadBank(banks[bankPath])];
        }
        banks := banks - {bankPath};
      }
    }

    /**
      Creates an instance of the event at `eventPath`; `lookup` is the
      middleware's answer to the description lookup and `created` its answer
      to the instance creation. Returns the new handle, or -1 with the table
      unchanged.
     */
    method CreateEventInstance(eventPath: string, lookup: Answer, created: Answer) returns (eventId: int)
      requires Valid()
      modifies this`events, this`calls
      ensures Valid()
      ensures !(old(initialized) && lookup.result == FmodOk && lookup.handle != Null) ==>
                eventId == -1 && unchanged(this)
      ensures old(initialized) && lookup.result == FmodOk && lookup.handle != Null ==>
                calls == old(calls) + [CreateInstance(lookup.handle)]
      ensures eventId == -1 <==>
                !initialized || lookup.result != FmodOk || lookup.handle == Null
                || created.result != FmodOk || created.handle == Null
      ensures eventId == -1 ==> events == old(events)
      ensures eventId != -1 ==>
        && eventId == |old(events)|
        && events == old(events) + [EventInstance(created.handle, eventPath, false)]
    {
      if !initialized {
        return -1;
      }
      if lookup.result != FmodOk || lookup.handle == Null {
        return -1;
      }
      calls := calls + [CreateInstance(lookup.handle)];
      if created.result != FmodOk || created.handle == Null {
        return -1;
      }
      var newEvent := EventInstance(instance := created.handle, path := eventPath);
      events := events + [newEvent];
      return |events| - 1;
    }

    /** Starts the event's instance, if it has one, and marks that event, and no other, as playing. */
    method PlayEvent(eventId: int)
      modifies this`events, this`calls
      ensures !old(IsEventId(eventId)) || old(events[eventId].instance) == Null ==> unchanged(this)
      ensures old(IsEventId(eventId)) && old(events[eventId].instance) != Null ==>
        && events == old(events)[eventId := old(events[eventId]).(isPlaying := true)]
        && calls == old(calls) + [StartEvent(old(events[eventId].instance))]
    {
      if !IsEventId(eventId) {
        return;
      }
      if events[eventId].instance != Null {
        calls := calls + [StartEvent(events[eventId].instance)];
        events := events[eventId := events[eventId].(isPlaying := true)];
      }
    }

    /**
      Stops the event's instance, if it has one, immediately or with a fade
      out. The record stays in the table and its playing flag is left to the
      next Update.
     */
    method StopEvent(eventId: int, immediate: bool := false)
      modifies this`calls
      ensures calls == old(calls) + (if IsEventId(eventId) && events[eventId].instance != Null
                                     then [Middleware.StopEvent(events[eventId].instance, immediate)] else [])
    {
      if !IsEventId(eventId) {
        return;
      }
      if events[eventId].instance != Null {
        calls := calls + [Middleware.StopEvent(events[eventId].instance, immediate)];
      }
    }

    /** Sets a parameter of the event's instance by name, if it has an instance; nothing is cached. */
    method SetEventParameter(eventId: int, paramName: string, value: real)
      modifies this`calls
      ensures calls == old(calls) + (if IsEventId(eventId) && events[eventId].instance != Null
                                     then [SetParameter(events[eventId].instance, paramName, value)] else [])
    {
      if !IsEventId(eventId) {
        return;
      }
      if events[eventId].instance != Null {
        calls := calls + [SetParameter(events[eventId].instance, paramName, value)];
      }
    }

    /**
      Reads a parameter of the event's instance; `reported` is the value the
      middleware writes back, or None when it writes nothing. Without a
      valid handle, an instance or a reported value the result is 0.
     */
    method GetEventParameter(eventId: int, paramName: string, reported: Option<real>) returns (value: real)
      ensures !IsEventId(eventId) ==> value == 0.0
      ensures IsEventId(eventId) && events[eventId].instance == Null ==> value == 0.0
      ensures IsEventId(eventId) && events[eventId].instance != Null ==>
                value == (if reported.Some? then reported.value else 0.0)
    {
      if !IsEventId(eventId) {
        return 0.0;
      }
      value := 0.0;
      if events[eventId].instance != Null && reported.Some? {
        value := reported.value;
      }
    }

    /** Sets and caches the master volume, but only when initialized with a master channel group. */
    method SetMasterVolume(volume: real)
      modifies this`masterVolume, this`calls
      ensures if old(initialized) && masterChannelGroup != Null
              then masterVolume == volume && calls == old(calls) + [GroupSetVolume(masterChannelGroup, volume)]
              else unchanged(this)
    {
      if !initialized || masterChannelGroup == Null {
        return;
      }
      masterVolume := volume;
      calls := calls + [GroupSetVolume(masterChannelGroup, volume)];
    }

    /** The cached master volume: the value last set, never read back from the middleware. */
    function GetMasterVolume(): (volume: real)
      reads this
      ensures volume == masterVolume
    {
      masterVolume
    }

    /** Pauses or resumes everything on the master channel group, when initialized with one. */
    method PauseAllSounds(pause: bool)
      modifies this`calls
      ensures calls == old(calls) + (if initialized && masterChannelGroup != Null
                                     then [GroupSetPaused(masterChannelGroup, pause)] else [])
    {
      if !initialized || masterChannelGroup == Null {
        return;
      }
      calls := calls + [GroupSetPaused(masterChannelGroup, pause)];
    }

    /** Remote editing is not implemented: connecting always fails. */
    method ConnectToStudioRemote(host: string := "127.0.0.1", port: int := 9264) returns (connected: bool)
      ensures !connected
    {
      connected := false;
    }

    /** Remote editing is not implemented: disconnecting does nothing. */
    method DisconnectFromStudioRemote()
      ensures unchanged(this)
    {
    }

    /** Remote editing is not implemented: never connected, whatever the flag holds. */
    method IsConnectedToStudioRemote() returns (connected: bool)
      ensures !connected
    {
      connected := false;
    }

    /** The number of loaded sounds: once initialized, the handles in use are exactly 0 up to it. */
    function GetLoadedSoundsCount(): (count: int)
      reads this
      ensures count >= 0
      ensures initialized ==> forall soundId :: IsSoundId(soundId) <==> 0 <= soundId < count
    {
      |sounds|
    }

    /** The number of created events: once initialized, the handles in use are exactly 0 up to it. */
    function GetLoadedEventsCount(): (count: int)
      reads this
      ensures count >= 0
      ensures initialized ==> forall eventId :: IsEventId(eventId) <==> 0 <= eventId < count
    {
      |events|
    }

    /** Counts the events whose cached flag says they are playing. */
    method GetPlayingEventsCount() returns (count: int)
      ensures count == CountPlaying(events)
      ensures 0 <= count <= GetLoadedEventsCount()
    {
      count := 0;
      var i := 0;
      while i < |events|
        invariant 0 <= i <= |events|
        invariant count == CountPlaying(events[..i])
      {
        if events[i].isPlaying {
          count := count + 1;
        }
        assert events[..i + 1][..i] == events[..i];
        i := i + 1;
      }
      assert events[..|events|] == events;
      CountPlayingBounded(events);
    }
  }

  /** Setting the master volume and reading it back yields the value set, when there is a master group to set it on. */
  method SetThenGetMasterVolume(audio: AudioSystem, volume: real) returns (got: real)
    modifies audio
    ensures old(audio.initialized && audio.masterChannelGroup != Null) ==> got == volume
    ensures !old(audio.initialized && audio.masterChannelGroup != Null) ==> got == old(audio.masterVolume)
  {
    audio.SetMasterVolume(volume);
    got := audio.GetMasterVolume();
  }
}
