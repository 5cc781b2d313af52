# FMOD wrapper bookkeeping, modelled in Dafny

The repository wraps the FMOD Studio and Core audio middleware for a 2D game
engine. Almost every operation forwards to the middleware. What the wrapper
decides itself is modelled here:
- its lifecycle flag;
- its bank tables keyed by path or name;
- its integer-indexed sound and event tables;
- its active-instance lists, with their append, remove-first and prune rules;
- the values it caches, such as volume, pitch, master volume and playing flags;
- which middleware commands it issues, with which arguments and in which order.

There are four modules:

- `Middleware` (middleware.dfy): what the wrapper sees of the library.
  - A pointer is an opaque `Ptr`, with `Null` as the C++ null pointer.
  - A call reports an `FmodResult`. A call that writes an out-pointer reports an `Answer`.
  - Each class keeps a `calls` log, and every command the wrapper issues is appended to it.
  - Queries (getEvent, getCoreSystem, getPlaybackState, getParameterByName) are not logged. Their answers are parameters of the operation that asks them.
  - The module also holds the unload commands issued when a `std::unordered_map` of banks is walked in some unspecified order.
- `AudioSystemFacade` (audio_system.dfy): the class `AudioSystem`.
  - It is the integer-handle variant that logs errors and returns `false`/`-1`.
  - `Valid()` is its invariant: an uninitialized system holds no sounds, events or banks.
- `AudioEngineFacade` (audio_engine.dfy): the class `AudioEngine`.
  - It is the pointer-handle variant that throws on any middleware error.
  - A throw is the `Threw` outcome. The state is left as it was at the throw.
  - `EngineHost` models the function-local static behind `AudioEngine::Get`.
  - `Valid()`: no null bank is stored.
- `GameAudio` (game_audio.dfy): the class `GameAudioManager`.
  - Events are shared objects known by identity (`EventRef`).
  - Whether an event is valid or playing is a predicate passed in.
  - The commands issued to events and to the audio system go into a `commands` log.
  - `Valid()`: the current music track is always one of the active events.

## Model

| member | source | states |
|---|---|---|
| Middleware.UnloadCallsSnoc | AudioSystem.cpp:39-44 | visiting one more bank key adds exactly that bank's unload command, and none for a null bank |
| Middleware.UnloadCallsCoverBanks | AudioSystem.cpp:39-44 | every non-null bank in the table gets an unload command, whatever the iteration order |
| Middleware.UnloadCallsOnlyBanks | AudioEngine.cpp:32-34 | nothing but unloads of visited, non-null banks of the table is issued |
| Middleware.UnloadCallsLength | AudioEngine.cpp:32-34 | with no null bank, exactly one unload per key is issued |
| Middleware.BankUnloadCalls | AudioEngine.cpp:32-34 | walking an unordered bank table visits every key exactly once, in some order, and issues the unloads for that order |
| AudioSystemFacade.CountPlayingIsCardinality | AudioSystem.cpp:368-376 | the playing count equals the number of table positions whose cached flag is set |
| AudioSystemFacade.CountPlayingBounded | AudioSystem.cpp:364-376 | the playing count never exceeds the number of events |
| AudioSystemFacade.CountPlayingAfterStart | AudioSystem.cpp:243-251 | marking one event playing raises the playing count by one exactly when it was not playing before |
| AudioSystemFacade.RefreshedKeepsRecords | AudioSystem.cpp:90-97 | a refresh keeps the table length, handles and paths, sets the flag of each event with an instance to "not stopped", leaves the others alone, and is idempotent |
| AudioSystemFacade.EventReleasesCover | AudioSystem.cpp:47-53 | every event that holds an instance has it released at shutdown |
| AudioSystemFacade.SoundReleasesCover | AudioSystem.cpp:56-62 | every record that holds a sound has it released at shutdown |
| AudioSystemFacade.EventReleaseCalls | AudioSystem.cpp:48-53 | the release loop over the event table issues exactly the releases of its non-null instances, in table order |
| AudioSystemFacade.SoundReleaseCalls | AudioSystem.cpp:57-62 | the release loop over the sound table issues exactly the releases of its non-null sounds, in table order |
| AudioSystemFacade.InitProgress | AudioSystem.cpp:11-28 | at most four initialization steps succeed, and all four succeed exactly when all four middleware answers are FMOD_OK |
| AudioSystemFacade.AudioSystem.constructor | AudioSystem.h:79-98 | a fresh system is uninitialized, not remote-connected and has master volume 1.0, null handles and empty tables |
| AudioSystemFacade.AudioSystem.Initialize | AudioSystem.cpp:4-33 | a second call returns true and changes nothing; otherwise it stops at the first failing step, and the system is initialized exactly when true is returned, with the commands issued up to that step |
| AudioSystemFacade.AudioSystem.Shutdown | AudioSystem.cpp:35-80 | a no-op when uninitialized; otherwise it unloads every bank in some order, releases every event instance, sound, the master group and the studio system, empties all tables and leaves the master volume alone |
| AudioSystemFacade.AudioSystem.Update | AudioSystem.cpp:82-98 | a no-op when uninitialized; otherwise it updates the studio system and refreshes exactly the playing flags of events with an instance |
| AudioSystemFacade.AudioSystem.LoadSound | AudioSystem.cpp:100-117 | returns -1 with the table unchanged when uninitialized or when creation fails; otherwise it appends one fresh record (not looping unless asked, volume and pitch 1.0) and returns the old length |
| AudioSystemFacade.AudioSystem.PlaySound | AudioSystem.cpp:119-132 | a no-op for a bad handle or a record without a sound; otherwise it records the new channel in that record only, and applies the cached volume and pitch when playing succeeded |
| AudioSystemFacade.AudioSystem.StopSound | AudioSystem.cpp:134-141 | stops the addressed record's channel, if any, and changes no record |
| AudioSystemFacade.AudioSystem.SetSoundVolume | AudioSystem.cpp:143-151 | for a good handle it caches the volume in that record only, with or without a channel, and applies it to the channel if any; otherwise nothing changes |
| AudioSystemFacade.AudioSystem.SetSoundPitch | AudioSystem.cpp:153-161 | for a good handle it caches the pitch in that record only, with or without a channel, and applies it to the channel if any; otherwise nothing changes |
| AudioSystemFacade.AudioSystem.SetSoundPan | AudioSystem.cpp:163-170 | pans the addressed record's channel, if any; nothing is cached |
| AudioSystemFacade.AudioSystem.LoadBank | AudioSystem.cpp:172-200 | false when uninitialized; true with no load for a path already present; otherwise one load (non-blocking unless samples are loaded), and the table gains exactly that path when the load succeeds with a bank |
| AudioSystemFacade.AudioSystem.UnloadBank | AudioSystem.cpp:202-212 | removes exactly the given path, unloading its bank if non-null; a no-op when uninitialized or when the path is absent |
| AudioSystemFacade.AudioSystem.CreateEventInstance | AudioSystem.cpp:214-241 | returns -1 with the table unchanged when uninitialized or when the lookup or creation fails; otherwise it appends one record (not playing) and returns the old length |
| AudioSystemFacade.AudioSystem.PlayEvent | AudioSystem.cpp:243-251 | starts the addressed event and marks it, and no other record, as playing, when it has an instance; otherwise nothing changes |
| AudioSystemFacade.AudioSystem.StopEvent | AudioSystem.cpp:253-261 | issues the stop for the addressed event's instance, immediate or fade-out; it neither removes the record nor clears its flag |
| AudioSystemFacade.AudioSystem.SetEventParameter | AudioSystem.cpp:263-270 | sets the parameter on the addressed event's instance, if any; no record changes |
| AudioSystemFacade.AudioSystem.GetEventParameter | AudioSystem.cpp:272-281 | 0 for a bad handle or an event without an instance; otherwise the value the middleware reports, or 0 when it reports none |
| AudioSystemFacade.AudioSystem.SetMasterVolume | AudioSystem.cpp:319-324 | caches and applies the volume when initialized with a master group; otherwise nothing changes |
| AudioSystemFacade.AudioSystem.GetMasterVolume | AudioSystem.cpp:326-328 | returns the cached master volume, not a value read back from the middleware |
| AudioSystemFacade.SetThenGetMasterVolume | AudioSystem.cpp:319-328 | setting then reading the master volume yields the value set when there is a master group, and the old cached value otherwise |
| AudioSystemFacade.AudioSystem.PauseAllSounds | AudioSystem.cpp:330-334 | pauses or resumes the master group when initialized with one; otherwise nothing |
| AudioSystemFacade.AudioSystem.ConnectToStudioRemote | AudioSystem.cpp:336-340 | connecting always fails |
| AudioSystemFacade.AudioSystem.DisconnectFromStudioRemote | AudioSystem.cpp:342-344 | disconnecting changes nothing |
| AudioSystemFacade.AudioSystem.IsConnectedToStudioRemote | AudioSystem.cpp:346-348 | never connected |
| AudioSystemFacade.AudioSystem.GetLoadedSoundsCount | AudioSystem.cpp:350-352 | the count is never negative and, once initialized, the sound handles that per-sound operations accept are exactly 0 up to the count |
| AudioSystemFacade.AudioSystem.GetLoadedEventsCount | AudioSystem.cpp:364-366 | the count is never negative and, once initialized, the event handles that per-event operations accept are exactly 0 up to the count |
| AudioSystemFacade.AudioSystem.GetPlayingEventsCount | AudioSystem.cpp:368-376 | the counting loop returns the number of events whose cached flag is set, which is at most the number of events |
| AudioEngineFacade.Check | AudioEngine.h:9-13 | raises exactly when the result is not FMOD_OK, carrying that result, and otherwise has no effect |
| AudioEngineFacade.LoadBankStep | AudioEngine.cpp:56-73 | a name already loaded changes nothing; otherwise the file is requested first, it raises exactly on a failed load with the table unchanged, and only a non-null bank is added, under that name, without touching other entries |
| AudioEngineFacade.LoadRequestsAppend | AudioEngine.cpp:50-54 | the files requested by two command runs in a row are those of the first followed by those of the second |
| AudioEngineFacade.LoadBankStepRequests | AudioEngine.cpp:56-64 | a single load requests the file exactly when the name is not yet loaded |
| AudioEngineFacade.LoadBanksInOrderGrows | AudioEngine.cpp:50-73 | loading banks in order never drops or replaces a bank, adds only requested names, and issues at most one file request per listed path |
| AudioEngineFacade.MasterBanksInThreeSteps | AudioEngine.cpp:50-54 | loading the master banks is three single loads in the fixed order Master, Master.strings, SFX; the first that raises ends it, with the commands issued up to it |
| AudioEngineFacade.MasterBankPathsDistinct | AudioEngine.cpp:51-53 | the three master bank paths are different names, so none of them is skipped as already loaded by an earlier one |
| AudioEngineFacade.MasterBanksAllLoaded | AudioEngine.cpp:50-54 | from an empty table, with every load succeeding, exactly Master, Master.strings and SFX are requested in that order and all three are loaded |
| AudioEngineFacade.MasterBanksStopAtFirstFailure | AudioEngine.cpp:50-54 | when the first master bank fails, it raises with only that file requested and the table unchanged |
| AudioEngineFacade.RemoveFirstErases | AudioEngine.cpp:137-140 | erasing the position found by a first-occurrence search removes the first occurrence |
| AudioEngineFacade.RemoveFirstAbsent | AudioEngine.cpp:137-140 | removing an instance that is not in the list leaves it unchanged |
| AudioEngineFacade.RemoveFirstMultiset | AudioEngine.cpp:137-140 | removing the first occurrence takes out exactly one copy, if any, and keeps every other element |
| AudioEngineFacade.FindFirst | AudioEngine.cpp:137 | the search returns the first position holding the instance, or the list length when it does not occur |
| AudioEngineFacade.StopAndReleaseCover | AudioEngine.cpp:25-28 | each active instance is stopped immediately and then released, in list order, two commands per instance |
| AudioEngineFacade.StopAndReleaseAll | AudioEngine.cpp:25-28 | the shutdown loop issues exactly the stop-and-release commands of the active list |
| AudioEngineFacade.AudioEngine.constructor | AudioEngine.h:41-44 | a fresh engine has null systems, an empty bank table and an empty active list |
| AudioEngineFacade.AudioEngine.Initialize | AudioEngine.cpp:4-21 | it raises at the first failing step (create, initialize with 512 channels and live update, get core) with the banks untouched; otherwise it loads the master banks as LoadBanksInOrder describes |
| AudioEngineFacade.AudioEngine.LoadBank | AudioEngine.cpp:56-73 | the table, the commands and the outcome are those of LoadBankStep |
| AudioEngineFacade.AudioEngine.LoadMasterBanks | AudioEngine.cpp:50-54 | the three fixed paths are loaded in order and it stops at the first that raises, as LoadBanksInOrder describes |
| AudioEngineFacade.AudioEngine.CreateEventInstance | AudioEngine.cpp:75-122 | a failed lookup or creation raises with the active list unchanged; success appends exactly the new instance and returns it |
| AudioEngineFacade.AudioEngine.PlayEvent | AudioEngine.cpp:124-128 | starts a non-null instance; null changes nothing |
| AudioEngineFacade.AudioEngine.StopEvent | AudioEngine.cpp:130-142 | null changes nothing; otherwise it stops (fade-out by default) and releases the instance, then removes its first occurrence from the active list |
| AudioEngineFacade.AudioEngine.SetEventParameter | AudioEngine.cpp:144-148 | sets the parameter of a non-null instance; null changes nothing |
| AudioEngineFacade.AudioEngine.Shutdown | AudioEngine.cpp:23-42 | it stops and releases every active instance, unloads every bank in some order and releases the studio system when there is one; both collections end empty and the studio pointer null |
| AudioEngineFacade.AudioEngine.Update | AudioEngine.cpp:44-48 | updates the studio system when there is one; the time step is unused |
| AudioEngineFacade.EngineHost.Get | AudioEngine.h:17-20 | the first call makes a fresh engine, and every later call returns that same engine |
| AudioEngineFacade.GetTwice | AudioEngine.h:17-20 | two calls return one and the same engine |
| GameAudio.KeepLiveCounts | GameAudioManager.cpp:168-174 | pruning keeps every copy of an event that is valid and playing, and no copy of any other |
| GameAudio.KeepLiveKeepsOrder | GameAudioManager.cpp:168-174 | the pruned list is the subsequence, at strictly increasing positions, of exactly the events that are valid and playing |
| GameAudio.KeepLiveIdempotent | GameAudioManager.cpp:168-174 | pruning twice in the same state removes nothing more |
| GameAudio.LastDot | GameAudioManager.cpp:36 | the position of the last '.' of a name, or -1 when it has none |
| GameAudio.ExtensionStart | GameAudioManager.cpp:36 | the extension starts at the last '.' exactly when that dot is not the first character and the name is not ".."; otherwise it is empty (starts at the end) |
| GameAudio.Extension | GameAudioManager.cpp:36 | an extension is a '.' followed by no other '.', never the whole name; it is non-empty exactly when the last '.' is not the first character and the name is not "..", and then runs from that dot to the end |
| GameAudio.Stem | GameAudioManager.cpp:41 | the stem followed by the extension gives back the file name, and the stem is non-empty when there is an extension |
| GameAudio.ExtensionExamples | GameAudioManager.cpp:36-41 | "Master.strings.bank" has extension ".bank" and stem "Master.strings"; a file named ".bank" has no extension |
| GameAudio.BankRequestsFromBankFiles | GameAudioManager.cpp:31-48 | every load request comes from a regular file of the listing with extension ".bank", named by its file name without ".bank" |
| GameAudio.BankRequestsCoverBankFiles | GameAudioManager.cpp:31-48 | every regular ".bank" file of the listing is requested under its stem |
| GameAudio.GameAudioManager.constructor | GameAudioManager.cpp:6-10 | the manager starts with no events, no music track, a zero accumulator and the invariant |
| GameAudio.GameAudioManager.Shutdown | GameAudioManager.cpp:17-25 | the active list ends empty and the music track null, then the audio system is shut down |
| GameAudio.GameAudioManager.LoadBanks | GameAudioManager.cpp:27-58 | true exactly when the folder can be scanned; the banks requested are exactly the regular ".bank" files in listing order, whatever each load reports |
| GameAudio.GameAudioManager.CreateEvent | GameAudioManager.cpp:65-75 | a valid event is appended and returned; an invalid one gives null and leaves the list unchanged |
| GameAudio.GameAudioManager.StopAllMusic | GameAudioManager.cpp:133-143 | with no track it returns true and issues nothing; otherwise it stops the track with the given fade mode, returns what the stop reports and clears the track |
| GameAudio.GameAudioManager.PlayMusicTrack | GameAudioManager.cpp:118-131 | the old track is stopped first; the new track is the new event when valid (appended to the active list and played) and null otherwise |
| GameAudio.GameAudioManager.Update | GameAudioManager.cpp:145-163 | the accumulator grows by the time step; exactly when it reaches 1/60 s the audio system is updated, the events are pruned and the accumulator is reset to 0 |
| GameAudio.GameAudioManager.CleanupEvents | GameAudioManager.cpp:165-181 | the in-place remove_if leaves exactly the valid and playing events in their order, and the music track is dropped exactly when it is invalid or not playing; the track stays among the active events |

## Left out

- The middleware itself (bank decoding, sample loading, event lookup, playback, channels, 3D attributes) is not modelled. Each call is an abstract answer (result code and pointer), and each command issued is a log entry.
- Console and error-stream output is not modelled: `AudioSystem::CheckError` (AudioSystem.cpp:378-382), the messages in every operation, and the diagnostic listing of banks and events in AudioEngine.cpp:84-112. None of it affects state.
- `AudioSystem::GetPlayingSoundsCount` (AudioSystem.cpp:354-362) is not modelled. It only forwards a middleware query.
- `Set3DListenerPosition`, `SetEventPosition`, `SetSoundPosition` (AudioSystem.cpp:283-317) and `AudioEngine::SetListenerAttributes` (AudioEngine.cpp:150-152) are not modelled. They forward float vectors and keep no bookkeeping.
- Float semantics are not modelled. Volumes, pitches, pans, parameters and the 1/60 s accumulator are `real`. They are stored and compared with no claim about single-precision rounding.
- `GameAudio.GameAudioManager.LoadBanks` does not model directory iteration. It takes the listing as a sequence of entries, or None when scanning raises. An exception raised part-way through a scan is treated like one raised at the start.
- `AudioEvent` and `FMODAudioSystem` are not part of this model.
  - An event's validity, its playing state and its `Stop` result are parameters.
  - The audio system's update and shutdown are entries in the manager's command log.
- The forwarding methods of GameAudioManager.cpp are not modelled, because they keep no bookkeeping of their own: `Initialize`, `LoadBank`, `PlayOneShot`, `SetListenerPosition`, `Set/GetGlobalParameter`, `SetBusVolume`, `SetVCAVolume`, `StartSnapshot` and `StopSnapshot`.
- GameAudioManager.h is not part of this model. Two of its details are assumed:
  - `GameAudio.GameAudioManager.constructor` takes the accumulator to start at 0.
  - `GameAudio.GameAudioManager.PlayMusicTrack` takes the default fade argument of `StopAllMusic` as a parameter.
- `AudioEngine::UnloadBank` (AudioEngine.h:29) and `AudioSystem::ReleaseResources` (AudioSystem.h:93) are declared without a definition, so they are not modelled.
- main.cpp, the demo driver, is not modelled.
- Thread-safety of the static-local singletons is not modelled.
- Dereferencing a null pointer is not modelled. The model lets a call reach the middleware with `Null` where the C++ would have undefined behaviour, for example `AudioEngine::LoadBank` before `Initialize`.
- AudioSystem's `Shutdown` nulls each handle before clearing its table. Since the table is emptied straight after, only the empty tables are modelled.
- `AudioSystemFacade.AudioSystem.GetLoadedSoundsCount` and `AudioSystemFacade.AudioSystem.GetLoadedEventsCount` do not model the `static_cast<int>` of the table size either; they return it unbounded.
- `AudioSystemFacade.AudioSystem.LoadSound` and `AudioSystemFacade.AudioSystem.CreateEventInstance` do not model the `static_cast<int>` of the table size. They return the length as an unbounded integer, with no overflow past 2^31 - 1 entries.
- `m_IsRemoteConnected` is never changed by the source. The model keeps the field, and the remote queries ignore it as the source does.
