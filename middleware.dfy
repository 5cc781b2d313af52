/**
  The audio middleware (FMOD Studio and Core) as the wrapper classes see it.

  Nothing of the library itself is modelled. A pointer it hands out is an
  opaque `Ptr`, every call reports a result code, and every command the
  wrappers issue is appended, in order, to a log of `Call`s, so that what the
  wrapper code decides (which commands, with which arguments, in which order)
  can be stated. Queries that only read middleware state are not logged: their
  answers are parameters of the operations that make them.
 */
module Middleware {

  /** An opaque middleware object; `Null` is the C++ null pointer. */
  datatype Ptr = Null | Handle(id: nat)

  /** A middleware result code: `FmodOk` is FMOD_OK, every other code is an error. */
  datatype FmodResult = FmodOk | FmodError(code: nat)

  /** What one middleware call reports: its result code and the pointer it wrote to its out-parameter. */
  datatype Answer = Answer(result: FmodResult, handle: Ptr)

  /** The playback state the middleware reports for an event instance. */
  datatype PlaybackState = Playing | Sustaining | Stopped | Starting | Stopping

  datatype Option<T> = None | Some(value: T)

  /** The commands the wrappers issue to the middleware. */
  datatype Call =
    | CreateStudioSystem
    | InitializeStudio(maxChannels: nat, liveUpdate: bool)
    | CreateChannelGroup(name: string)
    | StudioUpdate(system: Ptr)
    | ReleaseStudio(system: Ptr)
    | CreateSound(path: string, looping: bool, positional: bool)
    | ReleaseSound(sound: Ptr)
    | PlaySoundOn(sound: Ptr, group: Ptr)
    | ChannelStop(channel: Ptr)
    | ChannelSetVolume(channel: Ptr, volume: real)
    | ChannelSetPitch(channel: Ptr, pitch: real)
    | ChannelSetPan(channel: Ptr, pan: real)
    | GroupSetVolume(group: Ptr, volume: real)
    | GroupSetPaused(group: Ptr, paused: bool)
    | ReleaseChannelGroup(group: Ptr)
    | LoadBankFile(path: string, nonBlocking: bool)
    | LoadSampleData(bank: Ptr)
    | UnloadBank(bank: Ptr)
    | CreateInstance(description: Ptr)
    | StartEvent(instance: Ptr)
    | StopEvent(instance: Ptr, immediate: bool)
    | ReleaseEvent(instance: Ptr)
    | SetParameter(instance: Ptr, name: string, value: real)

  /**
    `order` lists every key of `keys` exactly once: one possible iteration
    order of an unordered map with those keys.
   */
  ghost predicate Enumerates(order: seq<string>, keys: set<string>) {
    && (forall i, j :: 0 <= i < j < |order| ==> order[i] != order[j])
    && (forall k :: k in order <==> k in keys)
  }

  /** The unload commands issued for the non-null banks of `banks`, visited in `order`. */
  function UnloadCalls(order: seq<string>, banks: map<string, Ptr>): seq<Call>
    requires forall k :: k in order ==> k in banks
  {
    if order == [] then []
    else
      var last := order[|order| - 1];
      UnloadCalls(order[..|order| - 1], banks) + (if banks[last] != Null then [UnloadBank(banks[last])] else [])
  }

  /** Visiting one more key extends the unload commands by that key's command, if any. */
  lemma UnloadCallsSnoc(order: seq<string>, k: string, banks: map<string, Ptr>)
    requires forall j :: j in order ==> j in banks
    requires k in banks
    ensures UnloadCalls(order + [k], banks)
         == UnloadCalls(order, banks) + (if banks[k] != Null then [UnloadBank(banks[k])] else [])
  {
    assert (order + [k])[..|order|] == order;
  }

  /** Every non-null bank whose key is visited gets an unload command. */
  lemma {:induction false} UnloadCallsCoverBanks(order: seq<string>, banks: map<string, Ptr>, k: string)
    requires forall j :: j in order ==> j in banks
    requires k in order && banks[k] != Null
    ensures UnloadBank(banks[k]) in UnloadCalls(order, banks)
  {
    var front := order[..|order| - 1];
    if k != order[|order| - 1] {
      var i :| 0 <= i < |order| && order[i] == k;
      assert front[i] == k;
      UnloadCallsCoverBanks(front, banks, k);
    }
  }

  /** Nothing but unloads of visited, non-null banks is issued. */
  lemma {:induction false} UnloadCallsOnlyBanks(order: seq<string>, banks: map<string, Ptr>, c: Call)
    requires forall j :: j in order ==> j in banks
    requires c in UnloadCalls(order, banks)
    ensures c.UnloadBank? && exists k :: k in order && banks[k] != Null && c.bank == banks[k]
  {
    var front := order[..|order| - 1];
    var last := order[|order| - 1];
    if c in UnloadCalls(front, banks) {
      UnloadCallsOnlyBanks(front, banks, c);
      var k :| k in front && banks[k] != Null && c.bank == banks[k];
      assert k in order;
    } else {
      assert last in order;
    }
  }

  /** When no bank is null, one unload command is issued per key visited. */
  lemma {:induction false} UnloadCallsLength(order: seq<string>, banks: map<string, Ptr>)
    requires forall j :: j in order ==> j in banks && banks[j] != Null
    ensures |UnloadCalls(order, banks)| == |order|
  {
    if order != [] {
      UnloadCallsLength(order[..|order| - 1], banks);
    }
  }

  /**
    The unload commands for every bank of `banks`, visiting the keys of the
    unordered table in some order, which `order` records.
   */
  method BankUnloadCalls(banks: map<string, Ptr>) returns (unloads: seq<Call>, ghost order: seq<string>)
    ensures Enumerates(order, banks.Keys)
    ensures unloads == UnloadCalls(order, banks)
  {
    unloads, order := [], [];
    var pending := banks;
    while pending != map[]
      invariant forall k :: k in pending ==> k in banks && pending[k] == banks[k] && k !in order
      invariant forall k :: k in banks ==> k in pending || k in order
      invariant forall k :: k in order ==> k in banks
      invariant forall i, j :: 0 <= i < j < |order| ==> order[i] != order[j]
      invariant unloads == UnloadCalls(order, banks)
      decreases |pending.Keys|
    {
      var path :| path in pending;
      if pending[path] != Null {
        unloads := unloads + [UnloadBank(pending[path])];
      }
      UnloadCallsSnoc(order, path, banks);
      order := order + [path];
      assert (pending - {path}).Keys == pending.Keys - {path};
      pending := pending - {path};
    }
  }
}
