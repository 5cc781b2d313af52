/**
  The game-level manager (`GameAudioManager`): a list of shared event objects
  it keeps alive, the current music track, a fixed-interval tick that prunes
  finished events, and bulk loading of the bank files found in a folder.

  The event objects and the audio system behind them are not part of this
  model: an event is known by its identity, and whether it is valid or
  playing, and what stopping it reports, are parameters.
 */
module GameAudio {
  import opened Middleware

  /** A shared event object, known by identity only. */
  datatype EventRef = EventRef(id: nat)

  /** What the manager asks of its events and of the audio system, in order. */
  datatype Command =
    | EventPlay(event: EventRef)
    | EventStop(event: EventRef, allowFadeOut: bool)
    | SystemUpdate
    | SystemShutdown

  /** The tick interval of Update, 1/60 s. */
  const UpdateInterval: real := 1.0 / 60.0

  /** An event that pruning keeps: still valid and still playing. */
  predicate Live(e: EventRef, valid: EventRef -> bool, playing: EventRef -> bool) {
    valid(e) && playing(e)
  }

  /** The live events of `s`, in their original order. */
  function KeepLive(s: seq<EventRef>, valid: EventRef -> bool, playing: EventRef -> bool): seq<EventRef> {
    if s == [] then []
    else
      var last := s[|s| - 1];
      KeepLive(s[..|s| - 1], valid, playing) + (if Live(last, valid, playing) then [last] else [])
  }

  /** The positions of the live events of `s`, in increasing order. */
  function KeptIndices(s: seq<EventRef>, valid: EventRef -> bool, playing: EventRef -> bool): seq<int> {
    if s == [] then []
    else
      var n := |s| - 1;
      KeptIndices(s[..n], valid, playing) + (if Live(s[n], valid, playing) then [n] else [])
  }

  /**
    Pruning keeps every copy of a live event and no copy of any other:
    the multiset characterisation of remove_if.
   */
  lemma {:induction false} KeepLiveCounts(s: seq<EventRef>, valid: EventRef -> bool, playing: EventRef -> bool, e: EventRef)
    ensures multiset(KeepLive(s, valid, playing))[e] == if Live(e, valid, playing) then multiset(s)[e] else 0
  {
    if s != [] {
      var n := |s| - 1;
      KeepLiveCounts(s[..n], valid, playing, e);
      assert s == s[..n] + [s[n]];
    }
  }

  /**
    Pruning is order-preserving: the kept events are the events at strictly
    increasing positions of `s`, exactly the positions holding a live event.
   */
  lemma {:induction false} KeepLiveKeepsOrder(s: seq<EventRef>, valid: EventRef -> bool, playing: EventRef -> bool)
    ensures var r, idx := KeepLive(s, valid, playing), KeptIndices(s, valid, playing);
      && |idx| == |r|
      && (forall k :: 0 <= k < |idx| ==> 0 <= idx[k] < |s| && r[k] == s[idx[k]])
      && (forall k, m :: 0 <= k < m < |idx| ==> idx[k] < idx[m])
      && (forall j :: 0 <= j < |s| ==> (j in idx <==> Live(s[j], valid, playing)))
  {
    if s != [] {
      var n := |s| - 1;
      var front := s[..n];
      KeepLiveKeepsOrder(front, valid, playing);
      var r0, idx0 := KeepLive(front, valid, playing), KeptIndices(front, valid, playing);
      assert forall k :: 0 <= k < |idx0| ==> idx0[k] < n;
      assert forall j :: 0 <= j < n ==> front[j] == s[j];
    }
  }

  /** Pruning twice in the same state prunes nothing more. */
  lemma {:induction false} KeepLiveIdempotent(s: seq<EventRef>, valid: EventRef -> bool, playing: EventRef -> bool)
    ensures KeepLive(KeepLive(s, valid, playing), valid, playing) == KeepLive(s, valid, playing)
  {
    if s != [] {
      var n := |s| - 1;
      KeepLiveIdempotent(s[..n], valid, playing);
      var front := KeepLive(s[..n], valid, playing);
      if Live(s[n], valid, playing) {
        var r := front + [s[n]];
        assert r[..|r| - 1] == front;
        assert KeepLive(r, valid, playing) == KeepLive(front, valid, playing) + [s[n]];
        assert KeepLive(s, valid, playing) == r;
      } else {
        assert KeepLive(s, valid, playing) == front;
      }
    }
  }

  /** The current music track after pruning: dropped when it is no longer live. */
  function TrackAfterCleanup(track: Option<EventRef>, valid: EventRef -> bool, playing: EventRef -> bool): Option<EventRef> {
    if track.Some? && !Live(track.value, valid, playing) then None else track
  }

  /** The position of the last '.' in a file name, or -1 when it has none. */
  function LastDot(f: string): (k: int)
    ensures -1 <= k < |f|
    ensures k >= 0 ==> f[k] == '.'
    ensures forall j :: k < j < |f| ==> f[j] != '.'
  {
    if f == [] then -1
    else if f[|f| - 1] == '.' then |f| - 1
    else LastDot(f[..|f| - 1])
  }

  /**
    Where the extension of a file name starts, as std::filesystem::path
    computes it: at the last '.', unless that dot is the first character or
    the name is "." or ".."; at the end of the name when there is none.
   */
  function ExtensionStart(f: string): (k: int)
    ensures 0 <= k <= |f|
    ensures k < |f| ==> 0 < k && f[k] == '.' && forall j :: k < j < |f| ==> f[j] != '.'
    ensures k < |f| <==> 0 < LastDot(f) && f != ".."
    ensures k < |f| ==> k == LastDot(f)
  {
    if f == "." || f == ".." then |f|
    else
      var d := LastDot(f);
      if d <= 0 then |f| else d
  }

  /**
    The extension of a file name: empty, or a '.' followed by no other '.',
    never the whole name. It is not empty exactly when the last '.' is not
    the first character and the name is not "..", and then it runs from
    that dot to the end.
   */
  function Extension(f: string): (e: string)
    ensures e == [] || (e[0] == '.' && '.' !in e[1..] && |e| < |f|)
    ensures e != [] <==> 0 < LastDot(f) && f != ".."
    ensures e != [] ==> e == f[LastDot(f)..]
  {
    f[ExtensionStart(f)..]
  }

  /** The stem of a file name: what precedes its extension. */
  function Stem(f: string): (s: string)
    ensures s + Extension(f) == f
    ensures Extension(f) != [] ==> s != []
  {
    f[..ExtensionStart(f)]
  }

  /** How the extension rule treats a multi-dot bank name and a hidden file named ".bank". */
  lemma ExtensionExamples()
    ensures Extension("Master.strings.bank") == ".bank" && Stem("Master.strings.bank") == "Master.strings"
    ensures Extension(".bank") == "" && Stem(".bank") == ".bank"
  {
    var f := "Master.strings.bank";
    assert f[14] == '.';
    assert LastDot(f) == 14 by {
      assert f[..18][..17][..16][..15] == f[..15];
      assert LastDot(f[..15]) == 14;
    }
    assert LastDot(".bank") == 0 by {
      assert ".bank"[..4] == ".ban" && ".ban"[..3] == ".ba" && ".ba"[..2] == ".b" && ".b"[..1] == ".";
      assert LastDot(".") == 0;
      assert LastDot(".b") == 0;
      assert LastDot(".ba") == 0;
      assert LastDot(".ban") == 0;
    }
  }

  /** One entry of a directory listing. */
  datatype DirEntry = DirEntry(isRegularFile: bool, path: string, filename: string)

  /** A request to load the bank file at `path` under the name `name`. */
  datatype BankRequest = BankRequest(name: string, path: string)

  /** A regular file whose extension is ".bank". */
  predicate IsBankFile(e: DirEntry) {
    e.isRegularFile && Extension(e.filename) == ".bank"
  }

  /** The load requests for the bank files of a listing, in listing order, each named by its stem. */
  function BankRequests(entries: seq<DirEntry>): seq<BankRequest> {
    if entries == [] then []
    else
      var last := entries[|entries| - 1];
      BankRequests(entries[..|entries| - 1])
        + (if IsBankFile(last) then [BankRequest(Stem(last.filename), last.path)] else [])
  }

  /** Every request comes from a bank file of the listing, named by the file name without ".bank". */
  lemma {:induction false} BankRequestsFromBankFiles(entries: seq<DirEntry>, r: BankRequest)
    requires r in BankRequests(entries)
    ensures exists i :: 0 <= i < |entries| && IsBankFile(entries[i])
              && r == BankRequest(Stem(entries[i].filename), entries[i].path)
              && r.name + ".bank" == entries[i].filename
  {
    var n := |entries| - 1;
    var front := entries[..n];
    if r in BankRequests(front) {
      BankRequestsFromBankFiles(front, r);
      var i :| 0 <= i < n && IsBankFile(front[i])
               && r == BankRequest(Stem(front[i].filename), front[i].path)
               && r.name + ".bank" == front[i].filename;
      assert front[i] == entries[i];
    } else {
      var last := entries[n];
      assert IsBankFile(last) && r == BankRequest(Stem(last.filename), last.path);
      BankStemPlusExtension(last.filename);
    }
  }

  /** A ".bank" file name is its stem followed by ".bank". */
  lemma BankStemPlusExtension(f: string)
    requires Extension(f) == ".bank"
    ensures Stem(f) + ".bank" == f
  {
  }

  /** Every bank file of the listing is requested. */
  lemma {:induction false} BankRequestsCoverBankFiles(entries: seq<DirEntry>, i: int)
    requires 0 <= i < |entries| && IsBankFile(entries[i])
    ensures BankRequest(Stem(entries[i].filename), entries[i].path) in BankRequests(entries)
  {
    var n := |entries| - 1;
    if i < n {
      assert entries[..n][i] == entries[i];
      BankRequestsCoverBankFiles(entries[..n], i);
    }
  }

  class GameAudioManager {
    var activeEvents: seq<EventRef>
    var currentMusicTrack: Option<EventRef>
    var timeSinceLastUpdate: real
    /** The commands issued to events and to the audio system so far. */
    var commands: seq<Command>

    /** The current music track is always one of the active events. */
    ghost predicate Valid()
      reads this
    {
      currentMusicTrack.Some? ==> currentMusicTrack.value in activeEvents
    }

    constructor ()
      ensures Valid()
      ensures activeEvents == [] && currentMusicTrack == None && timeSinceLastUpdate == 0.0 && commands == []
    {
      activeEvents, currentMusicTrack := [], None;
      timeSinceLastUpdate := 0.0;
      commands := [];
    }

    /** Drops every event and the music track, then shuts the audio system down. */
    method Shutdown()
      modifies this`activeEvents, this`currentMusicTrack, this`commands
      ensures Valid()
      ensures activeEvents == [] && currentMusicTrack == None
      ensures commands == old(commands) + [SystemShutdown]
    {
      activeEvents := [];
      currentMusicTrack := None;
      commands := commands + [SystemShutdown];
    }

    /**
      Requests a load of every bank file in the folder, named by its stem;
      `listing` is the folder's entries, None when scanning it raises. What
      each load reports only decides a diagnostic, so it is ignored and the
      scan goes on past a bank that failed.
     */
    method LoadBanks(listing: Option<seq<DirEntry>>)
      returns (ok: bool, requests: seq<BankRequest>)
      ensures ok <==> listing.Some?
      ensures requests == if listing.Some? then BankRequests(listing.value) else []
    {
      if listing.None? {
        return false, [];
      }
      var entries := listing.value;
      requests := [];
      var i := 0;
      while i < |entries|
        invariant 0 <= i <= |entries|
        invariant requests == BankRequests(entries[..i])
      {
        var entry := entries[i];
        if entry.isRegularFile {
          var extension := Extension(entry.filename);
          if extension == ".bank" {
            var request := BankRequest(Stem(entry.filename), entry.path);
            requests := requests + [request];
          }
        }
        assert entries[..i + 1][..i] == entries[..i];
        i := i + 1;
      }
      assert entries[..|entries|] == entries;
      ok := true;
    }

    /**
      Makes an event for `eventPath`; `made` is the new object and `isValid`
      whether it is valid. Only a valid event is kept and returned.
     */
    method CreateEvent(eventPath: string, made: EventRef, isValid: bool) returns (event: Option<EventRef>)
      requires Valid()
      modifies this`activeEvents
      ensures Valid()
      ensures isValid ==> event == Some(made) && activeEvents == old(activeEvents) + [made]
      ensures !isValid ==> event == None && activeEvents == old(activeEvents)
    {
      if isValid {
        activeEvents := activeEvents + [made];
        return Some(made);
      }
      return None;
    }

    /**
      Stops the current music track, if any, and forgets it; `stopped` is
      what stopping the track reports. With no track the result is true.
     */
    method StopAllMusic(allowFadeOut: bool, stopped: bool) returns (result: bool)
      requires Valid()
      modifies this`currentMusicTrack, this`commands
      ensures Valid()
      ensures currentMusicTrack == None
      ensures old(currentMusicTrack).None? ==> result && commands == old(commands)
      ensures old(currentMusicTrack).Some? ==>
        result == stopped && commands == old(commands) + [EventStop(old(currentMusicTrack).value, allowFadeOut)]
    {
      if currentMusicTrack.Some? {
        commands := commands + [EventStop(currentMusicTrack.value, allowFadeOut)];
        currentMusicTrack := None;
        return stopped;
      }
      return true;
    }

    /**
      Stops the current music first, then makes the new track and plays it
      when it is valid. `allowFadeOut` is StopAllMusic's default argument;
      the other parameters are as for StopAllMusic and CreateEvent.
     */
    method PlayMusicTrack(musicEventPath: string, made: EventRef, isValid: bool, allowFadeOut: bool, stopped: bool)
      returns (track: Option<EventRef>)
      requires Valid()
      modifies this`activeEvents, this`currentMusicTrack, this`commands
      ensures Valid()
      ensures track == currentMusicTrack == (if isValid then Some(made) else None)
      ensures activeEvents == old(activeEvents) + (if isValid then [made] else [])
      ensures commands == old(commands)
                          + (if old(currentMusicTrack).Some? then [EventStop(old(currentMusicTrack).value, allowFadeOut)] else [])
                          + (if isValid then [EventPlay(made)] else [])
    {
      var previousStopped := StopAllMusic(allowFadeOut, stopped);
      currentMusicTrack := CreateEvent(musicEventPath, made, isValid);
      if currentMusicTrack.Some? {
        commands := commands + [EventPlay(currentMusicTrack.value)];
      }
      track := currentMusicTrack;
    }

    /**
      Adds `deltaTime` to the accumulator; once it reaches the tick interval
      the audio system is updated, finished events are pruned and the
      accumulator restarts from zero. `valid` and `playing` describe the
      events at that moment.
     */
    method Update(deltaTime: real, valid: EventRef -> bool, playing: EventRef -> bool)
      requires Valid()
      modifies this`activeEvents, this`currentMusicTrack, this`timeSinceLastUpdate, this`commands
      ensures Valid()
      ensures old(timeSinceLastUpdate) + deltaTime >= UpdateInterval ==>
        && timeSinceLastUpdate == 0.0
        && commands == old(commands) + [SystemUpdate]
        && activeEvents == KeepLive(old(activeEvents), valid, playing)
        && currentMusicTrack == TrackAfterCleanup(old(currentMusicTrack), valid, playing)
      ensures old(timeSinceLastUpdate) + deltaTime < UpdateInterval ==>
        && timeSinceLastUpdate == old(timeSinceLastUpdate) + deltaTime
        && commands == old(commands)
        && activeEvents == old(activeEvents)
        && currentMusicTrack == old(currentMusicTrack)
    {
      timeSinceLastUpdate := timeSinceLastUpdate + deltaTime;
      if timeSinceLastUpdate >= UpdateInterval {
        commands := commands + [SystemUpdate];
        CleanupEvents(valid, playing);
        timeSinceLastUpdate := 0.0;
      }
    }

    /**
      Removes, in place and keeping the order of the rest, every event that
      is no longer valid or no longer playing, and forgets the music track
      when it is one of them.
     */
    method CleanupEvents(valid: EventRef -> bool, playing: EventRef -> bool)
      requires Valid()
      modifies this`activeEvents, this`currentMusicTrack
      ensures Valid()
      ensures activeEvents == KeepLive(old(activeEvents), valid, playing)
      ensures currentMusicTrack == TrackAfterCleanup(old(currentMusicTrack), valid, playing)
    {
      // std::remove_if: move every kept event to the front, then erase the tail.
      var w, r := 0, 0;
      while r < |activeEvents|
        invariant 0 <= w <= r <= |activeEvents| == |old(activeEvents)|
        invariant activeEvents[..w] == KeepLive(old(activeEvents)[..r], valid, playing)
        invariant activeEvents[r..] == old(activeEvents)[r..]
        invariant currentMusicTrack == old(currentMusicTrack)
      {
        ghost var before := activeEvents;
        assert old(activeEvents)[..r + 1][..r] == old(activeEvents)[..r];
        assert activeEvents[r] == old(activeEvents)[r] by {
          assert activeEvents[r..][0] == old(activeEvents)[r..][0];
        }
        if Live(activeEvents[r], valid, playing) {
          activeEvents := activeEvents[w := activeEvents[r]];
          assert activeEvents[..w + 1] == before[..w] + [before[r]];
          w := w + 1;
        }
        r := r + 1;
        assert activeEvents[r..] == before[r..];
      }
      assert old(activeEvents)[..r] == old(activeEvents);
      activeEvents := activeEvents[..w];

      if currentMusicTrack.Some? && !Live(currentMusicTrack.value, valid, playing) {
        currentMusicTrack := None;
      }
      if currentMusicTrack.Some? {
        KeepLiveCounts(old(activeEvents), valid, playing, currentMusicTrack.value);
      }
    }
  }
}
