/**
  The pointer-handle facade (`AudioEngine`): banks in a table keyed by name,
  event instances in a list of the pointers handed to callers. Its error
  policy is fail-fast: every middleware error raises, which the model
  returns as `Threw` with the state as it was when the error was raised.
 */
module AudioEngineFacade {
  import opened Middleware

  /** How an operation ends: it completes with a value, or raises on a middleware error. */
  datatype Outcome<T> = Completed(value: T) | Threw(error: FmodResult)

  /** FMOD_CHECK: raise on any result other than FMOD_OK, otherwise do nothing. */
  function Check(result: FmodResult): (o: Outcome<()>)
    ensures o.Threw? <==> result != FmodOk
    ensures o.Threw? ==> o.error == result
  {
    if result == FmodOk then Completed(()) else Threw(result)
  }

  /** The banks loaded when the engine is initialized, in loading order. */
  const MasterBankPaths: seq<string> := [
    "EXTERNAL/SOUNDS/sample/Build/Desktop/Master.bank",
    "EXTERNAL/SOUNDS/sample/Build/Desktop/Master.strings.bank",
    "EXTERNAL/SOUNDS/sample/Build/Desktop/SFX.bank"
  ]

  /** The effect of loading banks: the new bank table, the commands issued, and how it ended. */
  datatype BankStep = BankStep(banks: map<string, Ptr>, issued: seq<Call>, outcome: Outcome<()>)

  /**
    Loading the bank `name` when the middleware answers `answer`: a name
    already in the table is left alone; otherwise the file is loaded, an error
    raises with the table unchanged, and a non-null bank is added under `name`
    and has its sample data loaded.
   */
  function LoadBankStep(banks: map<string, Ptr>, name: string, answer: Answer): (r: BankStep)
    ensures name in banks ==> r == BankStep(banks, [], Completed(()))
    ensures name !in banks ==> |r.issued| >= 1 && r.issued[0] == LoadBankFile(name, false)
    ensures r.outcome.Threw? <==> name !in banks && answer.result != FmodOk
    ensures r.outcome.Threw? ==> r.banks == banks
    ensures r.banks.Keys == banks.Keys + (if name !in banks && r.outcome.Completed? && answer.handle != Null then {name} else {})
    ensures forall k :: k in banks ==> k in r.banks && r.banks[k] == banks[k]
    ensures name in r.banks ==> r.banks[name] != Null || name in banks
  {
    if name in banks then BankStep(banks, [], Completed(()))
    else
      match Check(answer.result)
      case Threw(e) => BankStep(banks, [LoadBankFile(name, false)], Threw(e))
      case Completed(_) =>
        if answer.handle != Null then
          BankStep(banks[name := answer.handle], [LoadBankFile(name, false), LoadSampleData(answer.handle)], Completed(()))
        else
          BankStep(banks, [LoadBankFile(name, false)], Completed(()))
  }

  /**
    Loading the banks `paths` one after another, stopping at the first that
    raises; `answer` gives the middleware's answer for each file.
   */
  function LoadBanksInOrder(banks: map<string, Ptr>, paths: seq<string>, answer: string -> Answer): BankStep
    decreases |paths|
  {
    if paths == [] then BankStep(banks, [], Completed(()))
    else
      var first := LoadBankStep(banks, paths[0], answer(paths[0]));
      if first.outcome.Threw? then first
      else
        var rest := LoadBanksInOrder(first.banks, paths[1..], answer);
        BankStep(rest.banks, first.issued + rest.issued, rest.outcome)
  }

  /** The files a sequence of commands asks the middleware to load, in order. */
  function LoadRequests(calls: seq<Call>): seq<string> {
    if calls == [] then []
    else (if calls[0].LoadBankFile? then [calls[0].path] else []) + LoadRequests(calls[1..])
  }

  lemma {:induction false} LoadRequestsAppend(a: seq<Call>, b: seq<Call>)
    ensures LoadRequests(a + b) == LoadRequests(a) + LoadRequests(b)
  {
    if a == [] {
      assert a + b == b;
    } else {
      assert (a + b)[1..] == a[1..] + b;
      LoadRequestsAppend(a[1..], b);
    }
  }

  /** A single bank load asks the middleware for the file exactly when the name is not yet loaded. */
  lemma LoadBankStepRequests(banks: map<string, Ptr>, name: string, answer: Answer)
    ensures LoadRequests(LoadBankStep(banks, name, answer).issued) == if name in banks then [] else [name]
  {
    var issued := LoadBankStep(banks, name, answer).issued;
    if name !in banks {
      assert issued[0] == LoadBankFile(name, false);
      assert LoadRequests(issued[1..]) == [] by {
        if |issued| > 1 {
          assert issued[1..] == [LoadSampleData(answer.handle)];
          assert issued[1..][1..] == [];
        }
      }
    }
  }

  /**
    Loading banks in order never drops or replaces a bank, adds only banks
    named in `paths`, and asks the middleware for at most one file per path.
   */
  lemma {:induction false} LoadBanksInOrderGrows(banks: map<string, Ptr>, paths: seq<string>, answer: string -> Answer)
    ensures var r := LoadBanksInOrder(banks, paths, answer);
      && (forall k :: k in banks ==> k in r.banks && r.banks[k] == banks[k])
      && (forall k :: k in r.banks ==> k in banks || k in paths)
      && |LoadRequests(r.issued)| <= |paths|
    decreases |paths|
  {
    if paths != [] {
      var first := LoadBankStep(banks, paths[0], answer(paths[0]));
      LoadBankStepRequests(banks, paths[0], answer(paths[0]));
      if first.outcome.Completed? {
        var rest := LoadBanksInOrder(first.banks, paths[1..], answer);
        LoadBanksInOrderGrows(first.banks, paths[1..], answer);
        LoadRequestsAppend(first.issued, rest.issued);
        forall k | k in rest.banks ensures k in banks || k in paths {
          if k !in first.banks {
            assert k in paths[1..];
          }
        }
      }
    }
  }

  lemma AppendAssoc<T>(a: seq<T>, b: seq<T>, c: seq<T>)
    ensures a + (b + c) == a + b + c
  {
  }

  /**
    Loading the master banks is three single loads in their fixed order:
    the first that raises ends it, with the commands issued so far.
   */
  lemma MasterBanksInThreeSteps(banks: map<string, Ptr>, answer: string -> Answer)
    ensures var p := MasterBankPaths;
      var s0 := LoadBankStep(banks, p[0], answer(p[0]));
      var s1 := LoadBankStep(s0.banks, p[1], answer(p[1]));
      var s2 := LoadBankStep(s1.banks, p[2], answer(p[2]));
      LoadBanksInOrder(banks, p, answer)
        == if s0.outcome.Threw? then s0
           else if s1.outcome.Threw? then BankStep(s1.banks, s0.issued + s1.issued, s1.outcome)
           else BankStep(s2.banks, s0.issued + s1.issued + s2.issued, s2.outcome)
  {
    var p := MasterBankPaths;
    var s0 := LoadBankStep(banks, p[0], answer(p[0]));
    var s1 := LoadBankStep(s0.banks, p[1], answer(p[1]));
    var s2 := LoadBankStep(s1.banks, p[2], answer(p[2]));
    assert p[1..][0] == p[1] && p[1..][1..][0] == p[2] && p[1..][1..][1..] == [];
    assert LoadBanksInOrder(s2.banks, p[1..][1..][1..], answer) == BankStep(s2.banks, [], Completed(()));
    var third := LoadBanksInOrder(s1.banks, p[1..][1..], answer);
    assert s2.issued + [] == s2.issued;
    assert third == if s2.outcome.Threw? then s2 else BankStep(s2.banks, s2.issued, Completed(()));
    var second := LoadBanksInOrder(s0.banks, p[1..], answer);
    if s1.outcome.Completed? {
      assert second == BankStep(third.banks, s1.issued + third.issued, third.outcome);
      AppendAssoc(s0.issued, s1.issued, s2.issued);
    }
  }

  /** The three master bank paths are different files. */
  lemma MasterBankPathsDistinct()
    ensures MasterBankPaths[0] != MasterBankPaths[1] && MasterBankPaths[0] != MasterBankPaths[2]
    ensures MasterBankPaths[1] != MasterBankPaths[2]
  {
    var p := MasterBankPaths;
    assert |p[0]| == 48 && |p[1]| == 56 && |p[2]| == 45;
  }

  /**
    From an empty table with every load succeeding, the master banks are
    requested exactly in their fixed order and all three end up loaded.
   */
  lemma MasterBanksAllLoaded(answer: string -> Answer)
    requires forall p :: answer(p).result == FmodOk && answer(p).handle != Null
    ensures var r := LoadBanksInOrder(map[], MasterBankPaths, answer);
      && r.outcome.Completed?
      && r.banks.Keys == {MasterBankPaths[0], MasterBankPaths[1], MasterBankPaths[2]}
      && LoadRequests(r.issued) == MasterBankPaths
  {
    var p := MasterBankPaths;
    MasterBanksInThreeSteps(map[], answer);
    MasterBankPathsDistinct();
    var s0 := LoadBankStep(map[], p[0], answer(p[0]));
    var s1 := LoadBankStep(s0.banks, p[1], answer(p[1]));
    var s2 := LoadBankStep(s1.banks, p[2], answer(p[2]));
    assert s2.banks.Keys == {p[0], p[1], p[2]} by {
      assert s0.banks.Keys == {p[0]};
      assert s1.banks.Keys == {p[0], p[1]};
    }
    assert LoadRequests(s0.issued + s1.issued + s2.issued) == p by {
      LoadBankStepRequests(map[], p[0], answer(p[0]));
      LoadBankStepRequests(s0.banks, p[1], answer(p[1]));
      LoadBankStepRequests(s1.banks, p[2], answer(p[2]));
      LoadRequestsAppend(s0.issued, s1.issued);
      LoadRequestsAppend(s0.issued + s1.issued, s2.issued);
    }
  }

  /** When the first master bank fails to load, nothing else is requested and nothing is added. */
  lemma MasterBanksStopAtFirstFailure(banks: map<string, Ptr>, answer: string -> Answer)
    requires MasterBankPaths[0] !in banks && answer(MasterBankPaths[0]).result != FmodOk
    ensures var r := LoadBanksInOrder(banks, MasterBankPaths, answer);
      && r.outcome == Threw(answer(MasterBankPaths[0]).result)
      && r.banks == banks
      && LoadRequests(r.issued) == [MasterBankPaths[0]]
  {
  }

  /** The list `s` without its first occurrence of `x`; `s` itself when `x` does not occur. */
  function RemoveFirst<T(==)>(s: seq<T>, x: T): seq<T> {
    if s == [] then []
    else if s[0] == x then s[1..]
    else [s[0]] + RemoveFirst(s[1..], x)
  }

  /** Removing the first occurrence found at `i` is erasing position `i`. */
  lemma {:induction false} RemoveFirstErases<T>(s: seq<T>, x: T, i: nat)
    requires i < |s| && s[i] == x && forall j :: 0 <= j < i ==> s[j] != x
    ensures RemoveFirst(s, x) == s[..i] + s[i + 1..]
  {
    if i > 0 {
      RemoveFirstErases(s[1..], x, i - 1);
      assert s[..i] == [s[0]] + s[1..][..i - 1];
      assert s[i + 1..] == s[1..][i..];
    }
  }

  /** Removing an element that does not occur changes nothing. */
  lemma {:induction false} RemoveFirstAbsent<T>(s: seq<T>, x: T)
    requires x !in s
    ensures RemoveFirst(s, x) == s
  {
    if s != [] {
      RemoveFirstAbsent(s[1..], x);
    }
  }

  /** Removing the first occurrence takes out one copy of `x`, if any, and keeps everything else. */
  lemma {:induction false} RemoveFirstMultiset<T>(s: seq<T>, x: T)
    ensures multiset(RemoveFirst(s, x)) == multiset(s) - multiset{x}
    ensures |RemoveFirst(s, x)| == if x in s then |s| - 1 else |s|
  {
    if s != [] {
      assert s == [s[0]] + s[1..];
      RemoveFirstMultiset(s[1..], x);
    }
  }

  /** std::find: the first position of `x` in `s`, or |s| when it does not occur. */
  method FindFirst<T(==)>(s: seq<T>, x: T) returns (i: nat)
    ensures i <= |s|
    ensures i < |s| ==> s[i] == x
    ensures forall j :: 0 <= j < i ==> s[j] != x
  {
    i := 0;
    while i < |s| && s[i] != x
      invariant i <= |s|
      invariant forall j :: 0 <= j < i ==> s[j] != x
    {
      i := i + 1;
    }
  }

  /** The stop and release commands Shutdown issues for the active list, in list order. */
  function StopAndReleaseCalls(active: seq<Ptr>): seq<Call> {
    if active == [] then []
    else
      var last := active[|active| - 1];
      StopAndReleaseCalls(active[..|active| - 1]) + [StopEvent(last, true), ReleaseEvent(last)]
  }

  /** Every active instance is stopped immediately and then released. */
  lemma {:induction false} StopAndReleaseCover(active: seq<Ptr>, i: int)
    requires 0 <= i < |active|
    ensures |StopAndReleaseCalls(active)| == 2 * |active|
    ensures StopAndReleaseCalls(active)[2 * i] == StopEvent(active[i], true)
    ensures StopAndReleaseCalls(active)[2 * i + 1] == ReleaseEvent(active[i])
  {
    var front := active[..|active| - 1];
    if i < |active| - 1 {
      StopAndReleaseCover(front, i);
    } else if front != [] {
      StopAndReleaseCover(front, 0);
    }
  }

  /** The stop and release commands for every instance of the active list, in list order. */
  method StopAndReleaseAll(active: seq<Ptr>) returns (stops: seq<Call>)
    ensures stops == StopAndReleaseCalls(active)
  {
    stops := [];
    var i := 0;
    while i < |active|
      invariant 0 <= i <= |active|
      invariant stops == StopAndReleaseCalls(active[..i])
    {
      stops := stops + [StopEvent(active[i], true), ReleaseEvent(active[i])];
      assert active[..i + 1][..i] == active[..i];
      i := i + 1;
    }
    assert active[..|active|] == active;
  }

  class AudioEngine {
    var studioSystem: Ptr
    var coreSystem: Ptr
    var loadedBanks: map<string, Ptr>
    var activeEvents: seq<Ptr>
    /** The middleware commands issued so far. */
    var calls: seq<Call>

    /** No null bank is ever stored. */
    ghost predicate Valid()
      reads this
    {
      forall name :: name in loadedBanks ==> loadedBanks[name] != Null
    }

    /** The state of a freshly constructed engine. */
    ghost predicate Pristine()
      reads this
    {
      studioSystem == Null && coreSystem == Null && loadedBanks == map[] && activeEvents == [] && calls == []
    }

    constructor ()
      ensures Valid() && Pristine()
    {
      studioSystem, coreSystem := Null, Null;
      loadedBanks, activeEvents := map[], [];
      calls := [];
    }

    /**
      Creates and initializes the studio system (live update, 512 channels),
      gets the core system and loads the master banks, raising at the first
      middleware error. `create`, `init`, `core` and `bankAnswer` are the
      middleware's answers.
     */
    method Initialize(create: Answer, init: FmodResult, core: Answer, bankAnswer: string -> Answer) returns (o: Outcome<()>)
      requires Valid()
      modifies this`studioSystem, this`coreSystem, this`loadedBanks, this`calls
      ensures Valid()
      ensures studioSystem == create.handle
      ensures create.result != FmodOk ==>
        o == Threw(create.result) && calls == old(calls) + [CreateStudioSystem]
        && coreSystem == old(coreSystem) && loadedBanks == old(loadedBanks)
      ensures create.result == FmodOk && init != FmodOk ==>
        o == Threw(init) && calls == old(calls) + [CreateStudioSystem, InitializeStudio(512, true)]
        && coreSystem == old(coreSystem) && loadedBanks == old(loadedBanks)
      ensures create.result == FmodOk && init == FmodOk ==> coreSystem == core.handle
      ensures create.result == FmodOk && init == FmodOk && core.result != FmodOk ==>
        o == Threw(core.result) && calls == old(calls) + [CreateStudioSystem, InitializeStudio(512, true)]
        && loadedBanks == old(loadedBanks)
      ensures create.result == FmodOk && init == FmodOk && core.result == FmodOk ==>
        var r := LoadBanksInOrder(old(loadedBanks), MasterBankPaths, bankAnswer);
        && o == r.outcome && loadedBanks == r.banks
        && calls == old(calls) + [CreateStudioSystem, InitializeStudio(512, true)] + r.issued
    {
      ghost var banks0, calls0 := loadedBanks, calls;
      calls := calls + [CreateStudioSystem];
      studioSystem := create.handle;
      o := Check(create.result);
      if o.Threw? {
        return;
      }
      calls := calls + [InitializeStudio(512, true)];
      o := Check(init);
      if o.Threw? {
        return;
      }
      coreSystem := core.handle;
      o := Check(core.result);
      if o.Threw? {
        return;
      }
      ghost var calls1 := calls;
      assert calls1 == calls0 + [CreateStudioSystem, InitializeStudio(512, true)];
      assert loadedBanks == banks0;
      o := LoadMasterBanks(bankAnswer);
      assert calls == calls1 + LoadBanksInOrder(banks0, MasterBankPaths, bankAnswer).issued;
    }

    /**
      Loads the bank `bankName` once; `answer` is the middleware's answer.
      The effect is that of `LoadBankStep`.
     */
    method LoadBank(bankName: string, answer: Answer) returns (o: Outcome<()>)
      requires Valid()
      modifies this`loadedBanks, this`calls
      ensures Valid()
      ensures var r := LoadBankStep(old(loadedBanks), bankName, answer);
        && loadedBanks == r.banks && calls == old(calls) + r.issued && o == r.outcome
    {
      if bankName in loadedBanks {
        return Completed(());
      }
      calls := calls + [LoadBankFile(bankName, false)];
      o := Check(answer.result);
      if o.Threw? {
        return;
      }
      if answer.handle != Null {
        loadedBanks := loadedBanks[bankName := answer.handle];
        calls := calls + [LoadSampleData(answer.handle)];
      }
    }

    /** Loads the three master banks in their fixed order, stopping at the first that raises. */
    method LoadMasterBanks(answer: string -> Answer) returns (o: Outcome<()>)
      requires Valid()
      modifies this`loadedBanks, this`calls
      ensures Valid()
      ensures var r := LoadBanksInOrder(old(loadedBanks), MasterBankPaths, answer);
        && loadedBanks == r.banks && calls == old(calls) + r.issued && o == r.outcome
    {
      ghost var banks0, calls0 := loadedBanks, calls;
      var p := MasterBankPaths;
      MasterBanksInThreeSteps(banks0, answer);
      ghost var s0 := LoadBankStep(banks0, p[0], answer(p[0]));
      o := LoadBank(p[0], answer(p[0]));
      if o.Threw? {
        return;
      }
      ghost var s1 := LoadBankStep(s0.banks, p[1], answer(p[1]));
      o := LoadBank(p[1], answer(p[1]));
      if o.Threw? {
        AppendAssoc(calls0, s0.issued, s1.issued);
        return;
      }
      ghost var s2 := LoadBankStep(s1.banks, p[2], answer(p[2]));
      o := LoadBank(p[2], answer(p[2]));
      AppendAssoc(calls0, s0.issued, s1.issued);
      AppendAssoc(calls0, s0.issued + s1.issued, s2.issued);
    }

    /**
      Creates an instance of the event at `eventPath` and adds it to the
      active list; `lookup` and `created` are the middleware's answers to the
      description lookup and the instance creation. An error raises before
      anything is added.
     */
    method CreateEventInstance(eventPath: string, lookup: Answer, created: Answer) returns (o: Outcome<Ptr>)
      modifies this`activeEvents, this`calls
      ensures lookup.result != FmodOk ==> o == Threw(lookup.result) && unchanged(this)
      ensures lookup.result == FmodOk ==> calls == old(calls) + [CreateInstance(lookup.handle)]
      ensures lookup.result == FmodOk && created.result != FmodOk ==>
        o == Threw(created.result) && activeEvents == old(activeEvents)
      ensures lookup.result == FmodOk && created.result == FmodOk ==>
        o == Completed(created.handle) && activeEvents == old(activeEvents) + [created.handle]
    {
      var checked := Check(lookup.result);
      if checked.Threw? {
        return Threw(checked.error);
      }
      calls := calls + [CreateInstance(lookup.handle)];
      checked := Check(created.result);
      if checked.Threw? {
        return Threw(checked.error);
      }
      activeEvents := activeEvents + [created.handle];
      return Completed(created.handle);
    }

    /** Starts a non-null instance. */
    method PlayEvent(instance: Ptr)
      modifies this`calls
      ensures calls == old(calls) + (if instance != Null then [StartEvent(instance)] else [])
    {
      if instance != Null {
        calls := calls + [StartEvent(instance)];
      }
    }

    /**
      Stops a non-null instance (immediately or with a fade out), releases it,
      and removes its first occurrence from the active list.
     */
    method StopEvent(instance: Ptr, immediate: bool := false)
      modifies this`activeEvents, this`calls
      ensures instance == Null ==> unchanged(this)
      ensures instance != Null ==>
        && calls == old(calls) + [Middleware.StopEvent(instance, immediate), ReleaseEvent(instance)]
        && activeEvents == RemoveFirst(old(activeEvents), instance)
    {
      if instance == Null {
        return;
      }
      calls := calls + [Middleware.StopEvent(instance, immediate), ReleaseEvent(instance)];
      var it := FindFirst(activeEvents, instance);
      if it < |activeEvents| {
        RemoveFirstErases(activeEvents, instance, it);
        activeEvents := activeEvents[..it] + activeEvents[it + 1..];
      } else {
        RemoveFirstAbsent(activeEvents, instance);
      }
    }

    /** Sets a parameter of a non-null instance by name. */
    method SetEventParameter(instance: Ptr, paramName: string, value: real)
      modifies this`calls
      ensures calls == old(calls) + (if instance != Null then [SetParameter(instance, paramName, value)] else [])
    {
      if instance != Null {
        calls := calls + [SetParameter(instance, paramName, value)];
      }
    }

    /**
      Stops and releases every active instance, unloads every bank, releases
      the studio system and empties both tables. The core system pointer is
      left as it was.
     */
    method Shutdown()
      requires Valid()
      modifies this`activeEvents, this`loadedBanks, this`studioSystem, this`calls
      ensures Valid()
      ensures activeEvents == [] && loadedBanks == map[] && studioSystem == Null
      ensures exists order :: (Enumerates(order, old(loadedBanks).Keys) &&
        calls == old(calls) + StopAndReleaseCalls(old(activeEvents)) + UnloadCalls(order, old(loadedBanks))
                 + (if old(studioSystem) != Null then [ReleaseStudio(old(studioSystem))] else []))
    {
      var stops := StopAndReleaseAll(activeEvents);
      calls := calls + stops;
      activeEvents := [];

      // No bank in the table is null, so every bank gets its unload command.
      var unloads, order := BankUnloadCalls(loadedBanks);
      calls := calls + unloads;
      loadedBanks := map[];

      if studioSystem != Null {
        calls := calls + [ReleaseStudio(studioSystem)];
        studioSystem := Null;
      }
    }

    /** Pumps the middleware once, if there is a studio system; the time step is not used. */
    method Update(deltaTime: real := 0.0)
      modifies this`calls
      ensures calls == old(calls) + (if studioSystem != Null then [StudioUpdate(studioSystem)] else [])
    {
      if studioSystem != Null {
        calls := calls + [StudioUpdate(studioSystem)];
      }
    }
  }

  /** The process-wide engine of `AudioEngine::Get`: created on first use, the same object ever after. */
  class EngineHost {
    var instance: AudioEngine?

    constructor ()
      ensures instance == null
    {
      instance := null;
    }

    method Get() returns (engine: AudioEngine)
      modifies this
      ensures instance == engine
      ensures old(instance) != null ==> engine == old(instance)
      ensures old(instance) == null ==> fresh(engine) && engine.Valid() && engine.Pristine()
    {
      if instance == null {
        instance := new AudioEngine();
      }
      engine := instance;
    }
  }

  /** Two calls of Get return one and the same engine. */
  method GetTwice(host: EngineHost) returns (first: AudioEngine, second: AudioEngine)
    modifies host
    ensures first == second
  {
    first := host.Get();
    second := host.Get();
  }
}
