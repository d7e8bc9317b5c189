/** The logs page: the one-bit `refFetch` flag that records whether a log
    stream is open, the four places that read or write it, and the choice
    between the placeholder and the virtualised list.  `fetchLogs` and
    `stopLogs` belong to a module outside this model; their calls are
    counted, and the settings written through `updateAppConfig` are
    recorded. */
module LogsView {

  /** A write through `actions.app.updateAppConfig`. */
  datatype AppConfigUpdate = LogStreamingPaused(paused: bool) | LogLevel(level: string)

  /** What the page can do.  `FetchEffect` is one run of the effect on
      `[logStreamingPaused, apiConfig, logLevel, appendLogInternal]`. */
  datatype Event = TogglePause | ChangeLevel(level: string) | Unmount | FetchEffect

  /** The flag, the two settings as the store holds them, and the record of
      calls: `starts` counts the times the flag went from 0 to 1, `fetches`
      holds the level of each `fetchLogs` call. */
  datatype LogsState = LogsState(
    refFetch: int,
    paused: bool,
    level: string,
    starts: nat,
    stops: nat,
    fetches: seq<string>,
    updates: seq<AppConfigUpdate>)

  /** The first render: no stream is open, nothing has been called, and the
      state is balanced. */
  function Mounted(paused: bool, level: string): (r: LogsState)
    ensures Balanced(r) && r.refFetch == 0
    ensures r.stops == 0 && r.fetches == [] && r.updates == []
  {
    LogsState(0, paused, level, 0, 0, [], [])
  }

  /** An open stream is stopped and the flag cleared; a closed one is left
      alone.  The pause toggle, the level change and the cleanup share this
      step. */
  function StopIfActive(s: LogsState): (r: LogsState)
    ensures r.refFetch == (if s.refFetch == 1 then 0 else s.refFetch)
    ensures r.stops == (if s.refFetch == 1 then s.stops + 1 else s.stops)
    ensures r == s.(refFetch := r.refFetch, stops := r.stops)
  {
    if s.refFetch == 1 then s.(refFetch := 0, stops := s.stops + 1) else s
  }

  /** One event.  Only the fetch effect opens a stream or calls
      `fetchLogs`; it never stops a stream or writes a setting.  Every event
      keeps the record of earlier calls and adds at most one call of each
      kind. */
  function Step(s: LogsState, e: Event): (r: LogsState)
    ensures !e.FetchEffect? ==> r.fetches == s.fetches && r.starts == s.starts
    ensures e.FetchEffect? ==> r.stops == s.stops && r.updates == s.updates
    ensures s.fetches <= r.fetches && |r.fetches| <= |s.fetches| + 1
    ensures s.updates <= r.updates && |r.updates| <= |s.updates| + 1
    ensures s.stops <= r.stops <= s.stops + 1
  {
    match e
    case TogglePause =>
      var t := StopIfActive(s);
      t.(paused := !s.paused, updates := s.updates + [LogStreamingPaused(!s.paused)])
    case ChangeLevel(level) =>
      if s.level == level then s
      else
        var t := StopIfActive(s);
        t.(level := level, updates := s.updates + [LogLevel(level)])
    case Unmount =>
      StopIfActive(s)
    case FetchEffect =>
      if s.paused then s
      else
        var t := if s.refFetch == 0 then s.(refFetch := 1, starts := s.starts + 1) else s;
        t.(fetches := s.fetches + [s.level])
  }

  /** The events in turn.  The record of calls only grows, by at most one
      call of each kind per event. */
  function Run(s: LogsState, events: seq<Event>): (r: LogsState)
    ensures s.fetches <= r.fetches && |r.fetches| <= |s.fetches| + |events|
    ensures s.updates <= r.updates && |r.updates| <= |s.updates| + |events|
    ensures s.stops <= r.stops <= s.stops + |events|
    decreases |events|
  {
    if events == [] then s else Run(Step(s, events[0]), events[1..])
  }

  /** The flag is a bit, every opening of the stream is ended by exactly
      one stop or is still open, and every opening came with a fetch. */
  predicate Balanced(s: LogsState): (b: bool)
    ensures b ==> s.stops <= s.starts <= |s.fetches|
  {
    && (s.refFetch == 0 || s.refFetch == 1)
    && s.starts == s.stops + s.refFetch
    && s.starts <= |s.fetches|
  }

  /** Each event keeps the balance. */
  lemma StepBalanced(s: LogsState, e: Event)
    requires Balanced(s)
    ensures Balanced(Step(s, e))
  {
  }

  /** So does every sequence of events: `stopLogs` is never called more
      often than a stream was opened, nor more often than `fetchLogs`. */
  lemma {:induction false} RunBalanced(s: LogsState, events: seq<Event>)
    requires Balanced(s)
    ensures Balanced(Run(s, events))
    ensures Run(s, events).stops <= |Run(s, events).fetches|
    decreases |events|
  {
    if events != [] {
      StepBalanced(s, events[0]);
      RunBalanced(Step(s, events[0]), events[1..]);
    }
  }

  /** No event calls `stopLogs` unless the flag is 1, and an event that
      calls it leaves the flag 0; no event calls it twice. */
  lemma StopOnlyWhenActive(s: LogsState, e: Event)
    ensures Step(s, e).stops == s.stops || Step(s, e).stops == s.stops + 1
    ensures Step(s, e).stops == s.stops + 1 ==> s.refFetch == 1 && Step(s, e).refFetch == 0
  {
  }

  /** While paused the fetch effect does nothing. */
  lemma PausedEffectDoesNothing(s: LogsState)
    requires s.paused
    ensures Step(s, FetchEffect) == s
  {
  }

  /** Not paused, the effect leaves the flag at 1 and calls `fetchLogs` once,
      with the current level, whether or not a stream was open. */
  lemma EffectFetches(s: LogsState)
    requires !s.paused && (s.refFetch == 0 || s.refFetch == 1)
    ensures Step(s, FetchEffect).refFetch == 1
    ensures Step(s, FetchEffect).fetches == s.fetches + [s.level]
    ensures Step(s, FetchEffect).stops == s.stops
  {
  }

  /** The pause toggle stops an open stream, clears the flag and always
      writes the negated setting. */
  lemma ToggleStopsAndFlips(s: LogsState)
    ensures var t := Step(s, TogglePause);
      && (t.stops == s.stops + 1 <==> s.refFetch == 1)
      && (s.refFetch == 0 || s.refFetch == 1 ==> t.refFetch == 0)
      && t.paused == !s.paused
      && t.updates == s.updates + [LogStreamingPaused(!s.paused)]
      && t.fetches == s.fetches
  {
  }

  /** Picking the level already shown changes nothing at all. */
  lemma SameLevelIsNoOp(s: LogsState)
    ensures Step(s, ChangeLevel(s.level)) == s
  {
  }

  /** Picking another level stops an open stream, clears the flag and
      stores the level. */
  lemma OtherLevelStops(s: LogsState, level: string)
    requires level != s.level && (s.refFetch == 0 || s.refFetch == 1)
    ensures var t := Step(s, ChangeLevel(level));
      && (t.stops == s.stops + 1 <==> s.refFetch == 1)
      && t.refFetch == 0
      && t.level == level
      && t.updates == s.updates + [LogLevel(level)]
  {
  }

  /** Cleanup after a stop, or a second cleanup, is a no-op. */
  lemma UnmountIdempotent(s: LogsState)
    ensures Step(Step(s, Unmount), Unmount) == Step(s, Unmount)
  {
  }

  /** Resuming reopens: pause, resume and the effect that follows end with a
      stream open on the current level. */
  lemma PauseResumeReopens(s: LogsState)
    requires Balanced(s) && !s.paused
    ensures var t := Run(s, [TogglePause, TogglePause, FetchEffect]);
      && t.refFetch == 1 && !t.paused
      && t.fetches == s.fetches + [s.level]
      && t.stops == s.stops + s.refFetch
  {
    var a := Step(s, TogglePause);
    var b := Step(a, TogglePause);
    assert Run(s, [TogglePause, TogglePause, FetchEffect]) == Step(b, FetchEffect) by {
      assert [TogglePause, TogglePause, FetchEffect][1..] == [TogglePause, FetchEffect];
      assert [TogglePause, FetchEffect][1..] == [FetchEffect];
      assert [FetchEffect][1..] == [];
    }
  }

  /** The component: the ref and the two store settings it reads, with the
      calls it makes recorded in ghost fields. */
  class LogsComponent {
    var refFetch: int
    var paused: bool
    var level: string
    ghost var starts: nat
    ghost var stops: nat
    ghost var fetches: seq<string>
    ghost var updates: seq<AppConfigUpdate>

    ghost function State(): LogsState
      reads this
    {
      LogsState(refFetch, paused, level, starts, stops, fetches, updates)
    }

    constructor (logStreamingPaused: bool, logLevel: string)
      ensures State() == Mounted(logStreamingPaused, logLevel)
    {
      refFetch := 0;
      paused := logStreamingPaused;
      level := logLevel;
      starts := 0;
      stops := 0;
      fetches := [];
      updates := [];
    }

    method StopLogsIfActive()
      modifies this
      ensures State() == StopIfActive(old(State()))
    {
      if refFetch == 1 {
        refFetch := 0;
        stops := stops + 1;
      }
    }

    /** `toggleIsRefreshPaused`. */
    method ToggleIsRefreshPaused()
      modifies this
      ensures State() == Step(old(State()), TogglePause)
    {
      StopLogsIfActive();
      updates := updates + [LogStreamingPaused(!paused)];
      paused := !paused;
    }

    /** `onChangeLogLevel`, for the level picked. */
    method OnChangeLogLevel(newLevel: string)
      modifies this
      ensures State() == Step(old(State()), ChangeLevel(newLevel))
    {
      if level == newLevel {
        return;
      }
      StopLogsIfActive();
      updates := updates + [LogLevel(newLevel)];
      level := newLevel;
    }

    /** The cleanup of the mount effect. */
    method Cleanup()
      modifies this
      ensures State() == Step(old(State()), Unmount)
    {
      StopLogsIfActive();
    }

    /** One run of the fetch effect. */
    method FetchEffect()
      modifies this
      ensures State() == Step(old(State()), Event.FetchEffect)
    {
      if paused {
        return;
      }
      if refFetch == 0 {
        refFetch := 1;
        starts := starts + 1;
      }
      fetches := fetches + [level];
    }
  }

  // ---------------------------------------------------------------------
  // The list

  /** One line of the log as the page shows it; only `id` matters here. */
  datatype Log = Log(id: string, time: string, even: bool, payload: string, logType: string)

  /** `itemKey(index, data)`: the React key of row `index`. */
  function ItemKey(index: nat, data: seq<Log>): (key: string)
    requires index < |data|
    ensures exists log :: log in data && log.id == key
  {
    data[index].id
  }

  /** Distinct ids give distinct row keys, so the list never sees a key
      twice. */
  lemma ItemKeysDistinct(data: seq<Log>, i: nat, j: nat)
    requires forall a, b :: 0 <= a < b < |data| ==> data[a].id != data[b].id
    requires i < |data| && j < |data| && i != j
    ensures ItemKey(i, data) != ItemKey(j, data)
  {
  }

  /** What the logs area shows. */
  datatype LogsBody = Placeholder | List(itemCount: nat)

  function Body(logs: seq<Log>): (r: LogsBody)
    ensures r.Placeholder? <==> |logs| == 0
    ensures r.List? ==> r.itemCount == |logs| && r.itemCount > 0
  {
    if |logs| == 0 then Placeholder else List(|logs|)
  }

  /** Every row the list can ask for has a key. */
  lemma EveryRowHasKey(logs: seq<Log>, index: nat)
    requires Body(logs).List? && index < Body(logs).itemCount
    ensures ItemKey(index, logs) == logs[index].id
  {
  }
}
