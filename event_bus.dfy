/**
 * The notification bus: a map from event name to the ordered list of callbacks
 * registered for it. Callbacks are identified by number; every emit is recorded in
 * `trace` with the callbacks it ran, in the order it ran them.
 */
module EventBus {

  import opened GameTypes
  import opened JsArray

  type CallbackId = nat

  /** The payloads the game attaches to its notifications. */
  datatype Payload =
    | NoData
    | ScoreData(score: int)
    | HighScoreData(highScore: int)
    | LivesData(lives: int)
    | PowerUpData(kind: PowerUpType)
    | GameOverData(score: int, highScore: int, timeSurvived: int)

  /** One emit: its event and data, and the callbacks it ran, in order. */
  datatype Dispatch = Dispatch(event: string, data: Payload, callbacks: seq<CallbackId>)

  // Event names
  const GAME_START := "game-start"
  const GAME_OVER := "game-over"
  const GAME_PAUSE := "game-pause"
  const GAME_RESUME := "game-resume"
  const SCORE_UPDATE := "score-update"
  const LIVES_UPDATE := "lives-update"
  const POWERUP_COLLECTED := "powerup-collected"
  const POWERUP_EXPIRED := "powerup-expired"
  const OBSTACLE_DESTROYED := "obstacle-destroyed"
  const HIGH_SCORE_UPDATE := "high-score-update"
  const CURRENT_SCENE_READY := "current-scene-ready"

  /** The callbacks registered for an event; none when the event has no list yet. */
  function Registered(events: map<string, seq<CallbackId>>, event: string): seq<CallbackId> {
    if event in events then events[event] else []
  }

  /** What emitting `event` with `data` does while the registrations are `events`: run the event's callbacks. */
  function Sent(events: map<string, seq<CallbackId>>, event: string, data: Payload): Dispatch {
    Dispatch(event, data, Registered(events, event))
  }

  /** How many times callback cb ran, according to a trace. */
  function RunsOf(trace: seq<Dispatch>, cb: CallbackId): nat {
    if |trace| == 0 then 0
    else multiset(trace[0].callbacks)[cb] + RunsOf(trace[1..], cb)
  }

  /** The runs of a trace add up over its parts. */
  lemma {:induction false} RunsOfAppend(a: seq<Dispatch>, b: seq<Dispatch>, cb: CallbackId)
    ensures RunsOf(a + b, cb) == RunsOf(a, cb) + RunsOf(b, cb)
  {
    if |a| == 0 {
      assert a + b == b;
    } else {
      assert (a + b)[1..] == a[1..] + b;
      RunsOfAppend(a[1..], b, cb);
    }
  }

  /**
   * One more emit adds to every callback's runs exactly as many as it is registered
   * for the event: none for an unknown event, twice for a callback registered twice.
   */
  lemma EmitAddsRuns(trace: seq<Dispatch>, events: map<string, seq<CallbackId>>, event: string, data: Payload, cb: CallbackId)
    ensures RunsOf(trace + [Sent(events, event, data)], cb) == RunsOf(trace, cb) + multiset(Registered(events, event))[cb]
  {
    RunsOfAppend(trace, [Sent(events, event, data)], cb);
    assert [Sent(events, event, data)][1..] == [];
  }

  class Bus {
    var events: map<string, seq<CallbackId>>
    /** Every emit so far, in order, with the callbacks it ran; an emit with none registered ran none. */
    var trace: seq<Dispatch>

    constructor ()
      ensures events == map[] && trace == []
    {
      events := map[];
      trace := [];
    }

    /** on: append the callback to the event's list, creating the list if needed; duplicates are kept. */
    method On(event: string, callback: CallbackId)
      modifies this
      ensures events == old(events)[event := Registered(old(events), event) + [callback]]
      ensures trace == old(trace)
    {
      if event !in events {
        events := events[event := []];
      }
      events := events[event := events[event] + [callback]];
    }

    /** off: remove the first registration of the callback; nothing happens if it is not registered. */
    method Off(event: string, callback: CallbackId)
      modifies this
      ensures event in old(events) ==> events == old(events)[event := RemoveFirst(old(events)[event], callback)]
      ensures event !in old(events) ==> events == old(events)
      ensures trace == old(trace)
    {
      if event in events {
        var callbacks := events[event];
        var index := IndexOf(callbacks, callback);
        if index != -1 {
          callbacks := callbacks[..index] + callbacks[index + 1..];
        }
        events := events[event := callbacks];
      }
    }

    /** emit: run every callback registered for the event once, in registration order. */
    method Emit(event: string, data: Payload)
      modifies this
      ensures events == old(events)
      ensures trace == old(trace) + [Sent(events, event, data)]
    {
      var callbacks := Registered(events, event);
      var ran: seq<CallbackId> := [];
      for i := 0 to |callbacks|
        invariant ran == callbacks[..i]
        invariant events == old(events) && trace == old(trace)
      {
        assert callbacks[..i + 1] == callbacks[..i] + [callbacks[i]];
        ran := ran + [callbacks[i]];
      }
      assert callbacks[..|callbacks|] == callbacks;
      trace := trace + [Dispatch(event, data, ran)];
    }

    /** removeAll: forget every registration. */
    method RemoveAll()
      modifies this
      ensures events == map[]
      ensures trace == old(trace)
    {
      events := map[];
    }
  }

  /**
   * Register a handler, emit twice, unregister it, emit again: the handler has run
   * exactly twice, and no registration is left for the event.
   */
  method OnEmitOffScenario() returns (runs: nat, left: seq<CallbackId>)
    ensures runs == 2
    ensures left == []
  {
    var bus := new Bus();
    var handler: CallbackId := 7;
    bus.On("test-event", handler);
    bus.Emit("test-event", NoData);
    bus.Emit("test-event", NoData);
    bus.Off("test-event", handler);
    bus.Emit("test-event", NoData);
    var d := Dispatch("test-event", NoData, [handler]);
    var none := Dispatch("test-event", NoData, []);
    assert bus.trace == [d, d, none];
    assert RunsOf([none], handler) == 0;
    assert RunsOf([d, none], handler) == 1 by {
      assert [d, none][1..] == [none];
    }
    assert RunsOf([d, d, none], handler) == 2 by {
      assert [d, d, none][1..] == [d, none];
    }
    runs := RunsOf(bus.trace, handler);
    left := Registered(bus.events, "test-event");
  }

  /** After removeAll, an emit runs nothing. */
  method RemoveAllScenario(event: string, callback: CallbackId, data: Payload) returns (ran: seq<CallbackId>)
    ensures ran == []
  {
    var bus := new Bus();
    bus.On(event, callback);
    bus.RemoveAll();
    bus.Emit(event, data);
    ran := bus.trace[0].callbacks;
  }
}
