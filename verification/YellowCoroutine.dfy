/** The coroutine object behind `Yellow`, updated in place and proved to take exactly its steps. */
module YellowCoroutine {
  import opened ColodTypes
  import opened Y = Yellow

  class YellowCoroutine {
    const config: Config
    var target: ColodEvent
    var park: Park
    var sourceId: nat
    var armed: map<nat, nat>
    var nextId: nat
    var now: nat
    var sent: seq<ColodMessage>
    var notified: seq<Notice>
    var quit: bool

    ghost function View(): Yellow
      reads this
    {
      Yellow.Yellow(target, park, Timers(sourceId, armed, nextId), now, sent, notified)
    }

    constructor (config: Config)
      ensures View() == Created && !quit && this.config == config
    {
      this.config := config;
      target, park := EventYellow, Awaiting;
      sourceId, armed, nextId, now := 0, map[], 1, 0;
      sent, notified, quit := [], [], false;
    }

    method AddTimeout(timeout: nat)
      modifies this`sourceId, this`armed, this`nextId
      ensures View() == Arm(old(View()), timeout)
    {
      sourceId, armed, nextId := nextId, armed[nextId := now + timeout], nextId + 1;
    }

    /** The head of the loop in _yellow_delay_co */
    method Begin(event: Option<ColodEvent>)
      modifies this
      ensures View() == Y.Begin(config, old(View()), event) && quit == old(quit)
    {
      if event.None? {
        park := AssertFailed;
      } else if event.value == EventQuit {
        park := Ended;
      } else if event.value != target {
        park := Awaiting;
      } else {
        AddTimeout(config.timeout1);
        park := FirstWindow;
      }
    }

    /** Entering the coroutine with `event`, or from a timer */
    method Resume(event: Option<ColodEvent>)
      modifies this
      ensures View() == Y.Resume(config, old(View()), event) && quit == old(quit)
    {
      match park
      case Awaiting => Begin(event);
      case FirstWindow =>
        if event == Some(target) {
          return;
        }
        if event.Some? {
          armed := armed - {sourceId};
          Begin(event);
          return;
        }
        sent := sent + [TargetMessage(target)];
        AddTimeout(config.timeout2);
        park := SecondWindow;
      case SecondWindow =>
        if event == Some(target) {
          return;
        }
        if event.Some? {
          sent := sent + [RevertMessage(target)];
          armed := armed - {sourceId};
          Begin(event);
          return;
        }
        notified := notified + [Notice(now, target)];
        target, park := Opposite(target), Awaiting;
      case _ => park := AssertFailed;
    }

    /** yellow_co, as the callback of a due timer: its assert holds, as only an event ends the coroutine */
    method TimerFired(id: nat)
      requires id in armed && armed[id] <= now
      modifies this
      ensures Next(config, old(View()), Expire(id)) == Some(View()) && quit == old(quit)
      ensures !park.Ended?
    {
      Resume(None);
      assert !park.Ended?;
      armed := armed - {id};
    }

    method QueueEvent(event: ColodEvent)
      modifies this
      ensures View() == Y.Resume(config, old(View()), Some(event))
      ensures quit == (old(quit) || park.Ended?)
    {
      Resume(Some(event));
      if park.Ended? {
        quit := true;
      }
    }

    /** yellow_shutdown: its assert holds, for `quit` is set exactly when the coroutine has ended */
    method Shutdown()
      requires Inv(View()) && (quit <==> park.Ended?)
      modifies this
      ensures Next(config, old(View()), Y.Shutdown) == Some(View())
      ensures quit && park.Ended? && armed == map[]
    {
      if quit {
        return;
      }
      NextKeepsInv(config, View(), Y.Shutdown);
      QueueEvent(EventQuit);
    }
  }
}
