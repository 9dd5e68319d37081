/**
 * Dynamic attacks (`attack.py`): a parameter write that a watcher sends to
 * the vehicle the first time the mission cursor reaches a trigger waypoint.
 * The watcher thread and its stop event become a finite trace of polls: at
 * each poll either the stop event is found set, or reading the cursor times
 * out, or the cursor is read.
 */
module Attacks {
  import opened Wrappers
  import opened Config
  import opened Dronekit

  /** Why a dictionary does not describe an attack. */
  datatype AttackError = MissingKey(key: string) | WrongType(key: string)

  /** What the watcher sees at one iteration of its loop. */
  datatype WatchPoll = StopSignalled | ConnectionLost | Cursor(next: int)

  /** How a watcher ended; `Watching` when the trace ran out first. */
  datatype WatchOutcome = Fired(at: nat) | Stopped(at: nat) | Lost(at: nat) | Watching

  /** `Attack.from_dict`: the three keys are read in order, `parameter` first. */
  function FromDict(d: map<string, Value>): (r: Result<Attack, AttackError>)
    ensures "parameter" !in d ==> r == Failure(MissingKey("parameter"))
    ensures "parameter" in d && "value" !in d ==> r == Failure(MissingKey("value"))
    ensures "parameter" in d && "value" in d && "waypoint" !in d ==> r == Failure(MissingKey("waypoint"))
    ensures r.Success? <==>
      && "parameter" in d && d["parameter"].Str?
      && "value" in d && d["value"].Int?
      && "waypoint" in d && d["waypoint"].Int?
    ensures r.Success? ==>
      r.value == Attack(d["parameter"].s, d["value"].i, d["waypoint"].i)
  {
    if "parameter" !in d then Failure(MissingKey("parameter"))
    else if "value" !in d then Failure(MissingKey("value"))
    else if "waypoint" !in d then Failure(MissingKey("waypoint"))
    else if !d["parameter"].Str? then Failure(WrongType("parameter"))
    else if !d["value"].Int? then Failure(WrongType("value"))
    else if !d["waypoint"].Int? then Failure(WrongType("waypoint"))
    else Success(Attack(d["parameter"].s, d["value"].i, d["waypoint"].i))
  }

  /** No poll from `k` up to `i` stops the watcher or reaches `trigger`. */
  ghost predicate BelowTrigger(trigger: int, polls: seq<WatchPoll>, k: nat, i: nat)
    requires k <= i <= |polls|
  {
    forall j :: k <= j < i ==> polls[j].Cursor? && polls[j].next < trigger
  }

  /**
   * The loop of `wait_loop`, started at poll `k`: it fires at the first poll
   * whose cursor is at or past the trigger, and ends without firing at the
   * first stop signal or lost connection before that.
   */
  function Watch(trigger: int, polls: seq<WatchPoll>, k: nat): (w: WatchOutcome)
    requires k <= |polls|
    ensures w.Watching? <==> BelowTrigger(trigger, polls, k, |polls|)
    ensures w.Fired? ==>
      && k <= w.at < |polls| && BelowTrigger(trigger, polls, k, w.at)
      && polls[w.at].Cursor? && polls[w.at].next >= trigger
    ensures w.Stopped? ==>
      && k <= w.at < |polls| && BelowTrigger(trigger, polls, k, w.at)
      && polls[w.at] == StopSignalled
    ensures w.Lost? ==>
      && k <= w.at < |polls| && BelowTrigger(trigger, polls, k, w.at)
      && polls[w.at] == ConnectionLost
    decreases |polls| - k
  {
    if k == |polls| then Watching
    else match polls[k]
      case StopSignalled => Stopped(k)
      case ConnectionLost => Lost(k)
      case Cursor(c) => if c >= trigger then Fired(k) else Watch(trigger, polls, k + 1)
  }

  datatype Attack = Attack(parameter: string, value: int, waypoint: int) {

    /** The vehicle after `_send`: the write lands only when it is acknowledged. */
    function SendEffect(writeOk: bool, s: VehicleState): (r: VehicleState)
      ensures writeOk ==> r.parameters == s.parameters[parameter := value]
      ensures !writeOk ==> r == s
      ensures r.(parameters := s.parameters) == s
    {
      if writeOk then s.(parameters := s.parameters[parameter := value]) else s
    }

    /** `_send`: a timeout during the write is absorbed. */
    method Send(v: Vehicle, writeOk: bool)
      modifies v
      ensures v.State() == SendEffect(writeOk, old(v.State()))
    {
      if writeOk {
        v.SetParameter(parameter, value);
      }
    }

    /** `wait_loop`: poll until the trigger is reached, the stop event is set or the link drops. */
    method WaitLoop(v: Vehicle, polls: seq<WatchPoll>, writeOk: bool) returns (w: WatchOutcome)
      modifies v
      ensures w == Watch(waypoint, polls, 0)
      ensures v.State() == if w.Fired? then SendEffect(writeOk, old(v.State())) else old(v.State())
    {
      var k := 0;
      while k < |polls|
        invariant k <= |polls|
        invariant Watch(waypoint, polls, k) == Watch(waypoint, polls, 0)
        invariant v.State() == old(v.State())
        decreases |polls| - k
      {
        match polls[k]
        case StopSignalled =>
          return Stopped(k);
        case ConnectionLost =>
          return Lost(k);
        case Cursor(current) =>
          if current >= waypoint {
            Send(v, writeOk);
            return Fired(k);
          }
        k := k + 1;
      }
      w := Watching;
    }
  }

  /** The attack is fired at poll `i` exactly when `i` is the first poll to reach the trigger and nothing stopped the watcher before. */
  lemma FiresAtFirstReach(trigger: int, polls: seq<WatchPoll>, i: nat)
    ensures Watch(trigger, polls, 0) == Fired(i) <==>
      && i < |polls| && BelowTrigger(trigger, polls, 0, i)
      && polls[i].Cursor? && polls[i].next >= trigger
  {
  }

  /** A stop signal or a lost link before the trigger is reached means the attack is never sent. */
  lemma StopOrLossPreventsAttack(trigger: int, polls: seq<WatchPoll>, i: nat)
    requires i < |polls| && (polls[i] == StopSignalled || polls[i] == ConnectionLost)
    requires forall j :: 0 <= j < i ==> !(polls[j].Cursor? && polls[j].next >= trigger)
    ensures !Watch(trigger, polls, 0).Fired?
  {
  }

  /**
   * Once the watcher has decided, it has returned: no later poll changes the
   * outcome, so the parameter is written at most once per trial.
   */
  lemma {:induction false} WatchIgnoresLaterPolls(trigger: int, polls: seq<WatchPoll>, more: seq<WatchPoll>, k: nat)
    requires k <= |polls|
    requires !Watch(trigger, polls, k).Watching?
    ensures Watch(trigger, polls + more, k) == Watch(trigger, polls, k)
    decreases |polls| - k
  {
    assert (polls + more)[k] == polls[k];
    if polls[k].Cursor? && polls[k].next < trigger {
      WatchIgnoresLaterPolls(trigger, polls, more, k + 1);
    }
  }
}
