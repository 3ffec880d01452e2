/**
 * The Cover ability: a Door, Window or WindowCovering service that follows a
 * calibrated cover component's movement and sends it to target positions.
 */
module CoverAbility {
  import opened Common
  import opened Strings
  import opened Host
  import opened Device
  import AbilityBase

  /** The kinds of cover a cover component can be shown as; the default is a window. */
  datatype CoverType = DoorType | WindowType | WindowCoveringType

  /** The configuration key of a cover type (`'door'`, `'window'`, `'windowCovering'`). */
  function TypeKey(t: CoverType): (k: string)
    ensures |k| > 0 && !IsDigit(k[|k| - 1])
  {
    match t
    case DoorType => "door"
    case WindowType => "window"
    case WindowCoveringType => "windowCovering"
  }

  function DisplayName(t: CoverType): string
  {
    match t
    case DoorType => "Door"
    case WindowType => "Window"
    case WindowCoveringType => "Window Covering"
  }

  function ServiceName(t: CoverType, id: nat): string
  {
    DisplayName(t) + " " + DecimalString(id + 1)
  }

  function ServiceSubtype(t: CoverType, id: nat): string
  {
    TypeKey(t) + "-" + DecimalString(id)
  }

  /** Two covers share a subtype only when they are the same type and the same component. */
  lemma SubtypeInjective(t1: CoverType, id1: nat, t2: CoverType, id2: nat)
    requires ServiceSubtype(t1, id1) == ServiceSubtype(t2, id2)
    ensures t1 == t2 && id1 == id2
  {
    PrefixedNumberInjective(TypeKey(t1) + "-", TypeKey(t2) + "-", id1, id2);
    assert TypeKey(t1) == (TypeKey(t1) + "-")[..|TypeKey(t1) + "-"| - 1];
    assert TypeKey(t2) == (TypeKey(t2) + "-")[..|TypeKey(t2) + "-"| - 1];
  }

  /** The service class of a cover type. */
  function ServiceClassOf(t: CoverType): (cls: ServiceClass)
    ensures cls == Door <==> t == DoorType
    ensures cls == WindowCovering <==> t == WindowCoveringType
    ensures cls == Window <==> t == WindowType
  {
    match t
    case DoorType => Door
    case WindowCoveringType => WindowCovering
    case WindowType => Window
  }

  /** `positionState`: opening is increasing, closing is decreasing, any other state is stopped. */
  function PositionStateFor(state: string): (ps: PositionStateValue)
    ensures ps == Increasing <==> state == "opening"
    ensures ps == Decreasing <==> state == "closing"
    ensures ps == Stopped <==> state != "opening" && state != "closing"
  {
    if state == "opening" then Increasing
    else if state == "closing" then Decreasing
    else Stopped
  }

  /** `currentPosition`: the reported position, or 0 when there is none. */
  function CurrentPositionFor(currentPos: Option<int>): (p: int)
    ensures currentPos.Some? ==> p == currentPos.value
    ensures currentPos.None? ==> p == 0
  {
    currentPos.GetOr(0)
  }

  /** `targetPosition`: the reported target, or the current position when the cover has none. */
  function TargetPositionFor(currentPos: Option<int>, targetPos: Option<int>): (p: int)
    ensures targetPos.Some? ==> p == targetPos.value
    ensures targetPos.None? ==> p == CurrentPositionFor(currentPos)
  {
    targetPos.GetOr(CurrentPositionFor(currentPos))
  }

  const Events: set<Event> := {ChangeState, ChangeCurrentPos, ChangeTargetPos}

  /** The three characteristics show the component's state, target and position. */
  predicate InSync(s: Service, c: Component)
    reads s`values, c`coverState, c`currentPos, c`targetPos
  {
    && PositionState in s.values && s.values[PositionState] == PositionStateOf(PositionStateFor(c.coverState))
    && CurrentPosition in s.values && s.values[CurrentPosition] == IntValue(CurrentPositionFor(c.currentPos))
    && TargetPosition in s.values && s.values[TargetPosition] == IntValue(TargetPositionFor(c.currentPos, c.targetPos))
  }

  /**
   * `initialize()`: an uncalibrated cover is left without values or
   * listeners; a calibrated one publishes state, position and target in
   * that order, accepts target writes and listens to all three properties.
   */
  method Initialize(s: Service, c: Component, owner: object)
    modifies s`values, s`updates, s`writable, c`listeners
    ensures !c.posControl ==> s.values == old(s.values) && s.updates == old(s.updates)
    ensures !c.posControl ==> s.writable == old(s.writable) && c.listeners == old(c.listeners)
    ensures c.posControl ==> InSync(s, c)
    ensures c.posControl ==> s.values.Keys == old(s.values).Keys + {PositionState, CurrentPosition, TargetPosition}
    ensures c.posControl ==> s.updates == old(s.updates) + [
      (PositionState, PositionStateOf(PositionStateFor(c.coverState))),
      (CurrentPosition, IntValue(CurrentPositionFor(c.currentPos))),
      (TargetPosition, IntValue(TargetPositionFor(c.currentPos, c.targetPos)))]
    ensures c.posControl ==> s.writable == old(s.writable) + {TargetPosition}
    ensures c.posControl ==> c.listeners == old(c.listeners) + ListenersOf(Events, owner)
  {
    if !c.posControl {
      return;
    }
    s.Set(PositionState, PositionStateOf(PositionStateFor(c.coverState)));
    s.Set(CurrentPosition, IntValue(CurrentPositionFor(c.currentPos)));
    s.Set(TargetPosition, IntValue(TargetPositionFor(c.currentPos, c.targetPos)));
    s.OnSet(TargetPosition);
    c.On(ChangeState, owner);
    c.On(ChangeCurrentPos, owner);
    c.On(ChangeTargetPos, owner);
    assert ListenersOf(Events, owner) ==
      {Listener(ChangeState, owner), Listener(ChangeCurrentPos, owner), Listener(ChangeTargetPos, owner)};
  }

  /**
   * The `onSet` handler of TargetPosition: a value equal to the reported
   * target sends nothing; any other value (also when no target is reported)
   * sends exactly one `goToPosition`, and a rejection fails the write.
   */
  method TargetPositionSetHandler(c: Component, value: int, reply: Reply, setUp: bool) returns (r: Outcome)
    modifies c`commands
    ensures c.targetPos == Some(value) ==> r == Pass && c.commands == old(c.commands)
    ensures c.targetPos != Some(value) ==> c.commands == old(c.commands) + [GoToPosition(value)]
    ensures c.targetPos != Some(value) && reply == Resolved ==> r == Pass
    ensures c.targetPos != Some(value) && reply == Rejected ==> r == Fail(AbilityBase.CommandFailure(setUp))
  {
    if c.targetPos == Some(value) {
      return Pass;
    }
    c.Send(GoToPosition(value));
    if reply == Rejected {
      return Fail(AbilityBase.CommandFailure(setUp));
    }
    return Pass;
  }

  /**
   * `updateStates()`, run by each of the three change handlers: republishes
   * state, target and position, so the service is in sync afterwards
   * whatever it showed before.
   */
  method UpdateStates(s: Service, c: Component)
    modifies s`values, s`updates
    ensures InSync(s, c)
    ensures s.values.Keys == old(s.values).Keys + {PositionState, CurrentPosition, TargetPosition}
    ensures forall k | k in old(s.values) && k !in {PositionState, CurrentPosition, TargetPosition} :: s.values[k] == old(s.values)[k]
    ensures s.updates == old(s.updates) + [
      (PositionState, PositionStateOf(PositionStateFor(c.coverState))),
      (TargetPosition, IntValue(TargetPositionFor(c.currentPos, c.targetPos))),
      (CurrentPosition, IntValue(CurrentPositionFor(c.currentPos)))]
  {
    s.Set(PositionState, PositionStateOf(PositionStateFor(c.coverState)));
    s.Set(TargetPosition, IntValue(TargetPositionFor(c.currentPos, c.targetPos)));
    s.Set(CurrentPosition, IntValue(CurrentPositionFor(c.currentPos)));
  }
}
