/** The arm/disarm control of the security dashboard: the pure transform that a
    status change applies to the property list, the guards of the switch and the
    buttons, the display mappers, and the component state (the property list and
    the single busy marker) as a class. */
module Arming {
  import opened Types

  /** The two statuses a user can request. */
  type ArmStatus = s: PropertyStatus | s == Armed || s == Disarmed witness Armed

  /** The seed list the component starts from, with timestamps relative to `now`. */
  function InitialProperties(now: Time): (r: seq<Property>)
    ensures AllConsistent(r)
    ensures |r| == 2 && r[0].id != r[1].id
  {
    [ Property("1", "ул. Ленина, 15, кв. 42", "1547", Armed, now - 2 * Hour,
        [ Sensor("1", Motion, Active, "Гостиная"),
          Sensor("2", Door, Active, "Входная дверь"),
          Sensor("3", Window, Active, "Окно спальни") ]),
      Property("2", "пр. Мира, 45А", "2103", Disarmed, now - 30 * Minute,
        [ Sensor("4", Motion, Inactive, "Спальня"),
          Sensor("5", Window, Inactive, "Окно кухни"),
          Sensor("6", Smoke, Inactive, "Кухня") ]) ]
  }

  // ---------------------------------------------------------------------------
  // The transform applied by a status change
  // ---------------------------------------------------------------------------

  /** The status every sensor of a property takes after a transition to `target`. */
  function SensorStatusFor(target: ArmStatus): (r: SensorStatus)
    ensures r == Active <==> target == Armed
    ensures r == Inactive <==> target == Disarmed
  {
    if target == Armed then Active else Inactive
  }

  /** `after` is `before` with every sensor's status set to `st`, and nothing else changed. */
  predicate Restamped(before: seq<Sensor>, after: seq<Sensor>, st: SensorStatus)
  {
    |after| == |before| &&
    forall j :: 0 <= j < |before| ==> after[j] == before[j].(status := st)
  }

  /** Sets the status of every sensor to `st`, keeping order and all other fields. */
  function RestampSensors(sensors: seq<Sensor>, st: SensorStatus): (r: seq<Sensor>)
    ensures Restamped(sensors, r, st)
  {
    if sensors == [] then []
    else [sensors[0].(status := st)] + RestampSensors(sensors[1..], st)
  }

  /** `after` is `before` after a transition to `target` at time `now`: the new status,
      the new timestamp, every sensor restamped, and id, address and number kept. */
  predicate Transitioned(before: Property, after: Property, target: ArmStatus, now: Time)
  {
    after == before.(status := target, lastStatusChange := now, sensors := after.sensors) &&
    Restamped(before.sensors, after.sensors, SensorStatusFor(target))
  }

  /** One step of the map: the property is transitioned when its id matches. */
  function TransitionOne(p: Property, propertyId: string, target: ArmStatus, now: Time): (r: Property)
    ensures p.id == propertyId ==> Transitioned(p, r, target, now)
    ensures p.id != propertyId ==> r == p
  {
    if p.id == propertyId
    then p.(status := target, lastStatusChange := now,
            sensors := RestampSensors(p.sensors, SensorStatusFor(target)))
    else p
  }

  /** The new property list of a status change: the property whose id matches
      is transitioned, every other one is returned as it was. */
  function ApplyTransition(properties: seq<Property>, propertyId: string, target: ArmStatus, now: Time)
    : (r: seq<Property>)
    ensures |r| == |properties|
    ensures forall i :: 0 <= i < |properties| ==>
      if properties[i].id == propertyId
      then Transitioned(properties[i], r[i], target, now)
      else r[i] == properties[i]
  {
    if properties == [] then []
    else [TransitionOne(properties[0], propertyId, target, now)]
         + ApplyTransition(properties[1..], propertyId, target, now)
  }

  /** A property's sensors agree with its status: armed means every sensor is
      active, disarmed means every sensor is inactive; alarm and maintenance
      constrain nothing. */
  predicate Consistent(p: Property)
  {
    (p.status == Armed ==> forall s :: s in p.sensors ==> s.status == Active) &&
    (p.status == Disarmed ==> forall s :: s in p.sensors ==> s.status == Inactive)
  }

  predicate AllConsistent(properties: seq<Property>)
  {
    forall p :: p in properties ==> Consistent(p)
  }

  function Ids(properties: seq<Property>): (r: seq<string>)
    ensures |r| == |properties|
    ensures forall i :: 0 <= i < |properties| ==> r[i] == properties[i].id
  {
    if properties == [] then [] else [properties[0].id] + Ids(properties[1..])
  }

  // ---------------------------------------------------------------------------
  // Properties of the transform
  // ---------------------------------------------------------------------------

  /** The matching property carries the requested status and the transition time,
      and all its sensors are active after arming and inactive after disarming. */
  lemma TargetFollowsRequest(properties: seq<Property>, propertyId: string, target: ArmStatus, now: Time, i: int)
    requires 0 <= i < |properties| && properties[i].id == propertyId
    ensures var r := ApplyTransition(properties, propertyId, target, now);
      r[i].status == target && r[i].lastStatusChange == now && r[i].id == propertyId &&
      (target == Armed ==> forall s :: s in r[i].sensors ==> s.status == Active) &&
      (target == Disarmed ==> forall s :: s in r[i].sensors ==> s.status == Inactive)
  {
  }

  /** Length, order and ids of the list are kept; in every property the sensors
      keep their number, order, ids, types and locations. */
  lemma ShapePreserved(properties: seq<Property>, propertyId: string, target: ArmStatus, now: Time)
    ensures var r := ApplyTransition(properties, propertyId, target, now);
      Ids(r) == Ids(properties) &&
      forall i :: 0 <= i < |r| ==>
        r[i].address == properties[i].address && r[i].number == properties[i].number &&
        |r[i].sensors| == |properties[i].sensors| &&
        forall j :: 0 <= j < |r[i].sensors| ==>
          r[i].sensors[j].id == properties[i].sensors[j].id &&
          r[i].sensors[j].kind == properties[i].sensors[j].kind &&
          r[i].sensors[j].location == properties[i].sensors[j].location
  {
  }

  /** When no property has the id, the list comes back unchanged. */
  lemma NoMatchNoChange(properties: seq<Property>, propertyId: string, target: ArmStatus, now: Time)
    requires forall i :: 0 <= i < |properties| ==> properties[i].id != propertyId
    ensures ApplyTransition(properties, propertyId, target, now) == properties
  {
  }

  /** Repeating the same transition at the same time changes nothing further. */
  lemma TransitionIdempotent(properties: seq<Property>, propertyId: string, target: ArmStatus, now: Time)
    ensures var once := ApplyTransition(properties, propertyId, target, now);
      ApplyTransition(once, propertyId, target, now) == once
  {
    var once := ApplyTransition(properties, propertyId, target, now);
    var twice := ApplyTransition(once, propertyId, target, now);
    forall i | 0 <= i < |once|
      ensures twice[i] == once[i]
    {
      if once[i].id == propertyId {
        var st := SensorStatusFor(target);
        assert |twice[i].sensors| == |once[i].sensors|;
        forall j | 0 <= j < |once[i].sensors|
          ensures twice[i].sensors[j] == once[i].sensors[j]
        {
          assert once[i].sensors[j] == properties[i].sensors[j].(status := st);
        }
        assert twice[i].sensors == once[i].sensors;
      }
    }
  }

  /** Transitions of two different properties do not interfere: either order
      gives the same list. */
  lemma TransitionsCommute(properties: seq<Property>, a: string, ta: ArmStatus, nowA: Time,
                           b: string, tb: ArmStatus, nowB: Time)
    requires a != b
    ensures ApplyTransition(ApplyTransition(properties, a, ta, nowA), b, tb, nowB)
         == ApplyTransition(ApplyTransition(properties, b, tb, nowB), a, ta, nowA)
  {
    var ab := ApplyTransition(ApplyTransition(properties, a, ta, nowA), b, tb, nowB);
    var ba := ApplyTransition(ApplyTransition(properties, b, tb, nowB), a, ta, nowA);
    forall i | 0 <= i < |properties|
      ensures ab[i] == ba[i]
    {
      var p := properties[i];
      if p.id == a {
        SameTransition(p, ab[i], ba[i], ta, nowA);
      } else if p.id == b {
        SameTransition(p, ab[i], ba[i], tb, nowB);
      }
    }
  }

  /** A transition determines its result. */
  lemma SameTransition(p: Property, x: Property, y: Property, target: ArmStatus, now: Time)
    requires Transitioned(p, x, target, now) && Transitioned(p, y, target, now)
    ensures x == y
  {
  }

  /** After a transition the target property is consistent, and a consistent list stays consistent. */
  lemma TransitionKeepsConsistency(properties: seq<Property>, propertyId: string, target: ArmStatus, now: Time)
    ensures var r := ApplyTransition(properties, propertyId, target, now);
      (forall i :: 0 <= i < |r| && r[i].id == propertyId ==> Consistent(r[i])) &&
      (AllConsistent(properties) ==> AllConsistent(r))
  {
  }

  /** Disarming the first seed property at `now`: it is disarmed, stamped with
      `now`, its three sensors are inactive, and the second property is untouched. */
  lemma DisarmFirstScenario(start: Time, now: Time)
    ensures var r := ApplyTransition(InitialProperties(start), "1", Disarmed, now);
      |r| == 2 && r[0].status == Disarmed && r[0].lastStatusChange == now &&
      |r[0].sensors| == 3 &&
      (forall s :: s in r[0].sensors ==> s.status == Inactive) &&
      r[1] == InitialProperties(start)[1]
  {
  }

  // ---------------------------------------------------------------------------
  // Guards of the controls
  // ---------------------------------------------------------------------------

  /** The switch: a change of the switch to `checked` requests armed or disarmed,
      and a transition is started only when that differs from the current status. */
  function SwitchRequest(p: Property, checked: bool): (r: Option<ArmStatus>)
    ensures r.Some? ==> r.value != p.status && (r.value == Armed <==> checked)
    ensures r.None? <==> p.status == (if checked then Armed else Disarmed)
  {
    var newStatus: ArmStatus := if checked then Armed else Disarmed;
    if newStatus != p.status then Some(newStatus) else None
  }

  /** The button beside the switch: disarm (after confirmation) when the property
      is armed, arm otherwise. */
  function ButtonRequest(p: Property): (r: ArmStatus)
    ensures r != p.status
    ensures r == Disarmed <==> p.status == Armed
  {
    if p.status == Armed then Disarmed else Armed
  }

  // ---------------------------------------------------------------------------
  // Display mappers
  // ---------------------------------------------------------------------------

  /** The badge colour of a property status; maintenance takes the default branch. */
  function StatusColor(status: PropertyStatus): (r: string)
    ensures r == "bg-gray-100 text-gray-800 border-gray-200" <==> status in {Disarmed, Maintenance}
  {
    match status
    case Armed => "bg-green-100 text-green-800 border-green-200"
    case Disarmed => "bg-gray-100 text-gray-800 border-gray-200"
    case Alarm => "bg-red-100 text-red-800 border-red-200"
    case Maintenance => "bg-gray-100 text-gray-800 border-gray-200"
  }

  /** The colour of a sensor status; inactive takes the default branch. */
  function SensorStatusColor(status: SensorStatus): (r: string)
    ensures r == "text-gray-500" <==> status == Inactive
  {
    match status
    case Active => "text-green-600"
    case Triggered => "text-red-600"
    case Offline => "text-gray-400"
    case Inactive => "text-gray-500"
  }

  /** The icon of a sensor type; the generic default is never reached. */
  function SensorIcon(kind: SensorType): (r: string)
    ensures r != "Sensor"
  {
    match kind
    case Motion => "Activity"
    case Door => "DoorOpen"
    case Window => "Square"
    case Smoke => "Flame"
    case Glass => "ShieldAlert"
  }

  /** Armed, disarmed and alarm are told apart; maintenance falls back to the
      disarmed colour. */
  lemma StatusColorDistinguishes(a: PropertyStatus, b: PropertyStatus)
    ensures StatusColor(a) == StatusColor(b) <==>
      a == b || (a in {Disarmed, Maintenance} && b in {Disarmed, Maintenance})
  {
  }

  /** Every sensor status has its own colour. */
  lemma SensorStatusColorInjective(a: SensorStatus, b: SensorStatus)
    ensures SensorStatusColor(a) == SensorStatusColor(b) <==> a == b
  {
  }

  /** Every sensor type has its own icon. */
  lemma SensorIconInjective(a: SensorType, b: SensorType)
    ensures SensorIcon(a) == SensorIcon(b) <==> a == b
  {
  }

  // ---------------------------------------------------------------------------
  // Component state
  // ---------------------------------------------------------------------------

  /** What the controls of one rendered property show: whether the switch is on,
      whether the switch and the button are disabled, whether the button shows
      its progress spinner, and which status the button requests. */
  datatype ControlView = ControlView(checked: bool, disabled: bool, spinner: bool, offers: ArmStatus)

  /** The state of the security-control component: the property list and the busy
      marker, a single slot holding the id of the property whose change was
      requested last, or nothing. */
  class SecurityControl {
    var properties: seq<Property>
    var isLoading: Option<string>

    constructor (initial: seq<Property>)
      ensures properties == initial && isLoading == None
    {
      properties := initial;
      isLoading := None;
    }

    /** The controls of a rendered property: the switch is on exactly when the
        property is armed; the switch and the button are disabled, and the button
        shows its spinner, exactly when the busy marker names the property; the
        button requests the status opposite to armed. */
    function Controls(p: Property): (v: ControlView)
      reads this
      ensures v.checked <==> p.status == Armed
      ensures v.disabled <==> isLoading == Some(p.id)
      ensures v.spinner == v.disabled
      ensures v.offers == ButtonRequest(p) && v.offers != p.status
    {
      var busy := isLoading == Some(p.id);
      ControlView(p.status == Armed, busy, busy, ButtonRequest(p))
    }

    /** The synchronous start of a status change: the marker is set to the
        property, overwriting whatever it held; nothing is checked. */
    method BeginStatusChange(propertyId: string)
      modifies this
      ensures isLoading == Some(propertyId)
      ensures forall p: Property :: Controls(p).disabled <==> p.id == propertyId
      ensures properties == old(properties)
    {
      isLoading := Some(propertyId);
    }

    /** The continuation after the simulated latency: the property list is
        transformed. The handler then awaits the notification, so the marker is
        still set and other handlers may run before it settles. */
    method ApplyStatusChange(propertyId: string, target: ArmStatus, now: Time)
      modifies this
      ensures properties == ApplyTransition(old(properties), propertyId, target, now)
      ensures isLoading == old(isLoading)
    {
      properties := ApplyTransition(properties, propertyId, target, now);
    }

    /** The continuation after the notification: its failure has been swallowed,
        the confirmation is shown, and in every case the marker is cleared.
        `raised` says whether the confirmation step raised; the list update came
        before it and is kept. `ok` is false exactly on that error path. */
    method SettleStatusChange(notify: Delivery, raised: bool) returns (ok: bool)
      modifies this
      ensures properties == old(properties)
      ensures isLoading == None
      ensures forall p: Property :: !Controls(p).disabled
      ensures ok == !raised
    {
      // The notification's outcome is discarded.
      if raised {
        ok := false;
      } else {
        ok := true;
      }
      isLoading := None;
    }

    /** A whole status change run without another handler in between. */
    method HandleStatusChange(propertyId: string, target: ArmStatus, now: Time,
                              notify: Delivery, raised: bool) returns (ok: bool)
      modifies this
      ensures properties == ApplyTransition(old(properties), propertyId, target, now)
      ensures isLoading == None
      ensures ok == !raised
    {
      BeginStatusChange(propertyId);
      ApplyStatusChange(propertyId, target, now);
      ok := SettleStatusChange(notify, raised);
    }

    /** The switch of a rendered property `p` moved to `checked`: when the request
        differs from `p`'s status, a status change is started for `p`. A disabled
        switch does not fire, so `p`'s controls are enabled. */
    method OnCheckedChange(p: Property, checked: bool) returns (started: Option<ArmStatus>)
      requires !Controls(p).disabled
      modifies this
      ensures started == SwitchRequest(p, checked)
      ensures started.Some? ==> isLoading == Some(p.id)
      ensures started.None? ==> isLoading == old(isLoading)
      ensures properties == old(properties)
    {
      started := SwitchRequest(p, checked);
      if started.Some? {
        BeginStatusChange(p.id);
      }
    }

    /** The arm button, or the confirmed disarm dialog, of a rendered property `p`,
        which can be pressed only while `p`'s controls are enabled. */
    method OnButtonPress(p: Property) returns (target: ArmStatus)
      requires !Controls(p).disabled
      modifies this
      ensures target == ButtonRequest(p) && target != p.status
      ensures isLoading == Some(p.id)
      ensures properties == old(properties)
    {
      target := ButtonRequest(p);
      BeginStatusChange(p.id);
    }
  }

  /** Two overlapping status changes for different properties: when the first
      one settles, the marker is cleared although the second is still in
      flight, so the second property's controls are enabled again; and when
      the second settles, both transitions are in the list. */
  method OverlappingChanges(c: SecurityControl, a: string, ta: ArmStatus, nowA: Time,
                            b: string, tb: ArmStatus, nowB: Time)
    requires a != b
    modifies c
    ensures c.isLoading == None
    ensures c.properties ==
      ApplyTransition(ApplyTransition(old(c.properties), a, ta, nowA), b, tb, nowB)
  {
    c.BeginStatusChange(a);
    c.BeginStatusChange(b);
    assert c.isLoading != Some(a);
    c.ApplyStatusChange(a, ta, nowA);
    var okA := c.SettleStatusChange(Delivered, false);
    assert c.isLoading == None;
    c.ApplyStatusChange(b, tb, nowB);
    var okB := c.SettleStatusChange(Rejected, false);
  }

  /** Starting a change for another property overwrites the marker, so the
      controls of a property whose own change is still in flight are enabled
      again and a second change for it can be started before the first one
      has been applied. */
  method ReenabledByOverwrite(c: SecurityControl, pa: Property, b: string)
    requires pa.id != b
    requires !c.Controls(pa).disabled
    modifies c
    ensures c.isLoading == Some(pa.id)
    ensures c.properties == old(c.properties)
  {
    var first := c.OnButtonPress(pa);
    assert c.Controls(pa).disabled;
    c.BeginStatusChange(b);
    assert !c.Controls(pa).disabled;
    var second := c.OnButtonPress(pa);
  }
}
