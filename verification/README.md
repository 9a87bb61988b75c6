# Security dashboard: arm/disarm and emergency-call state

A Dafny model of the two pieces of state logic in a browser dashboard for a
residential security-monitoring service. Everything else in that application is
presentation.

- **Arm/disarm control** (`src/components/security/SecurityControl.tsx`). The
  component holds a list of monitored properties, each with its sensors, and a
  busy marker. The marker is a single slot: it holds the id of one property, or
  nothing. A status change first sets the marker to the property's id. After a
  simulated latency it replaces the list with a mapped copy: the property with
  that id gets the requested status (armed or disarmed) and a new
  last-change time, and all of its sensors become active (armed) or inactive
  (disarmed). It then sends a best-effort notification whose failure is
  swallowed, and it clears the marker in every case. The switch starts a change
  only when the requested status differs from the current one. A property's
  controls are disabled exactly when the marker names it.
- **Emergency calls** (`src/components/emergency/EmergencyCall.tsx`). The
  component holds the form fields (selected type, description), a boolean
  loading flag and the list of active calls. A submission builds a `pending`
  call record for the demo property and user. It sends a best-effort
  notification and puts the call at the head of the list. It schedules a
  dispatch of that id after 5 seconds, resets the form and clears the flag.
  The dispatch turns every call with that id into `dispatched`.

Modules:

- `Types` (`types.dfy`): the record shapes of `src/types/security.ts`, with time
  as an integer number of milliseconds.
- `Arming` (`arming.dfy`): the list transform as functions, its properties as
  lemmas, the guards and display mappers, and the component state as the class
  `SecurityControl`.
- `Emergency` (`emergency.dfy`): record construction, prepend, dispatch and
  labels as functions, their properties as lemmas, and the component state as
  the class `EmergencyCallPanel`.

Each asynchronous handler is split at its awaits, and each piece is a method.
The arm/disarm handler has two awaits: the simulated latency and the
notification. `BeginStatusChange` is the synchronous prefix that sets the busy
marker. `ApplyStatusChange` runs after the latency and replaces the list.
`SettleStatusChange` runs after the notification: it shows the confirmation and
runs the `finally` block that clears the marker. The emergency handler awaits
only the notification, so it has two pieces. `BeginCall` sets the loading flag
and builds the record. `FinishCall` prepends the call, schedules the dispatch,
resets the form and clears the flag. Each `Handle…` method runs its pieces with
nothing in between. `OverlappingChanges` shows two status changes interleaved.
The 5-second timer is the method `DispatchTimeout`, invoked explicitly.

A disabled control does not fire. The methods for user actions therefore
require that their control be enabled. For the switch and the button of a
property, this means the busy marker does not name that property. For the
category buttons, it means the loading flag is clear. Because the marker is a
single slot, starting a change for another property re-enables the first
property's controls. `ReenabledByOverwrite` shows a second change started that
way.

Clocks and ids are parameters. The outcome of each remote notification is a
`Delivery` parameter that no postcondition depends on. This is how the model
states that a failed notification neither blocks nor undoes the update. The
notification's own failure is already caught, so it never reaches the `catch`
branch of a handler. The model enters that branch when the confirmation step
raises, and the boolean `raised` selects it. In the arm/disarm handler the update has already been
applied when that happens. In the emergency handler the call has already been
prepended, but no dispatch is scheduled and the form is not reset, because those
statements come after the confirmation.

The category of an emergency call is stored as the raw string the handler
receives, because the source casts it to the category type without checking.
This is why the category label has a fallback to the raw string.

## Model

| member | source | states |
|---|---|---|
| `Arming.SensorStatusFor` | src/components/security/SecurityControl.tsx:58 | sensors become active exactly when the target is armed and inactive exactly when it is disarmed |
| `Arming.RestampSensors` | src/components/security/SecurityControl.tsx:56-59 | the sensor list keeps its length and order, and each sensor keeps its id, type and location; only its status becomes the given one |
| `Arming.TransitionOne` | src/components/security/SecurityControl.tsx:51-61 | a property whose id matches is transitioned (new status, time `now`, restamped sensors, other fields kept); any other property is returned unchanged |
| `Arming.ApplyTransition` | src/components/security/SecurityControl.tsx:50-62 | the list keeps its length and order; each property with the id gets the target status, time `now` and restamped sensors, and keeps its id, address and number; every other property is returned unchanged |
| `Arming.TargetFollowsRequest` | src/components/security/SecurityControl.tsx:50-59 | the matching property has the requested status and `lastStatusChange == now`; after arming all its sensors are active, after disarming all are inactive |
| `Arming.ShapePreserved` | src/components/security/SecurityControl.tsx:50-62 | the property ids stay in order; addresses, numbers and sensor counts are kept; every sensor keeps its id, type and location |
| `Arming.NoMatchNoChange` | src/components/security/SecurityControl.tsx:50-62 | if no property has the id, the list is returned unchanged |
| `Arming.TransitionIdempotent` | src/components/security/SecurityControl.tsx:50-62 | applying the same transition twice at the same time gives the same list as applying it once |
| `Arming.TransitionsCommute` | src/components/security/SecurityControl.tsx:50-62 | transitions of two different properties give the same list in either order |
| `Arming.TransitionKeepsConsistency` | src/components/security/SecurityControl.tsx:50-62 | after a transition the target's sensors agree with its status; if every property agreed before, every property agrees after |
| `Arming.InitialProperties` | src/components/security/SecurityControl.tsx:12-37 | the seed list has two properties with distinct ids, and every property's sensors agree with its status (the armed one only active sensors, the disarmed one only inactive sensors) |
| `Arming.DisarmFirstScenario` | src/components/security/SecurityControl.tsx:50-62 | disarming seed property "1" leaves it disarmed and stamped with `now`, with its three sensors inactive, and property "2" untouched |
| `Arming.SwitchRequest` | src/components/security/SecurityControl.tsx:166-171 | a change is requested iff the switch's status (armed iff checked) differs from the current status, and the request is never the current status |
| `Arming.ButtonRequest` | src/components/security/SecurityControl.tsx:174-231 | the button requests disarm exactly when the property is armed, and never requests the current status |
| `Arming.StatusColor` | src/components/security/SecurityControl.tsx:92-99 | the grey badge colour is given exactly to disarmed and to maintenance, which falls to the default branch |
| `Arming.SensorStatusColor` | src/components/security/SecurityControl.tsx:101-108 | the default grey colour is given exactly to inactive sensors |
| `Arming.SensorIcon` | src/components/security/SecurityControl.tsx:110-119 | no sensor type reaches the generic default icon |
| `Arming.StatusColorDistinguishes` | src/components/security/SecurityControl.tsx:92-99 | two statuses have the same badge colour iff they are equal or both are disarmed/maintenance |
| `Arming.SensorStatusColorInjective` | src/components/security/SecurityControl.tsx:101-108 | the four sensor statuses have four different colours |
| `Arming.SensorIconInjective` | src/components/security/SecurityControl.tsx:110-119 | the five sensor types have five different icons |
| `Arming.SecurityControl.constructor` | src/components/security/SecurityControl.tsx:40-41 | the component starts with the given list and no busy marker |
| `Arming.SecurityControl.Controls` | src/components/security/SecurityControl.tsx:163-231 | the switch is on iff the property is armed; the switch and the button are disabled, and the button shows its spinner, exactly when the busy marker names the property; the button requests the status opposite to armed |
| `Arming.SecurityControl.BeginStatusChange` | src/components/security/SecurityControl.tsx:43-44 | the marker is set to the property, overwriting any earlier value without a check; afterwards exactly the controls of properties with that id are disabled; the list is unchanged |
| `Arming.SecurityControl.ApplyStatusChange` | src/components/security/SecurityControl.tsx:46-62 | after the latency the list becomes `ApplyTransition` of the old list, and the marker is left as it is while the notification is pending |
| `Arming.SecurityControl.SettleStatusChange` | src/components/security/SecurityControl.tsx:64-89 | after the notification, whatever its outcome, the list is kept and the marker is cleared, so every property's controls are enabled; the error path is taken only when the confirmation raises |
| `Arming.SecurityControl.HandleStatusChange` | src/components/security/SecurityControl.tsx:43-90 | a whole uninterrupted change leaves the transformed list and a cleared marker |
| `Arming.SecurityControl.OnCheckedChange` | src/components/security/SecurityControl.tsx:163-171 | fires only while the property's switch is enabled; a change is started (marker set to the property) exactly when `SwitchRequest` yields one; otherwise nothing changes |
| `Arming.SecurityControl.OnButtonPress` | src/components/security/SecurityControl.tsx:174-231 | fires only while the property's button is enabled; the button starts a change towards the opposite of armed and sets the marker to the property |
| `Arming.OverlappingChanges` | src/components/security/SecurityControl.tsx:43-90 | when two changes overlap, settling the first clears the marker while the second is still in flight; the final list has both transitions |
| `Arming.ReenabledByOverwrite` | src/components/security/SecurityControl.tsx:44 | starting a change for another property overwrites the marker, so a property whose change is in flight is enabled again and a second change for it can start |
| `Emergency.EmergencyTypes` | src/components/emergency/EmergencyCall.tsx:12-17 | the category table's values are pairwise distinct and its labels non-empty |
| `Emergency.KindValue` | src/types/security.ts:39 | the wire value of every category of the record type is listed in the category table |
| `Emergency.MockActiveCalls` | src/components/emergency/EmergencyCall.tsx:20-31 | the seed list holds one dispatched call, stamped before `now`, on the demo property by the demo user, of a listed category shown with its table label |
| `Emergency.FindType` | src/components/emergency/EmergencyCall.tsx:70 | the result is absent iff no entry has the value; otherwise it is the first entry with that value |
| `Emergency.TypeLabel` | src/components/emergency/EmergencyCall.tsx:70 | a listed category gets its table label; an unlisted string is shown as itself |
| `Emergency.TypeLabelOfKnownKind` | src/components/emergency/EmergencyCall.tsx:12-17 | every category of the record type is in the table and is shown with its table label |
| `Emergency.StatusLabel` | src/components/emergency/EmergencyCall.tsx:103-110 | no call status reaches the "unknown" default label |
| `Emergency.StatusColor` | src/components/emergency/EmergencyCall.tsx:94-101 | no call status reaches the grey default colour |
| `Emergency.StatusDisplayInjective` | src/components/emergency/EmergencyCall.tsx:94-110 | the three call statuses have three different labels and three different colours |
| `Emergency.NewCall` | src/components/emergency/EmergencyCall.tsx:43-52 | a new call is pending on property "1" by user "user123" with the demo location, the requested category, the given id and time `now`; its description is absent iff the typed description is empty and is otherwise kept verbatim |
| `Emergency.Prepend` | src/components/emergency/EmergencyCall.tsx:68 | the new call is at index 0, the list grows by exactly one, and the earlier calls follow in their order |
| `Emergency.Dispatch` | src/components/emergency/EmergencyCall.tsx:77-81 | the list keeps its length and order; each call with the id becomes dispatched with its other fields kept; every other call is returned unchanged |
| `Emergency.DispatchNoMatch` | src/components/emergency/EmergencyCall.tsx:77-81 | dispatching an id that no call has leaves the list unchanged |
| `Emergency.DispatchSettles` | src/components/emergency/EmergencyCall.tsx:77-81 | after a dispatch the ids stay in place and no call with that id is left undispatched |
| `Emergency.DispatchIdempotent` | src/components/emergency/EmergencyCall.tsx:77-81 | dispatching the same id twice gives the same list as dispatching it once |
| `Emergency.DispatchPastNewCall` | src/components/emergency/EmergencyCall.tsx:68-81 | a call submitted later with another id does not affect an earlier call's dispatch, which changes only the older part of the list |
| `Emergency.SubmitThenDispatch` | src/components/emergency/EmergencyCall.tsx:43-81 | for an unused id, the dispatch after a submission turns only the new head call into dispatched and leaves the earlier calls as they were |
| `Emergency.DispatchHitsCollidingIds` | src/components/emergency/EmergencyCall.tsx:77-81 | an older call that shares the new call's clock-derived id is dispatched too |
| `Emergency.EmergencyCallPanel.constructor` | src/components/emergency/EmergencyCall.tsx:34-37 | the component starts with empty form fields, no loading and the given calls |
| `Emergency.EmergencyCallPanel.SetDescription` | src/components/emergency/EmergencyCall.tsx:160 | typing sets the description and nothing else |
| `Emergency.EmergencyCallPanel.BeginCall` | src/components/emergency/EmergencyCall.tsx:39-52 | starts only while the category buttons are enabled (flag clear); the loading flag is set and the record is `NewCall` of the current description; the list and the form are unchanged |
| `Emergency.EmergencyCallPanel.FinishCall` | src/components/emergency/EmergencyCall.tsx:54-91 | the call is prepended whatever the notification's outcome; on success the call's id is scheduled and both form fields are reset to ""; if the confirmation raises, nothing is scheduled and the form is kept; the flag is cleared on both paths |
| `Emergency.EmergencyCallPanel.HandleEmergencyCall` | src/components/emergency/EmergencyCall.tsx:39-92 | starts only while the flag is clear; a whole uninterrupted submission leaves the new call at the head and the flag cleared; on success the form is reset and the id scheduled; if the confirmation raises, nothing is scheduled and the form keeps its contents |
| `Emergency.EmergencyCallPanel.DispatchTimeout` | src/components/emergency/EmergencyCall.tsx:76-83 | the timer replaces the list by its dispatch for the id and leaves the form and the flag alone |
| `Emergency.FireScenario` | src/components/emergency/EmergencyCall.tsx:39-83 | a fire call described "smoke smell" is at the head of the list with its description, and after its timer fires it is dispatched |

## Left out

- Remote notifications (the `POST` requests and their payloads, built with `JSON.stringify` and `toISOString`) are not modelled. Only their outcome appears, as a parameter that nothing depends on. The `console.log` call in each notification's `.catch` is a logging side effect and is left out as well.
- The 2-second latency and the 5-second `setTimeout` are not modelled as timers. Each deferred continuation is a method invoked explicitly. Timers that fire after the component is gone are not modelled.
- `Date.now()`, `new Date()` and `toLocaleString` become integer parameters. The source derives a call's id from the clock and its timestamp from a second clock read. Here both are parameters and are not tied to each other.
- Toast messages, JSX rendering, the badge and sensor status texts, and CSS strings are not modelled, because they are presentation. The exceptions are the mappers modelled here: status colour, sensor status colour and sensor icon in the arm/disarm component, and status colour and status label in the emergency component.
- React's state semantics (batched updates, functional updaters run at render time) are not modelled. Each setter is an assignment to the latest state.
- The `maxLength` of the description field is not modelled, because it is a browser input limit rather than logic of the component.
- The session context (`src/contexts/AuthContext.tsx`), the dashboard overview, the layout and the page shell are not part of this model. They are local-storage plumbing and presentation. The `User`, `SecurityAction` and `NotificationSettings` record shapes belong to them and are left out too.
- The description field is the only form input modelled. The source never sets `selectedType` except to reset it.
- `Arming.SecurityControl.SettleStatusChange`, `Emergency.EmergencyCallPanel.FinishCall`: the `raised` flag is an exception raised by the confirmation step. That step runs after the list update and, in the emergency handler, before the dispatch is scheduled and the form is reset. An exception raised earlier is not modelled: it would need building the notification payload to fail, and in the emergency handler it would reach the `catch` before the call is prepended.
