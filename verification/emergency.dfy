/** The emergency-call panel: construction of a call record, the list of active
    calls (newest first), the delayed dispatch of a call by id, the labels shown
    for categories and statuses, and the component state as a class. */
module Emergency {
  import opened Types

  /** The single demo property every call is attached to, and the fixed user. */
  const DemoPropertyId: string := "1"
  const DemoUserId: string := "user123"
  const DemoLocation: string := "ул. Ленина, 15, кв. 42"

  /** One entry of the category table: its wire value and its label. */
  datatype TypeOption = TypeOption(value: string, caption: string)

  /** The category table. Its values are distinct and its labels non-empty, so a
      listed category is always shown with its own label. */
  function EmergencyTypes(): (t: seq<TypeOption>)
    ensures forall i, j :: 0 <= i < j < |t| ==> t[i].value != t[j].value
    ensures forall i :: 0 <= i < |t| ==> t[i].caption != ""
  {
    [ TypeOption("security", "Охранная тревога"),
      TypeOption("police", "Полиция"),
      TypeOption("fire", "Пожарная служба"),
      TypeOption("medical", "Скорая помощь") ]
  }

  /** The values of a category table, in order. */
  function Values(options: seq<TypeOption>): (r: seq<string>)
    ensures |r| == |options|
    ensures forall i :: 0 <= i < |options| ==> r[i] == options[i].value
  {
    if options == [] then [] else [options[0].value] + Values(options[1..])
  }

  /** The wire value of each category of the record type; every one is listed in
      the category table. */
  function KindValue(k: EmergencyKind): (r: string)
    ensures r in Values(EmergencyTypes())
  {
    match k
    case Security => "security"
    case Police => "police"
    case Fire => "fire"
    case Medical => "medical"
  }

  /** The call list the component starts from, with its timestamp relative to `now`:
      one call, already dispatched, on the demo property, of a listed category. */
  function MockActiveCalls(now: Time): (r: seq<EmergencyCall>)
    ensures |r| == 1 && r[0].status == Dispatched && r[0].timestamp < now
    ensures r[0].propertyId == DemoPropertyId && r[0].userId == DemoUserId
    ensures TypeLabel(r[0].kind) == EmergencyTypes()[0].caption
  {
    [ EmergencyCall("1", DemoPropertyId, DemoUserId, "security", Dispatched, now - 10 * Minute,
                    Some(DemoLocation), Some("Сработал датчик движения")) ]
  }

  // ---------------------------------------------------------------------------
  // Category labels
  // ---------------------------------------------------------------------------

  /** The first entry of `options` whose value is `kind`, if any. */
  function FindType(options: seq<TypeOption>, kind: string): (r: Option<TypeOption>)
    ensures r.None? <==> forall j :: 0 <= j < |options| ==> options[j].value != kind
    ensures r.Some? ==> exists j :: (0 <= j < |options| && options[j] == r.value &&
      r.value.value == kind && forall k :: 0 <= k < j ==> options[k].value != kind)
  {
    if options == [] then None
    else if options[0].value == kind then Some(options[0])
    else FindType(options[1..], kind)
  }

  /** The label shown for a category: the table's label, or the raw category
      string when the table has no entry for it (or its label is empty). */
  function TypeLabel(kind: string): (r: string)
    ensures (forall j :: 0 <= j < |EmergencyTypes()| ==> EmergencyTypes()[j].value != kind) ==> r == kind
    ensures forall j :: 0 <= j < |EmergencyTypes()| && EmergencyTypes()[j].value == kind ==>
      r == EmergencyTypes()[j].caption
  {
    match FindType(EmergencyTypes(), kind)
    case Some(option) => if option.caption != "" then option.caption else kind
    case None => kind
  }

  /** Every category of the record type is in the table, and gets its table label. */
  lemma TypeLabelOfKnownKind(k: EmergencyKind)
    ensures exists j :: (0 <= j < |EmergencyTypes()| && EmergencyTypes()[j].value == KindValue(k) &&
      TypeLabel(KindValue(k)) == EmergencyTypes()[j].caption)
  {
    var j := match k
      case Security => 0
      case Police => 1
      case Fire => 2
      case Medical => 3;
    assert EmergencyTypes()[j].value == KindValue(k);
    assert forall i :: 0 <= i < j ==> EmergencyTypes()[i].value != KindValue(k);
  }

  // ---------------------------------------------------------------------------
  // Status display
  // ---------------------------------------------------------------------------

  /** The text of a call status; the "unknown" default is never reached. */
  function StatusLabel(status: CallStatus): (r: string)
    ensures r != "Неизвестно"
  {
    match status
    case Pending => "Ожидает"
    case Dispatched => "Выехали"
    case Resolved => "Завершён"
  }

  /** The badge colour of a call status; the grey default is never reached. */
  function StatusColor(status: CallStatus): (r: string)
    ensures r != "bg-gray-100 text-gray-800"
  {
    match status
    case Pending => "bg-yellow-100 text-yellow-800"
    case Dispatched => "bg-blue-100 text-blue-800"
    case Resolved => "bg-green-100 text-green-800"
  }

  /** Each status has its own label and colour. */
  lemma StatusDisplayInjective(a: CallStatus, b: CallStatus)
    ensures StatusLabel(a) == StatusLabel(b) <==> a == b
    ensures StatusColor(a) == StatusColor(b) <==> a == b
  {
  }

  // ---------------------------------------------------------------------------
  // Call records and the active list
  // ---------------------------------------------------------------------------

  /** The record of a new call: pending, on the demo property, by the demo user, of
      the requested category, stamped `now`; an empty description is absent and a
      non-empty one is kept as typed. */
  function NewCall(id: string, kind: string, now: Time, description: string): (c: EmergencyCall)
    ensures c.id == id && c.kind == kind && c.timestamp == now
    ensures c.status == Pending && c.propertyId == DemoPropertyId && c.userId == DemoUserId
    ensures c.location == Some(DemoLocation)
    ensures c.description.None? <==> description == ""
    ensures c.description.Some? ==> c.description.value == description
  {
    EmergencyCall(id, DemoPropertyId, DemoUserId, kind, Pending, now, Some(DemoLocation),
                  if description != "" then Some(description) else None)
  }

  /** The list after a new call: the call first, then the previous calls in order. */
  function Prepend(calls: seq<EmergencyCall>, c: EmergencyCall): (r: seq<EmergencyCall>)
    ensures |r| == |calls| + 1 && r[0] == c
    ensures forall i :: 0 <= i < |calls| ==> r[i + 1] == calls[i]
  {
    [c] + calls
  }

  /** The delayed status update: every call whose id is `id` becomes dispatched,
      every other call is returned as it was. */
  function Dispatch(calls: seq<EmergencyCall>, id: string): (r: seq<EmergencyCall>)
    ensures |r| == |calls|
    ensures forall i :: 0 <= i < |calls| ==>
      r[i] == if calls[i].id == id then calls[i].(status := Dispatched) else calls[i]
  {
    if calls == [] then []
    else [if calls[0].id == id then calls[0].(status := Dispatched) else calls[0]]
         + Dispatch(calls[1..], id)
  }

  /** Dispatching an id that no call has changes nothing. */
  lemma DispatchNoMatch(calls: seq<EmergencyCall>, id: string)
    requires forall i :: 0 <= i < |calls| ==> calls[i].id != id
    ensures Dispatch(calls, id) == calls
  {
  }

  /** After a dispatch no call with that id is pending, and the ids stay in place. */
  lemma DispatchSettles(calls: seq<EmergencyCall>, id: string)
    ensures var r := Dispatch(calls, id);
      (forall i :: 0 <= i < |r| ==> r[i].id == calls[i].id) &&
      (forall i :: 0 <= i < |r| && r[i].id == id ==> r[i].status == Dispatched)
  {
  }

  /** Dispatching twice is dispatching once. */
  lemma DispatchIdempotent(calls: seq<EmergencyCall>, id: string)
    ensures Dispatch(Dispatch(calls, id), id) == Dispatch(calls, id)
  {
  }

  /** A later submission does not disturb a pending dispatch of another id: the
      dispatch affects the older part of the list only. */
  lemma DispatchPastNewCall(calls: seq<EmergencyCall>, c: EmergencyCall, id: string)
    requires c.id != id
    ensures Dispatch(Prepend(calls, c), id) == Prepend(Dispatch(calls, id), c)
  {
  }

  /** A new call whose id is unused is the only call its own dispatch changes: it
      becomes dispatched at the head of the list and the others keep their order. */
  lemma SubmitThenDispatch(calls: seq<EmergencyCall>, id: string, kind: string, now: Time,
                           description: string)
    requires forall i :: 0 <= i < |calls| ==> calls[i].id != id
    ensures var c := NewCall(id, kind, now, description);
      Dispatch(Prepend(calls, c), id) == [c.(status := Dispatched)] + calls
  {
  }

  /** Ids derived from the clock can collide: then the dispatch of the new call
      also dispatches every older call that has the same id. */
  lemma DispatchHitsCollidingIds(calls: seq<EmergencyCall>, c: EmergencyCall, i: int)
    requires 0 <= i < |calls| && calls[i].id == c.id
    ensures Dispatch(Prepend(calls, c), c.id)[i + 1] == calls[i].(status := Dispatched)
  {
  }

  // ---------------------------------------------------------------------------
  // Component state
  // ---------------------------------------------------------------------------

  /** The state of the emergency-call component: the form fields, the loading
      flag and the active calls. */
  class EmergencyCallPanel {
    var selectedType: string
    var description: string
    var isLoading: bool
    var activeCalls: seq<EmergencyCall>

    constructor (initial: seq<EmergencyCall>)
      ensures selectedType == "" && description == "" && !isLoading
      ensures activeCalls == initial
    {
      selectedType := "";
      description := "";
      isLoading := false;
      activeCalls := initial;
    }

    /** Typing into the description field. */
    method SetDescription(text: string)
      modifies this
      ensures description == text
      ensures selectedType == old(selectedType) && isLoading == old(isLoading)
      ensures activeCalls == old(activeCalls)
    {
      description := text;
    }

    /** The synchronous start of a submission: the loading flag is set and the
        record is built from the current description. The category buttons that
        open the confirmation are disabled while the flag is set, so a submission
        starts only when it is clear. */
    method BeginCall(kind: string, id: string, now: Time) returns (call: EmergencyCall)
      requires !isLoading
      modifies this
      ensures call == NewCall(id, kind, now, old(description))
      ensures isLoading
      ensures selectedType == old(selectedType) && description == old(description)
      ensures activeCalls == old(activeCalls)
    {
      isLoading := true;
      call := NewCall(id, kind, now, description);
    }

    /** The rest of a submission, after the notification: its failure is swallowed
        and the call is put at the head of the list; then the dispatch of its id is
        scheduled and the form is cleared. `raised` says whether the confirmation
        step raised: the call stays in the list, but nothing is scheduled and the
        form keeps its contents. The loading flag is cleared in every case. */
    method FinishCall(call: EmergencyCall, notify: Delivery, raised: bool)
      returns (scheduled: Option<string>)
      modifies this
      ensures activeCalls == Prepend(old(activeCalls), call)
      ensures !isLoading
      ensures scheduled == if raised then None else Some(call.id)
      ensures !raised ==> description == "" && selectedType == ""
      ensures raised ==> description == old(description) && selectedType == old(selectedType)
    {
      // The notification's outcome is discarded.
      activeCalls := Prepend(activeCalls, call);
      if raised {
        scheduled := None;
      } else {
        scheduled := Some(call.id);
        description := "";
        selectedType := "";
      }
      isLoading := false;
    }

    /** A whole submission run without another handler in between. */
    method HandleEmergencyCall(kind: string, id: string, now: Time, notify: Delivery, raised: bool)
      returns (call: EmergencyCall, scheduled: Option<string>)
      requires !isLoading
      modifies this
      ensures call == NewCall(id, kind, now, old(description))
      ensures activeCalls == [call] + old(activeCalls)
      ensures !isLoading
      ensures scheduled == if raised then None else Some(id)
      ensures !raised ==> description == "" && selectedType == ""
      ensures raised ==> description == old(description) && selectedType == old(selectedType)
    {
      call := BeginCall(kind, id, now);
      scheduled := FinishCall(call, notify, raised);
    }

    /** The scheduled status update firing for `id`. */
    method DispatchTimeout(id: string)
      modifies this
      ensures activeCalls == Dispatch(old(activeCalls), id)
      ensures selectedType == old(selectedType) && description == old(description)
      ensures isLoading == old(isLoading)
    {
      activeCalls := Dispatch(activeCalls, id);
    }
  }

  /** The fire-with-description scenario: the new call is pending, first in the
      list and described; once its timer fires it is dispatched. */
  method FireScenario(panel: EmergencyCallPanel, id: string, now: Time)
    requires forall i :: 0 <= i < |panel.activeCalls| ==> panel.activeCalls[i].id != id
    requires !panel.isLoading
    modifies panel
    ensures |panel.activeCalls| == |old(panel.activeCalls)| + 1
    ensures panel.activeCalls[0].kind == "fire" && panel.activeCalls[0].status == Dispatched
    ensures panel.activeCalls[0].description == Some("smoke smell")
    ensures panel.activeCalls[1..] == old(panel.activeCalls)
  {
    panel.SetDescription("smoke smell");
    var call, scheduled := panel.HandleEmergencyCall("fire", id, now, Rejected, false);
    assert call.status == Pending && panel.activeCalls[0] == call;
    SubmitThenDispatch(old(panel.activeCalls), id, "fire", now, "smoke smell");
    panel.DispatchTimeout(scheduled.value);
  }
}
