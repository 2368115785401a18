/**
 * The transformations the project page applies to its local list of trigger rows
 * (src/pages/ProjectDetail.tsx): append after a create (line 124), merge by id
 * after an update (lines 146-150) and filter by id after a delete (line 173).
 */
module TriggerList {
  import opened Json
  import opened Rows

  /** What the trigger form submits (src/components/EventForm.tsx:40-44). */
  datatype EventData = EventData(event_type: string, code_file_path: string, description: Option<string>)

  /** `{ ...event, ...eventData }`: the form's three fields overwrite the row's. */
  function Merged(e: EventRow, d: EventData): EventRow {
    e.(event_type := d.event_type, code_file_path := d.code_file_path, description := d.description)
  }

  /**
   * `events.map(event => event.id === eventId ? { ...event, ...eventData } : event)`:
   * same length and order; rows with that id are merged, all others unchanged.
   */
  function UpdateById(events: seq<EventRow>, eventId: string, d: EventData): (r: seq<EventRow>)
    ensures |r| == |events|
    ensures forall i :: 0 <= i < |events| && events[i].id == eventId ==> r[i] == Merged(events[i], d)
    ensures forall i :: 0 <= i < |events| && events[i].id != eventId ==> r[i] == events[i]
    decreases |events|
  {
    if events == [] then []
    else
      var head := if events[0].id == eventId then Merged(events[0], d) else events[0];
      [head] + UpdateById(events[1..], eventId, d)
  }

  /**
   * `events.filter(event => event.id !== eventId)`: exactly the rows with another
   * id remain.
   */
  function RemoveById(events: seq<EventRow>, eventId: string): (r: seq<EventRow>)
    ensures |r| <= |events|
    ensures forall e :: e in r <==> e in events && e.id != eventId
    decreases |events|
  {
    if events == [] then []
    else
      var rest := RemoveById(events[1..], eventId);
      assert forall e :: e in events <==> e == events[0] || e in events[1..];
      if events[0].id != eventId then [events[0]] + rest else rest
  }

  /** The number of rows carrying an id. */
  function CountId(events: seq<EventRow>, eventId: string): nat
    decreases |events|
  {
    if events == [] then 0
    else (if events[0].id == eventId then 1 else 0) + CountId(events[1..], eventId)
  }

  /** Removing by id preserves order: it distributes over concatenation. */
  lemma {:induction false} RemoveByIdAppend(a: seq<EventRow>, b: seq<EventRow>, eventId: string)
    ensures RemoveById(a + b, eventId) == RemoveById(a, eventId) + RemoveById(b, eventId)
    decreases |a|
  {
    if a == [] {
      assert a + b == b;
    } else {
      assert (a + b)[0] == a[0] && (a + b)[1..] == a[1..] + b;
      RemoveByIdAppend(a[1..], b, eventId);
    }
  }

  /** Exactly the rows carrying the id disappear. */
  lemma {:induction false} RemoveByIdLength(events: seq<EventRow>, eventId: string)
    ensures |RemoveById(events, eventId)| == |events| - CountId(events, eventId)
    decreases |events|
  {
    if events != [] {
      RemoveByIdLength(events[1..], eventId);
    }
  }

  /** Deleting a row that was just appended leaves the list as the delete alone would. */
  lemma RemoveAfterAppend(events: seq<EventRow>, row: EventRow)
    ensures RemoveById(events + [row], row.id) == RemoveById(events, row.id)
  {
    RemoveByIdAppend(events, [row], row.id);
    assert RemoveById([row], row.id) == [];
  }

  /** Updating then deleting the same id is the same as deleting it. */
  lemma {:induction false} RemoveAfterUpdate(events: seq<EventRow>, eventId: string, d: EventData)
    ensures RemoveById(UpdateById(events, eventId, d), eventId) == RemoveById(events, eventId)
    decreases |events|
  {
    if events != [] {
      var u := UpdateById(events, eventId, d);
      assert u[1..] == UpdateById(events[1..], eventId, d);
      assert u[0].id == events[0].id;
      RemoveAfterUpdate(events[1..], eventId, d);
    }
  }

  /** An update keeps every row's id, so a second identical update changes nothing. */
  lemma UpdateByIdIdempotent(events: seq<EventRow>, eventId: string, d: EventData)
    ensures forall i :: 0 <= i < |events| ==> UpdateById(events, eventId, d)[i].id == events[i].id
    ensures UpdateById(UpdateById(events, eventId, d), eventId, d) == UpdateById(events, eventId, d)
  {
  }

  /** An update for an id no row carries leaves the list as it was. */
  lemma UpdateUnknownId(events: seq<EventRow>, eventId: string, d: EventData)
    requires forall i :: 0 <= i < |events| ==> events[i].id != eventId
    ensures UpdateById(events, eventId, d) == events
  {
  }
}
