/**
 * The state transitions of the project page (src/pages/ProjectDetail.tsx): loading
 * the project, deleting it, setting up its webhook, and adding, updating and
 * deleting its triggers.  Each store or API call is recorded in `requests`; its
 * answer is a parameter of the handler.
 */
module ProjectDetailPage {
  import opened Json
  import opened Rows
  import opened Ui
  import opened TriggerList

  /** The record handed to `createEvent`: the form data plus the project id. */
  datatype EventInsert = EventInsert(project_id: string, event_type: string, code_file_path: string, description: Option<string>)

  /** The calls the page makes to the store and to the webhook API. */
  datatype Request =
    | GetProject(id: string)
    | DeleteProject(id: string)
    | SetupWebhook(repository: string, events: seq<string>)
    | CreateEvent(record: EventInsert)
    | UpdateEvent(id: string, data: EventData)
    | DeleteEvent(id: string)

  /** `getProject(id)`: an error, no row, or the row with its joined trigger rows (possibly absent). */
  datatype FetchReply = FetchError | NoProject | Loaded(row: ProjectRow, events: Option<seq<EventRow>>)

  /** A store call that answers only with an error or without one. */
  datatype Ack = Done | Errored

  /** `createEvent(...)`: the inserted row, or an error. */
  datatype CreateReply = Created(row: EventRow) | CreateErrored

  /** The re-read after a webhook setup: an error, or the (possibly null) project row. */
  datatype RefetchReply = RefetchError | Refetched(data: Option<ProjectRow>)

  /** The raw events every webhook set up from this page subscribes to (lines 82-87). */
  const WebhookEventKinds: seq<string> := ["pull_request", "push", "create", "delete"]

  /** `{ ...eventData, project_id: id }`. */
  function InsertFor(projectId: string, d: EventData): EventInsert {
    EventInsert(projectId, d.event_type, d.code_file_path, d.description)
  }

  class ProjectDetailView {
    /** The `id` route parameter. */
    const id: Option<string>
    var project: Option<ProjectRow>
    var events: seq<EventRow>
    var loading: bool
    var showEventForm: bool
    var editingEvent: Option<EventRow>
    var setupWebhookLoading: bool
    var location: Option<string>
    var requests: seq<Request>
    var notices: seq<Notice>

    /** `!id` is false: the route carries a non-empty id. */
    predicate HasId() {
      id.Some? && id.value != ""
    }

    constructor (id: Option<string>)
      ensures this.id == id && project.None? && events == [] && loading
      ensures !showEventForm && editingEvent.None? && !setupWebhookLoading
      ensures location.None? && requests == [] && notices == []
    {
      this.id := id;
      project := None;
      events := [];
      loading := true;
      showEventForm := false;
      editingEvent := None;
      setupWebhookLoading := false;
      location := None;
      requests := [];
      notices := [];
    }

    /**
     * `fetchProject` (lines 24-53): nothing without a (non-empty) id; otherwise the project and
     * its trigger rows (or none) are taken over, or the page navigates back to the
     * project list when there is no such project.
     */
    method FetchProject(reply: FetchReply)
      modifies this
      ensures showEventForm == old(showEventForm) && editingEvent == old(editingEvent)
      ensures setupWebhookLoading == old(setupWebhookLoading)
      ensures !HasId() ==>
        && project == old(project) && events == old(events) && loading == old(loading)
        && location == old(location) && requests == old(requests) && notices == old(notices)
      ensures HasId() ==>
        && requests == old(requests) + [GetProject(id.value)]
        && !loading
        && (reply.FetchError? ==>
              && notices == old(notices) + [Failure("Failed to load project")]
              && project == old(project) && events == old(events) && location == old(location))
        && (reply.NoProject? ==>
              && notices == old(notices) + [Failure("Project not found")]
              && location == Some(ProjectsRoute)
              && project == old(project) && events == old(events))
        && (reply.Loaded? ==>
              && project == Some(reply.row)
              && events == (if reply.events.Some? then reply.events.value else [])
              && notices == old(notices) && location == old(location))
    {
      if !HasId() {
        return;
      }
      loading := true;
      requests := requests + [GetProject(id.value)];
      match reply {
        case FetchError =>
          notices := notices + [Failure("Failed to load project")];
        case NoProject =>
          notices := notices + [Failure("Project not found")];
          location := Some(ProjectsRoute);
        case Loaded(row, rows) =>
          project := Some(row);
          events := if rows.Some? then rows.value else [];
      }
      loading := false;
    }

    /**
     * `handleDeleteProject` (lines 55-75): a no-op without an id or a project, or
     * when the user declines; navigates to the project list once the store deleted it.
     */
    method DeleteProjectClicked(confirmed: bool, reply: Ack)
      modifies this
      ensures project == old(project) && events == old(events) && loading == old(loading)
      ensures showEventForm == old(showEventForm) && editingEvent == old(editingEvent)
      ensures setupWebhookLoading == old(setupWebhookLoading)
      ensures !HasId() || project.None? || !confirmed ==>
        location == old(location) && requests == old(requests) && notices == old(notices)
      ensures HasId() && project.Some? && confirmed ==>
        && requests == old(requests) + [DeleteProject(id.value)]
        && (reply.Done? ==>
              notices == old(notices) + [Success("Project deleted successfully")] && location == Some(ProjectsRoute))
        && (reply.Errored? ==>
              notices == old(notices) + [Failure("Failed to delete project")] && location == old(location))
    {
      if !HasId() || project.None? || !confirmed {
        return;
      }
      requests := requests + [DeleteProject(id.value)];
      if reply.Done? {
        notices := notices + [Success("Project deleted successfully")];
        location := Some(ProjectsRoute);
      } else {
        notices := notices + [Failure("Failed to delete project")];
      }
    }

    /**
     * `handleSetupWebhook` (lines 77-105): asks for the four raw event kinds on the
     * project's repository, then re-reads the project; `setupWebhookLoading` is
     * cleared on every path that set it.
     */
    method SetupWebhookClicked(setup: Ack, refetch: RefetchReply)
      modifies this
      ensures events == old(events) && loading == old(loading) && location == old(location)
      ensures showEventForm == old(showEventForm) && editingEvent == old(editingEvent)
      ensures !HasId() || old(project).None? ==>
        && project == old(project) && setupWebhookLoading == old(setupWebhookLoading)
        && requests == old(requests) && notices == old(notices)
      ensures HasId() && old(project).Some? ==>
        && !setupWebhookLoading
        && |requests| > |old(requests)|
        && requests[..|old(requests)| + 1]
             == old(requests) + [SetupWebhook(old(project).value.repository, WebhookEventKinds)]
        && (setup.Errored? ==>
              && requests == old(requests) + [SetupWebhook(old(project).value.repository, WebhookEventKinds)]
              && project == old(project) && notices == old(notices) + [Failure("Failed to set up GitHub webhook")])
        && (setup.Done? ==>
              requests == old(requests)
                + [SetupWebhook(old(project).value.repository, WebhookEventKinds), GetProject(id.value)])
        && (setup.Done? && refetch.RefetchError? ==>
              project == old(project) && notices == old(notices) + [Failure("Failed to set up GitHub webhook")])
        && (setup.Done? && refetch.Refetched? ==>
              && project == refetch.data
              && notices == old(notices) + [Success("GitHub webhook configured successfully")])
    {
      if !HasId() || project.None? {
        return;
      }
      setupWebhookLoading := true;
      requests := requests + [SetupWebhook(project.value.repository, WebhookEventKinds)];
      if setup.Errored? {
        notices := notices + [Failure("Failed to set up GitHub webhook")];
      } else {
        requests := requests + [GetProject(id.value)];
        match refetch {
          case RefetchError =>
            notices := notices + [Failure("Failed to set up GitHub webhook")];
          case Refetched(data) =>
            project := data;
            notices := notices + [Success("GitHub webhook configured successfully")];
        }
      }
      setupWebhookLoading := false;
    }

    /**
     * `handleAddEvent` (lines 107-131): a no-op without an id or a project; the
     * created row is appended at the end and the form closes; on an error the list
     * is left as it was.
     */
    method AddEvent(d: EventData, reply: CreateReply)
      modifies this
      ensures project == old(project) && loading == old(loading) && location == old(location)
      ensures editingEvent == old(editingEvent) && setupWebhookLoading == old(setupWebhookLoading)
      ensures !HasId() || project.None? ==>
        && events == old(events) && showEventForm == old(showEventForm)
        && requests == old(requests) && notices == old(notices)
      ensures HasId() && project.Some? ==>
        && requests == old(requests) + [CreateEvent(InsertFor(id.value, d))]
        && (reply.Created? ==>
              && events == old(events) + [reply.row] && !showEventForm
              && notices == old(notices) + [Success("Event trigger created successfully")])
        && (reply.CreateErrored? ==>
              && events == old(events) && showEventForm == old(showEventForm)
              && notices == old(notices) + [Failure("Failed to create event trigger")])
    {
      if !HasId() || project.None? {
        return;
      }
      requests := requests + [CreateEvent(InsertFor(id.value, d))];
      match reply {
        case Created(row) =>
          events := events + [row];
          showEventForm := false;
          notices := notices + [Success("Event trigger created successfully")];
        case CreateErrored =>
          notices := notices + [Failure("Failed to create event trigger")];
      }
    }

    /**
     * `handleUpdateEvent` (lines 133-159): on success the rows with that id take the
     * form's fields and the form closes; on an error the list is left as it was.
     */
    method UpdateEventSubmitted(eventId: string, d: EventData, reply: Ack)
      modifies this
      ensures project == old(project) && loading == old(loading) && location == old(location)
      ensures setupWebhookLoading == old(setupWebhookLoading)
      ensures requests == old(requests) + [UpdateEvent(eventId, d)]
      ensures reply.Done? ==>
        && events == UpdateById(old(events), eventId, d)
        && editingEvent.None? && !showEventForm
        && notices == old(notices) + [Success("Event trigger updated successfully")]
      ensures reply.Errored? ==>
        && events == old(events) && editingEvent == old(editingEvent) && showEventForm == old(showEventForm)
        && notices == old(notices) + [Failure("Failed to update event trigger")]
    {
      requests := requests + [UpdateEvent(eventId, d)];
      if reply.Done? {
        events := UpdateById(events, eventId, d);
        editingEvent := None;
        showEventForm := false;
        notices := notices + [Success("Event trigger updated successfully")];
      } else {
        notices := notices + [Failure("Failed to update event trigger")];
      }
    }

    /**
     * `handleDeleteEvent` (lines 161-179): nothing when the user declines; on
     * success the rows with that id leave the list, the others keep their order;
     * on an error the list is left as it was.
     */
    method DeleteEventClicked(eventId: string, confirmed: bool, reply: Ack)
      modifies this
      ensures project == old(project) && loading == old(loading) && location == old(location)
      ensures showEventForm == old(showEventForm) && editingEvent == old(editingEvent)
      ensures setupWebhookLoading == old(setupWebhookLoading)
      ensures !confirmed ==> events == old(events) && requests == old(requests) && notices == old(notices)
      ensures confirmed ==>
        && requests == old(requests) + [DeleteEvent(eventId)]
        && (reply.Done? ==>
              events == RemoveById(old(events), eventId)
              && notices == old(notices) + [Success("Event trigger deleted successfully")])
        && (reply.Errored? ==>
              events == old(events) && notices == old(notices) + [Failure("Failed to delete event trigger")])
    {
      if !confirmed {
        return;
      }
      requests := requests + [DeleteEvent(eventId)];
      if reply.Done? {
        events := RemoveById(events, eventId);
        notices := notices + [Success("Event trigger deleted successfully")];
      } else {
        notices := notices + [Failure("Failed to delete event trigger")];
      }
    }
  }
}
