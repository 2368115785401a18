/**
 * The data store as the edge functions see it: the `projects`, `events` and
 * `event_logs` tables, and the semantics of the few query-builder calls they make
 * (`.eq(...).single()`, `.eq(...)` filters, `.update(...).eq(...)`, `.insert(...)`).
 */
module Database {
  import opened Json
  import opened Rows

  class Store {
    var projects: seq<ProjectRow>
    var events: seq<EventRow>
    var logs: seq<LogEntry>

    constructor (projects: seq<ProjectRow>, events: seq<EventRow>, logs: seq<LogEntry>)
      ensures this.projects == projects && this.events == events && this.logs == logs
    {
      this.projects := projects;
      this.events := events;
      this.logs := logs;
    }

    /** `.from("event_logs").insert(entry)`: appends one row and touches no other table. */
    method InsertLog(entry: LogEntry)
      modifies this
      ensures logs == old(logs) + [entry]
      ensures projects == old(projects) && events == old(events)
    {
      logs := logs + [entry];
    }

    /** `.from("projects").update({webhook_id, webhook_url}).eq("repository", repo)`. */
    method UpdateWebhookWhereRepository(repo: string, webhookId: string, url: string)
      modifies this
      ensures projects == SetWebhookWhere(old(projects), repo, webhookId, url)
      ensures events == old(events) && logs == old(logs)
    {
      projects := SetWebhookWhere(projects, repo, webhookId, url);
    }
  }

  /**
   * The projects table after the registrar's update: every row whose repository
   * equals `repo` gets both webhook columns; every other row, and every other
   * column, stays as it was; the order of rows is kept.
   */
  function SetWebhookWhere(ps: seq<ProjectRow>, repo: string, webhookId: string, url: string): (r: seq<ProjectRow>)
    ensures |r| == |ps|
    ensures forall i :: 0 <= i < |ps| && ps[i].repository == repo ==>
      r[i] == ps[i].(webhook_id := Some(webhookId), webhook_url := Some(url))
    ensures forall i :: 0 <= i < |ps| && ps[i].repository != repo ==> r[i] == ps[i]
    decreases |ps|
  {
    if ps == [] then []
    else
      var head := if ps[0].repository == repo
        then ps[0].(webhook_id := Some(webhookId), webhook_url := Some(url))
        else ps[0];
      [head] + SetWebhookWhere(ps[1..], repo, webhookId, url)
  }

  /** The update keeps the "both set or both null" pairing of the webhook columns. */
  lemma SetWebhookKeepsPairing(ps: seq<ProjectRow>, repo: string, webhookId: string, url: string)
    requires forall i :: 0 <= i < |ps| ==> WebhookPaired(ps[i])
    ensures forall i :: 0 <= i < |ps| ==> WebhookPaired(SetWebhookWhere(ps, repo, webhookId, url)[i])
  {
  }

  /** Repeating the same update changes nothing further. */
  lemma SetWebhookIdempotent(ps: seq<ProjectRow>, repo: string, webhookId: string, url: string)
    ensures SetWebhookWhere(SetWebhookWhere(ps, repo, webhookId, url), repo, webhookId, url)
         == SetWebhookWhere(ps, repo, webhookId, url)
  {
  }

  /**
   * The rows selected by `.eq("webhook_url", url)`, in table order: each row with
   * that URL as many times as the table holds it, and no other row.
   */
  function ProjectsWithUrl(ps: seq<ProjectRow>, url: string): (r: seq<ProjectRow>)
    ensures |r| <= |ps|
    ensures forall p :: p in r <==> p in ps && p.webhook_url == Some(url)
    ensures forall p :: multiset(r)[p] == if p.webhook_url == Some(url) then multiset(ps)[p] else 0
    decreases |ps|
  {
    if ps == [] then []
    else
      assert ps == [ps[0]] + ps[1..];
      var rest := ProjectsWithUrl(ps[1..], url);
      assert forall p :: p in ps <==> p == ps[0] || p in ps[1..];
      if ps[0].webhook_url == Some(url) then [ps[0]] + rest else rest
  }

  /**
   * `.eq("webhook_url", url).single()`: a project only when exactly one row
   * carries that URL; zero rows or several rows are both an error.
   */
  function FindProject(ps: seq<ProjectRow>, url: string): (r: Option<ProjectRow>)
    ensures r.Some? ==> r.value in ps && r.value.webhook_url == Some(url)
    ensures r.None? <==> |ProjectsWithUrl(ps, url)| != 1
  {
    var rows := ProjectsWithUrl(ps, url);
    if |rows| == 1 then assert rows[0] in rows; Some(rows[0]) else None
  }
}
