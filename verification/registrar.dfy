/**
 * The webhook registrar (supabase/functions/create-webhook/index.ts): preflight,
 * input validation, the inbound URL built from a fresh id, the token check, the
 * GitHub hook creation and the update of every project row of the repository.
 *
 * `crypto.randomUUID()` is the parameter `randomId`; GitHub's answer and the
 * outcome of the projects update are given as parameters too.
 */
module Registrar {
  import opened Json
  import opened Http
  import opened Rows
  import opened Database
  import opened Text
  import RepositoryName

  datatype RegistrationRequest = RegistrationRequest(httpMethod: string, body: RequestBody)

  /**
   * GitHub's answer: `fetch` or `.json()` raised with a message, or the response's
   * `ok` flag with its parsed body.
   */
  datatype GitHubReply = Unreachable(message: string) | Answered(ok: bool, data: Json)

  /** The hook-creation request sent to GitHub (index.ts:54-75). */
  datatype HookCall = HookCall(owner: string, repoName: string, events: seq<Json>, url: string)

  const InvalidParamsMessage: string := "Invalid request parameters"
  const MissingTokenMessage: string := "GitHub token not configured"
  const GitHubFailurePrefix: string := "Failed to create GitHub webhook: "
  const RegistrarFallbackMessage: string := "Failed to create webhook"

  /** The endpoint of a hook call: `https://api.github.com/repos/${owner}/${repoName}/hooks`. */
  function HookEndpoint(call: HookCall): string {
    "https://api.github.com/repos/" + call.owner + "/" + call.repoName + "/hooks"
  }

  /** Every answer after the preflight: the CORS headers plus the JSON content type. */
  function CorsReply(status: int, body: Body): Response {
    Response(status, CorsHeaders + [JsonContentType], body)
  }

  const Preflight: Response := Response(204, CorsHeaders, NoBody)

  predicate IsPreflight(req: RegistrationRequest) {
    req.httpMethod == "OPTIONS"
  }

  /** `!repo || !events || !Array.isArray(events)` is false for the destructured body. */
  predicate ValidParams(v: Json) {
    TruthyMember(Member(v, "repo")) && Member(v, "events").Some? && Member(v, "events").value.JArray?
  }

  predicate HasToken(env: Env) {
    env.githubToken.Some? && env.githubToken.value != ""
  }

  /** The request gets past validation: a parsed, non-null body with valid parameters. */
  predicate Validated(req: RegistrationRequest) {
    !IsPreflight(req) && req.body.Parsed? && !req.body.value.JNull? && ValidParams(req.body.value)
  }

  /** The request reaches the GitHub call: the data-store client was created, a token is configured and `repo` is a string. */
  predicate ReachesGitHub(env: Env, req: RegistrationRequest) {
    Validated(req) && ClientError(env).None? && HasToken(env) && Member(req.body.value, "repo").value.JString?
  }

  /** `const [owner, repoName] = repo.split("/")`: a missing second piece renders as "undefined". */
  function OwnerAndName(repo: string): (r: (string, string))
    ensures r.0 == Split(repo, '/')[0]
    ensures '/' !in r.0
    ensures '/' in repo ==> r.1 == Split(repo, '/')[1]
    ensures '/' !in repo ==> r.0 == repo && r.1 == "undefined"
  {
    var parts := Split(repo, '/');
    (parts[0], if |parts| > 1 then parts[1] else "undefined")
  }

  function PlannedCall(env: Env, req: RegistrationRequest, randomId: string): (call: HookCall)
    requires ReachesGitHub(env, req)
    ensures call.url == WebhookUrl(env, randomId)
    ensures call.events == Member(req.body.value, "events").value.items
  {
    var repo := Member(req.body.value, "repo").value.s;
    var (owner, repoName) := OwnerAndName(repo);
    HookCall(owner, repoName, Member(req.body.value, "events").value.items, WebhookUrl(env, randomId))
  }

  /**
   * `webhookData.id.toString()` for a successful answer, or None when that raises:
   * the id is absent or null, or an object with its own `toString` member (or an
   * array holding one).  A numeric id is stored as its decimal digits.
   */
  function HookId(data: Json): (r: Option<string>)
    ensures r.Some? <==>
      data.JObject? && "id" in data.fields && !data.fields["id"].JNull? && Renderable(data.fields["id"])
    ensures r.Some? && data.fields["id"].JString? ==> r.value == data.fields["id"].s
    ensures r.Some? && data.fields["id"].JNumber? && data.fields["id"].n >= 0 ==>
      (forall i :: 0 <= i < |r.value| ==> '0' <= r.value[i] <= '9') && DigitsValue(r.value) == data.fields["id"].n
  {
    var id := Member(data, "id");
    if id.Some? && !id.value.JNull? && Renderable(id.value) then Some(AsString(id.value)) else None
  }

  /**
   * The message of the exception a non-ok answer raises: "Failed to create GitHub
   * webhook: " followed by `${webhookData.message}`, or the TypeError of reading
   * `message` from null or of rendering a message object with its own `toString`.
   */
  function RefusalMessage(data: Json): (m: string)
    ensures !data.JNull? && MemberRenderable(Member(data, "message")) ==> GitHubFailurePrefix <= m
    ensures forall s :: Member(data, "message") == Some(JString(s)) ==> m == GitHubFailurePrefix + s
    ensures !data.JNull? && Member(data, "message").None? ==> m == GitHubFailurePrefix + "undefined"
    ensures data.JNull? || !MemberRenderable(Member(data, "message")) ==> m == EngineTypeError
  {
    if data.JNull? || !MemberRenderable(Member(data, "message")) then EngineTypeError
    else GitHubFailurePrefix + MemberText(Member(data, "message"))
  }

  /**
   * The registrar.  The projects table changes only on a 200, and then exactly in
   * the rows of the requested repository; the events and log tables never change;
   * GitHub is called only once the request is valid, the data-store client was
   * created and a token is configured.
   */
  method Register(db: Store, env: Env, req: RegistrationRequest, randomId: string,
                  github: GitHubReply, updateError: Option<string>)
    returns (resp: Response, call: Option<HookCall>)
    modifies db
    ensures db.events == old(db.events) && db.logs == old(db.logs)
    ensures resp.status != 200 ==> db.projects == old(db.projects)
    ensures !IsPreflight(req) ==> resp.headers == CorsHeaders + [JsonContentType]
    ensures IsPreflight(req) ==> resp == Preflight && call.None?
    ensures !IsPreflight(req) && req.body.Malformed? ==>
      resp == CorsReply(500, ErrorBody(ErrorText(req.body.message, RegistrarFallbackMessage))) && call.None?
    ensures !IsPreflight(req) && req.body == Parsed(JNull) ==>
      resp == CorsReply(500, ErrorBody(EngineTypeError)) && call.None?
    ensures !IsPreflight(req) && req.body.Parsed? && !req.body.value.JNull? && !ValidParams(req.body.value) ==>
      resp == CorsReply(400, ErrorBody(InvalidParamsMessage)) && call.None?
    ensures Validated(req) && ClientError(env).Some? ==>
      resp == CorsReply(500, ErrorBody(ClientError(env).value)) && call.None?
    ensures Validated(req) && ClientError(env).None? && !HasToken(env) ==>
      resp == CorsReply(500, ErrorBody(MissingTokenMessage)) && call.None?
    ensures Validated(req) && ClientError(env).None? && HasToken(env) && !ReachesGitHub(env, req) ==>
      resp == CorsReply(500, ErrorBody(EngineTypeError)) && call.None?
    ensures call.Some? <==> ReachesGitHub(env, req)
    ensures ReachesGitHub(env, req) ==>
      && call == Some(PlannedCall(env, req, randomId))
      && (github.Unreachable? ==>
            resp == CorsReply(500, ErrorBody(ErrorText(github.message, RegistrarFallbackMessage))))
      && (github.Answered? && !github.ok ==>
            resp == CorsReply(500, ErrorBody(ErrorText(RefusalMessage(github.data), RegistrarFallbackMessage))))
      && (github.Answered? && github.ok && HookId(github.data).None? ==>
            resp == CorsReply(500, ErrorBody(EngineTypeError)))
      && (github.Answered? && github.ok && HookId(github.data).Some? && updateError.Some? ==>
            resp == CorsReply(500, ErrorBody(ErrorText(updateError.value, RegistrarFallbackMessage))))
      && (github.Answered? && github.ok && HookId(github.data).Some? && updateError.None? ==>
            && db.projects == SetWebhookWhere(old(db.projects), Member(req.body.value, "repo").value.s,
                                              HookId(github.data).value, WebhookUrl(env, randomId))
            && resp == CorsReply(200, RegisteredBody(true, github.data.fields["id"], WebhookUrl(env, randomId))))
  {
    call := None;
    if IsPreflight(req) {
      return Preflight, None;
    }

    if req.body.Malformed? {
      return CorsReply(500, ErrorBody(ErrorText(req.body.message, RegistrarFallbackMessage))), None;
    }
    var body := req.body.value;
    if body.JNull? {
      // Destructuring `{ repo, events }` out of null raises.
      return CorsReply(500, ErrorBody(EngineTypeError)), None;
    }

    if !ValidParams(body) {
      return CorsReply(400, ErrorBody(InvalidParamsMessage)), None;
    }
    var repo := Member(body, "repo").value;
    var events := Member(body, "events").value.items;

    var clientError := ClientError(env);
    if clientError.Some? {
      // `createClient` raises; the outer catch answers with its message.
      return CorsReply(500, ErrorBody(ErrorText(clientError.value, RegistrarFallbackMessage))), None;
    }

    var webhookUrl := WebhookUrl(env, randomId);

    if !HasToken(env) {
      return CorsReply(500, ErrorBody(MissingTokenMessage)), None;
    }

    if !repo.JString? {
      // Only strings have a `split` method.
      return CorsReply(500, ErrorBody(EngineTypeError)), None;
    }
    var (owner, repoName) := OwnerAndName(repo.s);
    call := Some(HookCall(owner, repoName, events, webhookUrl));

    if github.Unreachable? {
      return CorsReply(500, ErrorBody(ErrorText(github.message, RegistrarFallbackMessage))), call;
    }
    var data := github.data;
    if !github.ok {
      return CorsReply(500, ErrorBody(ErrorText(RefusalMessage(data), RegistrarFallbackMessage))), call;
    }

    var webhookId := HookId(data);
    if webhookId.None? {
      return CorsReply(500, ErrorBody(EngineTypeError)), call;
    }

    if updateError.Some? {
      return CorsReply(500, ErrorBody(ErrorText(updateError.value, RegistrarFallbackMessage))), call;
    }
    db.UpdateWebhookWhereRepository(repo.s, webhookId.value, webhookUrl);

    resp := CorsReply(200, RegisteredBody(true, data.fields["id"], webhookUrl));
  }

  // ----- Properties across the two edge functions -----

  /** The rows of the table whose repository is `repo`, in table order. */
  function RowsOfRepository(ps: seq<ProjectRow>, repo: string): (r: seq<ProjectRow>)
    ensures forall p :: p in r <==> p in ps && p.repository == repo
    ensures forall p :: multiset(r)[p] == if p.repository == repo then multiset(ps)[p] else 0
    decreases |ps|
  {
    if ps == [] then []
    else
      assert ps == [ps[0]] + ps[1..];
      var rest := RowsOfRepository(ps[1..], repo);
      assert forall p :: p in ps <==> p == ps[0] || p in ps[1..];
      if ps[0].repository == repo then [ps[0]] + rest else rest
  }

  /**
   * When no row carried the new URL before, the rows carrying it after the update
   * are exactly the repository's rows, updated.
   */
  lemma {:induction false} RowsWithNewUrl(ps: seq<ProjectRow>, repo: string, webhookId: string, url: string)
    requires forall i :: 0 <= i < |ps| ==> ps[i].webhook_url != Some(url)
    ensures ProjectsWithUrl(SetWebhookWhere(ps, repo, webhookId, url), url)
         == SetWebhookWhere(RowsOfRepository(ps, repo), repo, webhookId, url)
    decreases |ps|
  {
    if ps != [] {
      var after := SetWebhookWhere(ps, repo, webhookId, url);
      assert after[1..] == SetWebhookWhere(ps[1..], repo, webhookId, url);
      RowsWithNewUrl(ps[1..], repo, webhookId, url);
    }
  }

  /**
   * The round trip between the two edge functions: after a successful
   * registration with a fresh id for a repository held by exactly one project,
   * the inbound handler's lookup for that id finds that project, now carrying the
   * new webhook id and URL.
   */
  lemma RegisteredProjectIsFound(ps: seq<ProjectRow>, env: Env, repo: string, webhookId: string, randomId: string)
    requires forall i :: 0 <= i < |ps| ==> ps[i].webhook_url != Some(WebhookUrl(env, randomId))
    requires |RowsOfRepository(ps, repo)| == 1
    ensures var url := WebhookUrl(env, randomId);
      FindProject(SetWebhookWhere(ps, repo, webhookId, url), url)
        == Some(RowsOfRepository(ps, repo)[0].(webhook_id := Some(webhookId), webhook_url := Some(url)))
  {
    RowsWithNewUrl(ps, repo, webhookId, WebhookUrl(env, randomId));
  }

  /**
   * The lookup by URL is fragile: when two projects share the repository, both get
   * the same URL and the inbound handler finds neither (its `.single()` fails).
   */
  lemma SharedRepositoryIsNotFound(ps: seq<ProjectRow>, env: Env, repo: string, webhookId: string, randomId: string,
                                    i: nat, j: nat)
    requires forall k :: 0 <= k < |ps| ==> ps[k].webhook_url != Some(WebhookUrl(env, randomId))
    requires i < j < |ps| && ps[i].repository == repo && ps[j].repository == repo
    ensures var url := WebhookUrl(env, randomId);
      FindProject(SetWebhookWhere(ps, repo, webhookId, url), url).None?
  {
    TwoRowsOfRepository(ps, repo, i, j);
    RowsWithNewUrl(ps, repo, webhookId, WebhookUrl(env, randomId));
  }

  /** Two positions holding the repository make at least two rows of it. */
  lemma {:induction false} TwoRowsOfRepository(ps: seq<ProjectRow>, repo: string, i: nat, j: nat)
    requires i < j < |ps| && ps[i].repository == repo && ps[j].repository == repo
    ensures |RowsOfRepository(ps, repo)| >= 2
    decreases i
  {
    if i == 0 {
      OneRowOfRepository(ps[1..], repo, j - 1);
    } else {
      TwoRowsOfRepository(ps[1..], repo, i - 1, j - 1);
    }
  }

  /** A position holding the repository makes at least one row of it. */
  lemma OneRowOfRepository(ps: seq<ProjectRow>, repo: string, j: nat)
    requires j < |ps| && ps[j].repository == repo
    ensures |RowsOfRepository(ps, repo)| >= 1
  {
    assert ps[j] in RowsOfRepository(ps, repo);
  }

  /**
   * For a repository the project form accepts, the hook call targets exactly its
   * owner and name: the endpoint is the repository path itself.
   */
  lemma HookTargetsFormRepository(repo: string)
    requires RepositoryName.MatchesPattern(repo)
    ensures var (owner, repoName) := OwnerAndName(repo);
      && owner + "/" + repoName == repo
      && owner != "" && repoName != "" && '/' !in repoName
      && HookEndpoint(HookCall(owner, repoName, [], "")) == "https://api.github.com/repos/" + repo + "/hooks"
  {
    RepositoryName.AcceptedSplitsInTwo(repo);
  }

  /**
   * The registrar itself does not check the owner/name shape: a repository without
   * '/' still reaches GitHub, with "undefined" as the repository name.
   */
  lemma RepositoryWithoutSlashReachesGitHub(env: Env, req: RegistrationRequest, randomId: string)
    requires ReachesGitHub(env, req)
    requires '/' !in Member(req.body.value, "repo").value.s
    ensures PlannedCall(env, req, randomId).owner == Member(req.body.value, "repo").value.s
    ensures PlannedCall(env, req, randomId).repoName == "undefined"
  {
  }
}
