/**
 * The rows of the three tables (src/types/supabase.ts:12-98), the environment the
 * edge functions read, and the per-registration inbound URL that links them.
 */
module Rows {
  import opened Json

  datatype ProjectRow = ProjectRow(
    id: string,
    created_at: string,
    name: string,
    repository: string,
    description: Option<string>,
    user_id: string,
    webhook_id: Option<string>,
    webhook_url: Option<string>)

  datatype EventRow = EventRow(
    id: string,
    created_at: string,
    project_id: string,
    event_type: string,
    code_file_path: string,
    description: Option<string>,
    is_active: bool)

  /**
   * An `event_logs` row as the handler inserts it; `id` and `created_at` are
   * filled in by the data store and are not part of the model.
   */
  datatype LogEntry = LogEntry(
    event_id: string,
    payload: Json,
    status: string,
    error_message: Option<string>)

  const StatusSuccess: string := "success"
  const StatusError: string := "error"

  /** The environment variables the edge functions read through `Deno.env.get`. */
  datatype Env = Env(supabaseUrl: Option<string>, serviceRoleKey: Option<string>, githubToken: Option<string>)

  /**
   * The messages with which the data-store client's constructor refuses an empty
   * URL or key; both handlers pass `Deno.env.get(...) ?? ""`, so an unset variable
   * arrives as the empty string.
   */
  const MissingUrlMessage: string := "supabaseUrl is required."
  const MissingKeyMessage: string := "supabaseKey is required."

  /**
   * `createClient(Deno.env.get("SUPABASE_URL") ?? "", Deno.env.get("SUPABASE_SERVICE_ROLE_KEY") ?? "")`
   * (supabase/functions/github-webhook/index.ts:35-38,
   * supabase/functions/create-webhook/index.ts:34-37): the error it raises, the URL
   * being checked before the key, or None when the client is created.
   */
  function ClientError(env: Env): (e: Option<string>)
    ensures e.None? <==>
      env.supabaseUrl.Some? && env.supabaseUrl.value != "" && env.serviceRoleKey.Some? && env.serviceRoleKey.value != ""
    ensures e.Some? && (env.supabaseUrl.None? || env.supabaseUrl.value == "") ==> e.value == MissingUrlMessage
    ensures e.Some? && env.supabaseUrl.Some? && env.supabaseUrl.value != "" ==> e.value == MissingKeyMessage
    ensures e.Some? ==> e.value != ""
  {
    if env.supabaseUrl.None? || env.supabaseUrl.value == "" then Some(MissingUrlMessage)
    else if env.serviceRoleKey.None? || env.serviceRoleKey.value == "" then Some(MissingKeyMessage)
    else None
  }

  /** `${Deno.env.get("SUPABASE_URL")}`: an unset variable renders as "undefined". */
  function BaseUrl(env: Env): string {
    if env.supabaseUrl.Some? then env.supabaseUrl.value else "undefined"
  }

  /** Once the client exists, the URL variable is set, so the base URL is its value and never "undefined". */
  lemma ConfiguredBaseUrl(env: Env)
    requires ClientError(env).None?
    ensures BaseUrl(env) == env.supabaseUrl.value && BaseUrl(env) != ""
  {
  }

  const InboundPath: string := "/functions/v1/github-webhook?id="

  /**
   * The inbound URL of one registration: built by the registrar
   * (supabase/functions/create-webhook/index.ts:41) and rebuilt by the inbound
   * handler for its lookup (supabase/functions/github-webhook/index.ts:44).
   */
  function WebhookUrl(env: Env, id: string): (url: string)
    ensures |url| == |BaseUrl(env)| + |InboundPath| + |id|
    ensures url[|url| - |id|..] == id
  {
    BaseUrl(env) + InboundPath + id
  }

  /** Under one environment, distinct registration ids give distinct URLs. */
  lemma WebhookUrlInjective(env: Env, a: string, b: string)
    requires WebhookUrl(env, a) == WebhookUrl(env, b)
    ensures a == b
  {
  }

  /** webhook_id and webhook_url are both set or both null. */
  predicate WebhookPaired(p: ProjectRow) {
    p.webhook_id.Some? <==> p.webhook_url.Some?
  }
}
