/**
 * The event-type normaliser of the inbound handler
 * (supabase/functions/github-webhook/index.ts:59-68): from the raw
 * `X-GitHub-Event` header and the delivery payload to the canonical type that
 * trigger rows store in `event_type`.
 */
module Normalize {
  import opened Json

  /** The trigger types the dashboard offers (src/components/EventForm.tsx:16-23). */
  const SelectableEventTypes: seq<string> := [
    "pull_request.opened",
    "pull_request.closed",
    "pull_request.merged",
    "push",
    "create.branch",
    "delete.branch"
  ]

  /** The raw categories the normaliser refines with a suffix. */
  predicate Refined(githubEvent: string) {
    githubEvent == "pull_request" || githubEvent == "create" || githubEvent == "delete"
  }

  /**
   * The canonical event type, or None when rendering the member read raises a
   * TypeError (the outer catch then answers).  The raw category is always a
   * prefix of the canonical type, and only "pull_request", "create" and "delete"
   * are ever changed or can raise.
   */
  function CanonicalEventType(githubEvent: string, payload: Json): (eventType: Option<string>)
    ensures eventType.Some? ==> githubEvent <= eventType.value
    ensures eventType != Some(githubEvent) ==> Refined(githubEvent)
    ensures githubEvent == "pull_request" ==> eventType != Some(githubEvent)
  {
    if githubEvent == "pull_request" then
      var action := Member(payload, "action");
      if MemberRenderable(action) then Some("pull_request." + MemberText(action)) else None
    else if githubEvent == "create" && TruthyMember(Member(payload, "ref_type")) then
      var refType := Member(payload, "ref_type");
      if MemberRenderable(refType) then Some("create." + MemberText(refType)) else None
    else if githubEvent == "delete" && TruthyMember(Member(payload, "ref_type")) then
      var refType := Member(payload, "ref_type");
      if MemberRenderable(refType) then Some("delete." + MemberText(refType)) else None
    else
      Some(githubEvent)
  }

  /**
   * The normaliser raises exactly when the member it renders is an object with its
   * own `toString` member, or an array holding one: the `action` of a pull request,
   * or the truthy `ref_type` of a create or delete.
   */
  lemma UnrenderableMemberRaises(githubEvent: string, payload: Json)
    ensures CanonicalEventType(githubEvent, payload).None? <==>
      || (githubEvent == "pull_request" && !MemberRenderable(Member(payload, "action")))
      || ((githubEvent == "create" || githubEvent == "delete")
          && TruthyMember(Member(payload, "ref_type")) && !MemberRenderable(Member(payload, "ref_type")))
  {
  }

  /** For instance, `{"action": {"toString": 1}}` makes a pull request delivery raise. */
  lemma ActionWithOwnToStringRaises(payload: Json)
    requires payload == JObject(map["action" := JObject(map["toString" := JNumber(1)])])
    ensures CanonicalEventType("pull_request", payload).None?
  {
    assert Member(payload, "action") == Some(JObject(map["toString" := JNumber(1)]));
  }

  /** A pull request with a string action `a` becomes "pull_request." + a. */
  lemma PullRequestNamesAction(payload: Json, a: string)
    requires Member(payload, "action") == Some(JString(a))
    ensures CanonicalEventType("pull_request", payload) == Some("pull_request." + a)
  {
    assert CanonicalEventType("pull_request", payload).value == "pull_request." + a;
  }

  /** A pull request without an action is not rejected: it becomes "pull_request.undefined". */
  lemma PullRequestWithoutAction(payload: Json)
    requires Member(payload, "action").None?
    ensures CanonicalEventType("pull_request", payload) == Some("pull_request.undefined")
  {
    assert CanonicalEventType("pull_request", payload).value == "pull_request.undefined";
  }

  /** "create"/"delete" with a truthy `ref_type` get it as a suffix. */
  lemma RefTypeSuffix(githubEvent: string, payload: Json, refType: string)
    requires githubEvent == "create" || githubEvent == "delete"
    requires Member(payload, "ref_type") == Some(JString(refType)) && refType != ""
    ensures CanonicalEventType(githubEvent, payload) == Some(githubEvent + "." + refType)
  {
    assert CanonicalEventType(githubEvent, payload).value == githubEvent + "." + refType;
  }

  /**
   * Everything else comes back unchanged: any category other than the three
   * refined ones, and "create"/"delete" whose `ref_type` is absent or falsy.
   */
  lemma PassThrough(githubEvent: string, payload: Json)
    requires githubEvent != "pull_request"
    requires Refined(githubEvent) ==> !TruthyMember(Member(payload, "ref_type"))
    ensures CanonicalEventType(githubEvent, payload) == Some(githubEvent)
  {
  }

  /**
   * "pull_request.merged", one of the selectable trigger types, is produced from a
   * "pull_request" delivery only when the action renders as the literal text
   * "merged" (or when the raw header already is that string).
   */
  lemma {:induction false} MergedOnlyFromMergedAction(githubEvent: string, payload: Json)
    ensures CanonicalEventType(githubEvent, payload) == Some("pull_request.merged") <==>
      (githubEvent == "pull_request.merged" ||
       (githubEvent == "pull_request" && MemberRenderable(Member(payload, "action"))
        && MemberText(Member(payload, "action")) == "merged"))
  {
    var t := CanonicalEventType(githubEvent, payload);
    if githubEvent == "pull_request" {
      if MemberRenderable(Member(payload, "action")) {
        var suffix := MemberText(Member(payload, "action"));
        assert t.value == "pull_request." + suffix;
        assert "pull_request." + "merged" == "pull_request.merged";
        if t == Some("pull_request.merged") {
          assert suffix == t.value[|"pull_request."|..];
        }
      }
    } else if t.Some? && t.value != githubEvent {
      // The "create." and "delete." branches start with another letter.
      assert t.value[0] == githubEvent[0];
      assert githubEvent[0] != 'p';
    }
  }

  /**
   * Every trigger type the dashboard offers is produced by some delivery: the
   * normaliser can reach each of them, "pull_request.merged" included (but only
   * through the action text "merged", as `MergedOnlyFromMergedAction` says).
   */
  lemma SelectableTypesReachable(t: string)
    requires t in SelectableEventTypes
    ensures exists githubEvent: string, payload: Json :: CanonicalEventType(githubEvent, payload) == Some(t)
  {
    var githubEvent, payload := ReachingDelivery(t);
  }

  /** A delivery whose canonical type is the given selectable trigger type. */
  lemma ReachingDelivery(t: string) returns (githubEvent: string, payload: Json)
    requires t in SelectableEventTypes
    ensures CanonicalEventType(githubEvent, payload) == Some(t)
  {
    var branch := JObject(map["ref_type" := JString("branch")]);
    if t == "push" {
      githubEvent, payload := "push", JNull;
      PassThrough(githubEvent, payload);
    } else if t == "create.branch" {
      githubEvent, payload := "create", branch;
      RefTypeSuffix(githubEvent, payload, "branch");
      assert "create" + "." + "branch" == t;
    } else if t == "delete.branch" {
      githubEvent, payload := "delete", branch;
      RefTypeSuffix(githubEvent, payload, "branch");
      assert "delete" + "." + "branch" == t;
    } else {
      var action := t[|"pull_request."|..];
      assert t == "pull_request." + action;
      githubEvent, payload := "pull_request", JObject(map["action" := JString(action)]);
      PullRequestNamesAction(payload, action);
    }
  }

  /**
   * A merge as GitHub reports it, action "closed" with `pull_request.merged` true,
   * normalises to "pull_request.closed": a "pull_request.merged" trigger never
   * matches it.
   */
  lemma MergedPullRequestIsClosed(payload: Json)
    requires Member(payload, "action") == Some(JString("closed"))
    ensures CanonicalEventType("pull_request", payload) == Some("pull_request.closed")
    ensures CanonicalEventType("pull_request", payload) != Some("pull_request.merged")
  {
    PullRequestNamesAction(payload, "closed");
    assert "pull_request." + "closed" == "pull_request.closed";
  }
}
