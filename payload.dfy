/** Validation and field extraction of a pull-request webhook delivery
    (cogs/webhook_handler.py, lines 25-46). */
module Payload {
  import opened Wrappers
  import opened JsonValue
  import Text

  /** Why a delivery is refused before any lookup or dispatch. The first
      three are the handler's 400 answers; `TypeFault` is an attribute lookup
      on a value of the wrong JSON type (`.get` on a non-dict, `.split` on a
      non-string), which raises and ends in the catch-all 500. */
  datatype Rejection = MissingEventType | MissingResource | MissingPrId | TypeFault

  /** The fields the handler extracts from a delivery. The branches are
      strings (they went through `split`); the others keep whatever JSON
      value the payload carried, or the fixed placeholder. */
  datatype Event = Event(
    eventType: Json,
    prId: Json,
    title: Json,
    author: Json,
    repository: Json,
    sourceBranch: string,
    targetBranch: string,
    status: Json,
    url: Json)

  /** `resource.get(key, "Unknown").split('/')[-1]`. */
  function BranchOf(resource: map<string, Json>, key: string): (r: Option<string>)
    ensures key !in resource ==> r == Some("Unknown")
    ensures key in resource && resource[key].JStr? ==>
              r.Some? && Text.IsLastSegment(resource[key].s, r.value, '/')
    ensures key in resource && !resource[key].JStr? ==> r.None?
  {
    match GetOr(resource, key, JStr("Unknown"))
    case JStr(ref) => Some(Text.LastSegment(ref))
    case _ => None
  }

  /** Lines 25-46 of the handler: the three 400 checks in order, then the
      optional fields with their placeholders. */
  function Normalize(payload: Json): (r: Result<Event, Rejection>)
    ensures r.Ok? ==> Truthy(r.value.eventType) && Truthy(r.value.prId)
    ensures r.Ok? ==> '/' !in r.value.sourceBranch && '/' !in r.value.targetBranch
    ensures r == Err(MissingEventType) <==>
              payload.JObj? && !Truthy(Get(payload.fields, "eventType"))
    ensures r == Err(MissingResource) <==>
              && payload.JObj? && Truthy(Get(payload.fields, "eventType"))
              && !Truthy(Get(payload.fields, "resource"))
    ensures r == Err(MissingPrId) <==>
              && payload.JObj? && Truthy(Get(payload.fields, "eventType"))
              && Get(payload.fields, "resource").JObj?
              && Truthy(Get(payload.fields, "resource"))
              && !Truthy(Get(Get(payload.fields, "resource").fields, "pullRequestId"))
  {
    if !payload.JObj? then Err(TypeFault)
    else
      var eventType := Get(payload.fields, "eventType");
      if !Truthy(eventType) then Err(MissingEventType)
      else
        var resource := Get(payload.fields, "resource");
        if !Truthy(resource) then Err(MissingResource)
        else if !resource.JObj? then Err(TypeFault)
        else
          var prId := Get(resource.fields, "pullRequestId");
          if !Truthy(prId) then Err(MissingPrId)
          else
            var title := GetOr(resource.fields, "title", JStr("No Title"));
            var author := Chain(resource, ["createdBy", "displayName"], JStr("Unknown"));
            var repo := Chain(resource, ["repository", "name"], JStr("Unknown"));
            var source := BranchOf(resource.fields, "sourceRefName");
            var target := BranchOf(resource.fields, "targetRefName");
            var status := GetOr(resource.fields, "status", JStr("Unknown"));
            var url := Chain(resource, ["_links", "web", "href"], JStr("#"));
            if author.None? || repo.None? || source.None? || target.None? || url.None? then
              Err(TypeFault)
            else
              Ok(Event(eventType, prId, title, author.value, repo.value,
                       source.value, target.value, status, url.value))
  }

  /** The optional fields have the shapes lines 41-46 can look into:
      every container that is present is a dict and every ref is a string. */
  ghost predicate OptionalFieldsWellTyped(resource: map<string, Json>)
  {
    && ("createdBy" in resource ==> resource["createdBy"].JObj?)
    && ("repository" in resource ==> resource["repository"].JObj?)
    && ("sourceRefName" in resource ==> resource["sourceRefName"].JStr?)
    && ("targetRefName" in resource ==> resource["targetRefName"].JStr?)
    && ("_links" in resource ==>
          && resource["_links"].JObj?
          && ("web" in resource["_links"].fields ==> resource["_links"].fields["web"].JObj?))
  }

  /** A delivery is accepted exactly when it is a dict with a truthy
      `eventType`, a dict `resource` with a truthy `pullRequestId`, and
      optional fields of the right shapes. */
  lemma NormalizeAccepts(payload: Json)
    ensures Normalize(payload).Ok? <==>
              && payload.JObj?
              && Truthy(Get(payload.fields, "eventType"))
              && Get(payload.fields, "resource").JObj?
              && Truthy(Get(payload.fields, "resource"))
              && Truthy(Get(Get(payload.fields, "resource").fields, "pullRequestId"))
              && OptionalFieldsWellTyped(Get(payload.fields, "resource").fields)
  {
    if payload.JObj? && Get(payload.fields, "resource").JObj? {
      var resource := Get(payload.fields, "resource");
      ChainTwo(resource, "createdBy", "displayName", JStr("Unknown"));
      ChainTwo(resource, "repository", "name", JStr("Unknown"));
      ChainThree(resource, "_links", "web", "href", JStr("#"));
    }
  }

  lemma ChainTwo(v: Json, k1: string, k2: string, default: Json)
    requires v.JObj?
    ensures Chain(v, [k1, k2], default).Some? <==> (k1 in v.fields ==> v.fields[k1].JObj?)
    ensures Chain(v, [k1, k2], default).Some? ==>
              Chain(v, [k1, k2], default).value ==
                (if k1 in v.fields && k2 in v.fields[k1].fields then v.fields[k1].fields[k2] else default)
  {
    assert [k1, k2][..1] == [k1];
  }

  lemma ChainThree(v: Json, k1: string, k2: string, k3: string, default: Json)
    requires v.JObj?
    ensures Chain(v, [k1, k2, k3], default).Some? <==>
              (k1 in v.fields ==>
                 v.fields[k1].JObj? && (k2 in v.fields[k1].fields ==> v.fields[k1].fields[k2].JObj?))
    ensures Chain(v, [k1, k2, k3], default).Some? ==>
              Chain(v, [k1, k2, k3], default).value ==
                (if && k1 in v.fields && k2 in v.fields[k1].fields
                    && k3 in v.fields[k1].fields[k2].fields
                 then v.fields[k1].fields[k2].fields[k3] else default)
  {
    assert [k1, k2, k3][1..] == [k2, k3];
    var next := GetOr(v.fields, k1, JObj(map[]));
    if next.JObj? {
      ChainTwo(next, k2, k3, default);
    }
  }

  /** Lines 25-46, field by field. The event type and the PR id are the
      payload's. Of the optional fields, a present value is copied; an absent one
      takes its placeholder: the title "No Title", author, repository,
      status and both branches "Unknown", the link "#". For the nested
      lookups an absent inner key counts as absent too (`createdBy: {}`
      gives "Unknown", `_links: {}` or `_links.web: {}` gives "#"). A
      present ref is cut to its last segment. */
  lemma NormalizeExtracts(payload: Json)
    requires Normalize(payload).Ok?
    ensures payload.JObj? && Get(payload.fields, "resource").JObj?
    ensures var resource := Get(payload.fields, "resource").fields;
            var e := Normalize(payload).value;
            && e.eventType == payload.fields["eventType"]
            && e.prId == resource["pullRequestId"]
            && e.title == (if "title" in resource then resource["title"] else JStr("No Title"))
            && e.status == (if "status" in resource then resource["status"] else JStr("Unknown"))
            && e.author == (if "createdBy" in resource && "displayName" in resource["createdBy"].fields
                            then resource["createdBy"].fields["displayName"] else JStr("Unknown"))
            && e.repository == (if "repository" in resource && "name" in resource["repository"].fields
                                then resource["repository"].fields["name"] else JStr("Unknown"))
            && e.url == (if && "_links" in resource
                            && "web" in resource["_links"].fields
                            && "href" in resource["_links"].fields["web"].fields
                         then resource["_links"].fields["web"].fields["href"] else JStr("#"))
            && ("sourceRefName" !in resource ==> e.sourceBranch == "Unknown")
            && ("targetRefName" !in resource ==> e.targetBranch == "Unknown")
            && ("sourceRefName" in resource ==>
                  Text.IsLastSegment(resource["sourceRefName"].s, e.sourceBranch, '/'))
            && ("targetRefName" in resource ==>
                  Text.IsLastSegment(resource["targetRefName"].s, e.targetBranch, '/'))
  {
    var resource := Get(payload.fields, "resource");
    ChainTwo(resource, "createdBy", "displayName", JStr("Unknown"));
    ChainTwo(resource, "repository", "name", JStr("Unknown"));
    ChainThree(resource, "_links", "web", "href", JStr("#"));
  }
}
