/** `create_pullrequest`: the endpoint address and the fixed JSON payload of
    an open, unlocked pull request without reviewers. */
module PullRequest {
  import opened Wrappers
  import opened JsonValues
  import opened Errors
  import opened Client
  import opened Request

  const RefsHeads := "refs/heads/"
  const OpenState := "OPEN"

  /** The six arguments of `create_pullrequest`. */
  datatype PullRequestSpec = PullRequestSpec(
    project: string,
    repository: string,
    source: string,
    target: string,
    title: string,
    description: string)

  /** The address `create_pullrequest` posts to: the API address of the
      path `projects/{}/repos/{}/pull-requests`. */
  function PullRequestsUrl(c: Client, project: string, repository: string): (r: string)
    ensures r == c.url + "/projects/" + project + "/repos/" + repository + "/pull-requests/"
  {
    ApiUrl(c, "projects/" + project + "/repos/" + repository + "/pull-requests")
  }

  /** One side of the pull request: a branch of the given repository. */
  function Ref(branch: string, project: string, repository: string): (j: Json)
    ensures StringAt(j, ["id"]) == Some(RefsHeads + branch)
    ensures StringAt(j, ["repository", "project", "key"]) == Some(project)
    ensures StringAt(j, ["repository", "slug"]) == Some(repository)
    ensures StringAt(j, ["repository", "name"]) == Some("null")
    ensures j.JObject? && j.fields.Keys == {"id", "repository"}
    ensures Field(j, "repository").value.JObject? && Field(j, "repository").value.fields.Keys == {"name", "project", "slug"}
    ensures Lookup(j, ["repository", "project"]).value.JObject?
    ensures Lookup(j, ["repository", "project"]).value.fields.Keys == {"key"}
  {
    JObject(map[
      "id" := JString(RefsHeads + branch),
      "repository" := JObject(map[
        "name" := JString("null"),
        "project" := JObject(map["key" := JString(project)]),
        "slug" := JString(repository)])])
  }

  /** The fixed envelope of the request body around its two refs. The flags
      are the strings `"False"`/`"True"`, as sent. */
  function Envelope(title: string, description: string, fromRef: Json, toRef: Json): (j: Json)
    ensures Field(j, "fromRef") == Some(fromRef) && Field(j, "toRef") == Some(toRef)
    ensures StringAt(j, ["state"]) == Some(OpenState)
    ensures StringAt(j, ["title"]) == Some(title)
    ensures StringAt(j, ["description"]) == Some(description)
    ensures Field(j, "reviewers") == Some(JArray([]))
    ensures StringAt(j, ["closed"]) == Some("False") && StringAt(j, ["locked"]) == Some("False")
    ensures StringAt(j, ["open"]) == Some("True")
    ensures j.JObject?
    ensures j.fields.Keys == {"description", "closed", "fromRef", "state", "title", "locked", "reviewers", "open", "toRef"}
  {
    JObject(map[
      "description" := JString(description),
      "closed" := JString("False"),
      "fromRef" := fromRef,
      "state" := JString(OpenState),
      "title" := JString(title),
      "locked" := JString("False"),
      "reviewers" := JArray([]),
      "open" := JString("True"),
      "toRef" := toRef])
  }

  /** The request body: an open pull request without reviewers from the
      source branch to the target branch, both in the given project and
      repository. */
  function Payload(s: PullRequestSpec): (j: Json)
    ensures Field(j, "fromRef") == Some(Ref(s.source, s.project, s.repository))
    ensures Field(j, "toRef") == Some(Ref(s.target, s.project, s.repository))
    ensures StringAt(j, ["state"]) == Some(OpenState)
    ensures StringAt(j, ["title"]) == Some(s.title)
    ensures StringAt(j, ["description"]) == Some(s.description)
    ensures Field(j, "reviewers") == Some(JArray([]))
  {
    Envelope(s.title, s.description, Ref(s.source, s.project, s.repository), Ref(s.target, s.project, s.repository))
  }

  /** The branch name behind a `refs/heads/` id. */
  function BranchOf(id: string): (r: Option<string>)
    ensures r.Some? ==> id == RefsHeads + r.value
    ensures |RefsHeads| <= |id| && id[..|RefsHeads|] == RefsHeads ==> r == Some(id[|RefsHeads|..])
  {
    if |RefsHeads| <= |id| && id[..|RefsHeads|] == RefsHeads then Some(id[|RefsHeads|..]) else None
  }

  /** Branch, project key and repository slug read back out of a ref. */
  datatype RefParts = RefParts(branch: string, project: string, repository: string)

  /** Reads a ref back. */
  function ReadRef(j: Json): Option<RefParts> {
    match (StringAt(j, ["id"]), StringAt(j, ["repository", "project", "key"]), StringAt(j, ["repository", "slug"]))
    case (Some(id), Some(p), Some(r)) =>
      (match BranchOf(id)
       case Some(b) => Some(RefParts(b, p, r))
       case None => None)
    case _ => None
  }

  /** Reads the arguments back out of a payload; the two refs must agree on
      project and repository. */
  function ReadPayload(j: Json): Option<PullRequestSpec> {
    match (Field(j, "fromRef"), Field(j, "toRef"), StringAt(j, ["title"]), StringAt(j, ["description"]))
    case (Some(from), Some(to), Some(t), Some(d)) =>
      (match (ReadRef(from), ReadRef(to))
       case (Some(f), Some(g)) =>
         if f.project == g.project && f.repository == g.repository
         then Some(PullRequestSpec(f.project, f.repository, f.branch, g.branch, t, d))
         else None
       case _ => None)
    case _ => None
  }

  /** A ref determines its branch, project and repository. */
  lemma RefRoundTrip(branch: string, project: string, repository: string)
    ensures ReadRef(Ref(branch, project, repository)) == Some(RefParts(branch, project, repository))
  {
    assert (RefsHeads + branch)[..|RefsHeads|] == RefsHeads;
    assert (RefsHeads + branch)[|RefsHeads|..] == branch;
  }

  /** The payload determines the call's arguments: reading it back gives them. */
  lemma PayloadRoundTrip(s: PullRequestSpec)
    ensures ReadPayload(Payload(s)) == Some(s)
  {
    RefRoundTrip(s.source, s.project, s.repository);
    RefRoundTrip(s.target, s.project, s.repository);
  }

  /** `create_pullrequest(...)`: one POST of the payload to the pull-request
      address, the parsed body returned, any failure passed through. */
  function CreatePullRequest(c: Client, s: PullRequestSpec, parse: UrlParser, send: Session): (r: Result<Json, Error>)
    ensures var resp := Post(c, PullRequestsUrl(c, s.project, s.repository), Some(Payload(s)), NoOptions, parse, send);
      && (r.Success? <==> resp.Success? && resp.value.body.Some?)
      && (r.Success? ==> r.value == resp.value.body.value)
      && (resp.Failure? ==> r == Failure(resp.error))
      && (resp.Success? && resp.value.body.None? ==> r == Failure(DecodeError))
  {
    match Post(c, PullRequestsUrl(c, s.project, s.repository), Some(Payload(s)), NoOptions, parse, send)
    case Success(resp) => DecodeBody(resp)
    case Failure(e) => Failure(e)
  }

  /** For a client built on base address `base`, the pull-request address is
      `base/version/projects/P/repos/R/pull-requests/`, with the trailing
      slash `_api_url` adds. */
  lemma PullRequestAddress(token: Option<string>, base: string, version: string, configured: string, project: string, repository: string)
    requires base != ""
    ensures PullRequestsUrl(NewClient(token, Some(base), version, configured), project, repository)
      == base + "/" + version + "/projects/" + project + "/repos/" + repository + "/pull-requests/"
  {
    var c := NewClient(token, Some(base), version, configured);
    assert c.url == base + "/" + version;
  }

  /** For the usual `Bitbucket(token, url=B)`, the pull-request address is
      `B/1.0/projects/P/repos/R/pull-requests/`. */
  lemma DefaultClientPullRequestAddress(token: Option<string>, base: string, configured: string, project: string, repository: string)
    requires base != ""
    ensures PullRequestsUrl(NewDefaultClient(token, Some(base), configured), project, repository)
      == base + "/1.0/projects/" + project + "/repos/" + repository + "/pull-requests/"
  {
    assert NewDefaultClient(token, Some(base), configured) == NewClient(token, Some(base), DefaultVersion, configured);
    PullRequestAddress(token, base, DefaultVersion, configured, project, repository);
    assert base + "/" + DefaultVersion + "/projects/" == base + "/1.0/projects/";
  }

  /** The request `create_pullrequest` hands the session: a POST to the
      pull-request address (when it has no query of its own) with the payload
      as JSON body, the JSON content type and the client's authenticator. */
  lemma PullRequestRequest(c: Client, s: PullRequestSpec, parse: UrlParser)
    requires parse(PullRequestsUrl(c, s.project, s.repository)).1 == map[]
    ensures var p := Prepare(c, "POST", PullRequestsUrl(c, s.project, s.repository), NoOptions.(json := Some(Payload(s))), parse);
      && p.address == PullRequestsUrl(c, s.project, s.repository)
      && p.verb == "POST"
      && p.json == Some(Payload(s))
      && p.headers == map[ContentTypeHeader := ApplicationJson]
      && p.auth == c.auth
  {
  }
}
