/**
 * The deploy service: which platform `triggerDeploy` picks, how it turns the
 * app name into a platform name, and how the platforms' replies become the
 * deployment URL or the error it throws. The HTTP calls are replies given as
 * parameters.
 */
module Deploy {
  import opened Wrappers
  import opened Strings
  import opened Json
  import opened Config

  /** What the Railway `projectCreate` request delivers: a rejected `fetch`, or a response. */
  datatype RailwayReply =
    | RailwayUnreachable(message: string)
    | RailwayResponse(ok: bool, status: int, text: string, body: Result<Json>)

  /** What the Render `services` request delivers. */
  datatype RenderReply =
    | RenderUnreachable(message: string)
    | RenderResponse(ok: bool, status: int, text: string)

  /**
   * The network as `triggerDeploy` would find it: the Railway project
   * request, whether the follow-up `serviceCreate` request is rejected
   * (its response is never read), and the Render request.
   */
  datatype Network = Network(railway: RailwayReply, serviceRejected: Option<string>, render: RenderReply)

  const GithubPrefix := "https://github.com/"

  /** The name both platforms get: lower case, `[^a-z0-9-]` replaced by '-', at most 50 long. */
  function SanitizedName(appName: string): string {
    Slugify(appName, LowerAlnumDash, 50)
  }

  /** The TypeError `appName.toLowerCase()` throws when the spec's `app_name` is not a string. */
  function NameError(appName: Json): string {
    if appName.JNull? then NullReadError("toLowerCase") else "appName.toLowerCase is not a function"
  }

  /** `pat` occurs in `s` starting at `k`. */
  predicate OccursAt(s: string, pat: string, k: nat) {
    k + |pat| <= |s| && s[k..k + |pat|] == pat
  }

  /** Where `pat` first occurs in `s` at or after `from`. */
  function IndexOf(s: string, pat: string, from: nat): (r: Option<nat>)
    requires from <= |s|
    ensures r.Some? ==> from <= r.value && OccursAt(s, pat, r.value)
    ensures r.Some? ==> forall k :: from <= k < r.value ==> !OccursAt(s, pat, k)
    ensures r.None? ==> forall k :: from <= k ==> !OccursAt(s, pat, k)
    decreases |s| - from
  {
    if from + |pat| > |s| then None
    else if s[from..from + |pat|] == pat then Some(from)
    else IndexOf(s, pat, from + 1)
  }

  /** `githubUrl.replace('https://github.com/', '')`: only the first occurrence goes. */
  function RepoPath(githubUrl: string): (r: string)
    ensures IndexOf(githubUrl, GithubPrefix, 0).None? ==> r == githubUrl
    ensures IndexOf(githubUrl, GithubPrefix, 0).Some? ==>
      var k := IndexOf(githubUrl, GithubPrefix, 0).value;
      r == githubUrl[..k] + githubUrl[k + |GithubPrefix|..]
  {
    match IndexOf(githubUrl, GithubPrefix, 0)
    case None => githubUrl
    case Some(k) => githubUrl[..k] + githubUrl[k + |GithubPrefix|..]
  }

  /** For the usual URL the repository path is what follows the prefix. */
  lemma RepoPathOfRepoUrl(owner: string, repo: string)
    ensures RepoPath(GithubPrefix + owner + "/" + repo) == owner + "/" + repo
  {
    var url := GithubPrefix + owner + "/" + repo;
    assert url[0..|GithubPrefix|] == GithubPrefix;
    assert IndexOf(url, GithubPrefix, 0) == Some(0);
    assert url[|GithubPrefix|..] == owner + "/" + repo;
  }

  /** The `serviceCreate` mutation up to the opening quote of its repository field. */
  function ServiceQueryHead(projectId: string, sanitizedName: string): string {
    "\n    mutation {\n      serviceCreate(input: {\n        projectId: \"" + projectId + "\"\n"
    + "        name: \"" + sanitizedName + "-service\"\n        source: {\n          repo: \""
  }

  const ServiceQueryTail := "\"\n        }\n      }) {\n        id\n        name\n      }\n    }\n  "

  /**
   * The `serviceCreate` mutation sent once the project exists; its reply is
   * not read. The repository field holds `RepoPath(githubUrl)`.
   */
  function ServiceQuery(projectId: string, sanitizedName: string, githubUrl: string): (q: string)
    ensures var head := ServiceQueryHead(projectId, sanitizedName);
      && |q| == |head| + |RepoPath(githubUrl)| + |ServiceQueryTail|
      && q[..|head|] == head
      && q[|head|..|head| + |RepoPath(githubUrl)|] == RepoPath(githubUrl)
      && q[|head| + |RepoPath(githubUrl)|..] == ServiceQueryTail
  {
    var head := ServiceQueryHead(projectId, sanitizedName);
    var q := head + RepoPath(githubUrl) + ServiceQueryTail;
    assert q[..|head|] == head;
    assert q[|head|..|head| + |RepoPath(githubUrl)|] == RepoPath(githubUrl);
    q
  }

  /** For the usual URL the service is created from the repository `owner/repo`. */
  lemma ServiceQueryOfRepoUrl(projectId: string, sanitizedName: string, owner: string, repo: string)
    ensures var head := ServiceQueryHead(projectId, sanitizedName);
      var q := ServiceQuery(projectId, sanitizedName, GithubPrefix + owner + "/" + repo);
      q[|head|..|q| - |ServiceQueryTail|] == owner + "/" + repo
  {
    RepoPathOfRepoUrl(owner, repo);
  }

  /** `data.data?.projectCreate?.id`, None standing for `undefined`. */
  function CreatedProjectId(data: Json): Option<Json> {
    var d := Get(data, "data");
    if d.None? || d.value.JNull? then None
    else
      var p := Get(d.value, "projectCreate");
      if p.None? || p.value.JNull? then None
      else Get(p.value, "id")
  }

  /** `deployToRailway`: the project URL, or the message of what it throws. */
  function DeployToRailway(appName: Json, githubUrl: string, reply: RailwayReply, serviceRejected: Option<string>)
    : (r: Result<string>)
    ensures !appName.JStr? ==> r == Err(NameError(appName))
    ensures reply.RailwayResponse? && !reply.ok && appName.JStr? ==>
      r == Err("Railway API error: " + IntToString(reply.status) + " - " + reply.text)
    ensures r.Ok? ==>
      && reply.RailwayResponse? && reply.ok && reply.body.Ok?
      && !reply.body.value.JNull?
      && !Present(Get(reply.body.value, "errors"))
      && Present(CreatedProjectId(reply.body.value))
      && serviceRejected.None?
      && r.value == "https://railway.app/project/" + Text(CreatedProjectId(reply.body.value).value)
  {
    if !appName.JStr? then Err(NameError(appName))
    else
      match reply
      case RailwayUnreachable(message) => Err(message)
      case RailwayResponse(ok, status, text, body) =>
        if !ok then Err("Railway API error: " + IntToString(status) + " - " + text)
        else
          match body
          case Err(message) => Err(message)
          case Ok(data) =>
            if data.JNull? then Err(NullReadError("errors"))
            else if Present(Get(data, "errors")) then
              Err("Railway GraphQL error: " + Stringify(Get(data, "errors").value))
            else if !Present(CreatedProjectId(data)) then Err("Railway project creation returned no ID")
            else if serviceRejected.Some? then Err(serviceRejected.value)
            else Ok("https://railway.app/project/" + Text(CreatedProjectId(data).value))
  }

  /** `deployToRender`: the service URL, or the message of what it throws. */
  function DeployToRender(appName: Json, reply: RenderReply): (r: Result<string>)
    ensures !appName.JStr? ==> r == Err(NameError(appName))
    ensures r.Ok? <==> appName.JStr? && reply.RenderResponse? && reply.ok
    ensures r.Ok? ==> r.value == "https://" + SanitizedName(appName.s) + ".onrender.com"
  {
    if !appName.JStr? then Err(NameError(appName))
    else
      match reply
      case RenderUnreachable(message) => Err(message)
      case RenderResponse(ok, status, text) =>
        if !ok then Err("Render API error: " + IntToString(status) + " - " + text)
        else Ok("https://" + SanitizedName(appName.s) + ".onrender.com")
  }

  /** The text returned when no platform is configured. */
  function ManualUrl(appName: Json): string {
    "manual://" + Text(appName) + " — No deployment platform configured. Deploy using the Dockerfile."
  }

  /**
   * `triggerDeploy`: Railway when its token is set, else Render when its key
   * is set, else the manual text. `railwaySetting` and `renderSetting` are
   * the stored `railway_token` and `render_api_key`.
   */
  function TriggerDeploy(appName: Json, githubUrl: string, env: Env,
                         railwaySetting: Option<string>, renderSetting: Option<string>, net: Network)
    : (r: Result<string>)
    ensures Filled(EnvOr(env, "RAILWAY_TOKEN", railwaySetting)) ==>
      r == DeployToRailway(appName, githubUrl, net.railway, net.serviceRejected)
    ensures !Filled(EnvOr(env, "RAILWAY_TOKEN", railwaySetting)) && Filled(EnvOr(env, "RENDER_API_KEY", renderSetting)) ==>
      r == DeployToRender(appName, net.render)
    ensures !Filled(EnvOr(env, "RAILWAY_TOKEN", railwaySetting)) && !Filled(EnvOr(env, "RENDER_API_KEY", renderSetting)) ==>
      r == Ok(ManualUrl(appName))
    ensures r.Err? ==> Filled(EnvOr(env, "RAILWAY_TOKEN", railwaySetting)) || Filled(EnvOr(env, "RENDER_API_KEY", renderSetting))
  {
    if Filled(EnvOr(env, "RAILWAY_TOKEN", railwaySetting)) then
      DeployToRailway(appName, githubUrl, net.railway, net.serviceRejected)
    else if Filled(EnvOr(env, "RENDER_API_KEY", renderSetting)) then
      DeployToRender(appName, net.render)
    else Ok(ManualUrl(appName))
  }

  /** With a Railway token, Render is never contacted: its reply cannot change the result. */
  lemma RailwayFirst(appName: Json, githubUrl: string, env: Env, railwaySetting: Option<string>,
                     renderSetting: Option<string>, net: Network, render: RenderReply)
    requires ("RAILWAY_TOKEN" in env && env["RAILWAY_TOKEN"] != "") || Filled(railwaySetting)
    ensures TriggerDeploy(appName, githubUrl, env, railwaySetting, renderSetting, net)
         == TriggerDeploy(appName, githubUrl, env, railwaySetting, renderSetting, net.(render := render))
  {
  }

  /** Without any credential no request is made and the result is the manual text, never an error. */
  lemma NoCredentialsNoNetwork(appName: Json, githubUrl: string, env: Env, net: Network)
    requires "RAILWAY_TOKEN" !in env && "RENDER_API_KEY" !in env
    ensures TriggerDeploy(appName, githubUrl, env, None, None, net) == Ok(ManualUrl(appName))
  {
  }

  /** The platform name keeps at most 50 characters, each a lower-case letter, a digit or '-'. */
  lemma SanitizedNameShape(appName: string)
    ensures |SanitizedName(appName)| == if Utf16Length(appName) < 50 then Utf16Length(appName) else 50
    ensures forall i :: 0 <= i < |SanitizedName(appName)| ==> InClass(SanitizedName(appName)[i], LowerAlnumDash)
  {
    SlugifyShape(appName, LowerAlnumDash, 50);
  }
}
