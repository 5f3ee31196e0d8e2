/**
 * The settings routes: PUT's split of the body into applied and rejected
 * keys, GET's masking of secrets, and the `/status` readiness report.
 */
module SettingsRoutes {
  import opened Wrappers
  import opened Strings
  import opened Json
  import opened Config
  import opened Database
  import opened StoredJson
  import Deploy

  const AllowedKeys: seq<string> := [
    "openai_api_key", "openai_model", "github_token", "railway_token", "render_api_key",
    "test_threshold", "max_retries", "target_stack", "target_db"]

  const SensitiveKeys: seq<string> := ["openai_api_key", "github_token", "railway_token", "render_api_key"]

  const UnknownKey := "Unknown setting key"
  const NotText := "Value must be a string or number"
  const NotAnObject := "Request body must be a JSON object of key-value pairs"

  // ---------------------------------------------------------------------
  // PUT /

  /** Why PUT refuses one entry, or None when it stores it; the key is judged before the value. */
  function Refusal(key: string, value: Json): (r: Option<string>)
    ensures key !in AllowedKeys ==> r == Some(UnknownKey)
    ensures key in AllowedKeys ==> (r.None? <==> value.JStr? || value.JNum?)
    ensures r.Some? ==> r.value == UnknownKey || r.value == NotText
  {
    if key !in AllowedKeys then Some(UnknownKey)
    else if !value.JStr? && !value.JNum? then Some(NotText)
    else None
  }

  /** `String(value)` for a string or a number: a string as it is, a number as text that reads back as it. */
  function SettingText(value: Json): (r: string)
    requires value.JStr? || value.JNum?
    ensures value.JStr? ==> r == value.s
    ensures value.JNum? ==> ParseInt(r) == Some(value.n)
  {
    if value.JStr? then value.s
    else
      ParseIntRoundTripInt(value.n);
      IntToString(value.n)
  }

  datatype Rejection = Rejection(key: string, reason: string)

  /** The keys PUT stores, in the order of the entries. */
  function AppliedKeys(es: seq<(string, Json)>): seq<string> {
    if es == [] then []
    else
      var last := es[|es| - 1];
      AppliedKeys(es[..|es| - 1]) + (if Refusal(last.0, last.1).None? then [last.0] else [])
  }

  /** The entries PUT refuses, with their reasons, in the order of the entries. */
  function Rejections(es: seq<(string, Json)>): seq<Rejection> {
    if es == [] then []
    else
      var last := es[|es| - 1];
      var refusal := Refusal(last.0, last.1);
      Rejections(es[..|es| - 1]) + (if refusal.Some? then [Rejection(last.0, refusal.value)] else [])
  }

  /** The settings after `setSetting` for each accepted entry, in order. */
  function StoredAll(settings: map<string, string>, es: seq<(string, Json)>): map<string, string> {
    if es == [] then settings
    else
      var last := es[|es| - 1];
      var before := StoredAll(settings, es[..|es| - 1]);
      if Refusal(last.0, last.1).None? then before[last.0 := SettingText(last.1)] else before
  }

  datatype PutReply = Malformed(message: string) | Partition(applied: seq<string>, rejected: seq<Rejection>)

  /**
   * PUT: a body that is not an object (arrays are objects) is refused;
   * otherwise each entry is applied or rejected in turn, and the LLM client
   * is reset exactly when `openai_api_key` is applied.
   */
  method Put(store: Store, body: Json) returns (r: PutReply, reset: bool)
    requires store.Valid()
    modifies store`settings
    ensures store.Valid()
    ensures !(body.JObj? || body.JArr?) ==> r == Malformed(NotAnObject) && !reset && store.settings == old(store.settings)
    ensures body.JObj? || body.JArr? ==>
      var es := ObjectEntries(body);
      && r == Partition(AppliedKeys(es), Rejections(es))
      && store.settings == StoredAll(old(store.settings), es)
      && (reset <==> "openai_api_key" in AppliedKeys(es))
  {
    // `!updates` catches null, false, 0 and ""; `typeof` every other non-object.
    if !Truthy(body) || !(body.JObj? || body.JArr?) {
      return Malformed(NotAnObject), false;
    }
    r, reset := ApplyEntries(store, ObjectEntries(body));
  }

  /** The loop of PUT: `setSetting` for each accepted entry, in order, collecting both lists. */
  method ApplyEntries(store: Store, es: seq<(string, Json)>) returns (r: PutReply, reset: bool)
    requires store.Valid()
    modifies store`settings
    ensures store.Valid()
    ensures r == Partition(AppliedKeys(es), Rejections(es))
    ensures store.settings == StoredAll(old(store.settings), es)
    ensures reset <==> "openai_api_key" in AppliedKeys(es)
  {
    var applied: seq<string> := [];
    var rejected: seq<Rejection> := [];
    reset := false;
    for i := 0 to |es|
      invariant store.Valid()
      invariant applied == AppliedKeys(es[..i]) && rejected == Rejections(es[..i])
      invariant store.settings == StoredAll(old(store.settings), es[..i])
      invariant reset <==> "openai_api_key" in applied
    {
      var (key, value) := es[i];
      assert es[..i + 1][..i] == es[..i];
      var refusal := Refusal(key, value);
      if refusal.Some? {
        rejected := rejected + [Rejection(key, refusal.value)];
        continue;
      }
      store.SetSetting(key, SettingText(value));
      applied := applied + [key];
      if key == "openai_api_key" {
        reset := true;
      }
    }
    assert es[..|es|] == es;
    r := Partition(applied, rejected);
  }

  /** Every entry lands in exactly one of the two lists. */
  lemma {:induction false} PartitionCounts(es: seq<(string, Json)>)
    ensures |AppliedKeys(es)| + |Rejections(es)| == |es|
  {
    if es != [] {
      PartitionCounts(es[..|es| - 1]);
    }
  }

  /** Both lists keep the order of the entries: splitting the body splits them. */
  lemma {:induction false} PartitionAppend(a: seq<(string, Json)>, b: seq<(string, Json)>)
    ensures AppliedKeys(a + b) == AppliedKeys(a) + AppliedKeys(b)
    ensures Rejections(a + b) == Rejections(a) + Rejections(b)
  {
    if b == [] {
      assert a + b == a;
    } else {
      assert (a + b)[..|a + b| - 1] == a + b[..|b| - 1];
      PartitionAppend(a, b[..|b| - 1]);
    }
  }

  /** An accepted entry's key is among the applied; a refused one is rejected with its reason. */
  lemma {:induction false} EveryEntryLands(es: seq<(string, Json)>, i: nat)
    requires i < |es|
    ensures Refusal(es[i].0, es[i].1).None? ==> es[i].0 in AppliedKeys(es)
    ensures Refusal(es[i].0, es[i].1).Some? ==>
      Rejection(es[i].0, Refusal(es[i].0, es[i].1).value) in Rejections(es)
  {
    if i < |es| - 1 {
      EveryEntryLands(es[..|es| - 1], i);
    }
  }

  /** After PUT, a key holds the text of its last accepted entry. */
  lemma {:induction false} LastAcceptedWins(settings: map<string, string>, es: seq<(string, Json)>, i: nat)
    requires i < |es| && Refusal(es[i].0, es[i].1).None?
    requires forall j :: i < j < |es| && es[j].0 == es[i].0 ==> Refusal(es[j].0, es[j].1).Some?
    ensures es[i].0 in StoredAll(settings, es) && StoredAll(settings, es)[es[i].0] == SettingText(es[i].1)
  {
    if i < |es| - 1 {
      LastAcceptedWins(settings, es[..|es| - 1], i);
    }
  }

  /** A key without an accepted entry keeps its stored value, or stays absent. */
  lemma {:induction false} UntouchedKeys(settings: map<string, string>, es: seq<(string, Json)>, key: string)
    requires forall j :: 0 <= j < |es| && es[j].0 == key ==> Refusal(es[j].0, es[j].1).Some?
    ensures (key in StoredAll(settings, es)) <==> key in settings
    ensures key in settings ==> StoredAll(settings, es)[key] == settings[key]
  {
    if es != [] {
      UntouchedKeys(settings, es[..|es| - 1], key);
    }
  }

  // ---------------------------------------------------------------------
  // GET /

  /** `value.slice(-4)`: the whole value when it is shorter. */
  function LastFour(value: string): (r: string)
    ensures |r| == if |value| < 4 then |value| else 4
    ensures r == value[|value| - |r|..]
  {
    if |value| <= 4 then value else value[|value| - 4..]
  }

  /** How GET shows one stored value: a secret as `***` and its last four characters, or null when empty. */
  function Shown(key: string, value: string): (r: Option<string>)
    ensures key !in SensitiveKeys ==> r == Some(value)
    ensures key in SensitiveKeys ==> (r.None? <==> value == "")
    ensures key in SensitiveKeys && r.Some? ==> r.value == "***" + LastFour(value)
  {
    if key in SensitiveKeys then (if value != "" then Some("***" + LastFour(value)) else None)
    else Some(value)
  }

  /** A secret's display depends on nothing but its last four characters. */
  lemma {:induction false} MaskShowsOnlyTail(key: string, a: string, c: string, tail: string)
    requires key in SensitiveKeys && |tail| >= 4
    ensures Shown(key, a + tail) == Shown(key, c + tail)
  {
    assert (a + tail)[|a + tail| - 4..] == tail[|tail| - 4..];
    assert (c + tail)[|c + tail| - 4..] == tail[|tail| - 4..];
  }

  /** The credentials the environment overrides: setting key and environment variable. */
  const EnvNames: seq<(string, string)> := [
    ("openai_api_key", "OPENAI_API_KEY"), ("github_token", "GITHUB_TOKEN"),
    ("railway_token", "RAILWAY_TOKEN"), ("render_api_key", "RENDER_API_KEY")]

  /** `envOverrides`: the keys whose environment variable is set and not empty. */
  function EnvOverrides(env: Env): (r: set<string>)
    ensures forall k :: k in r <==> exists p :: p in EnvNames && p.0 == k && p.1 in env && env[p.1] != ""
  {
    set p | p in EnvNames && p.1 in env && env[p.1] != "" :: p.0
  }

  /** GET: every stored setting under its key, secrets masked, and the environment overrides. */
  method View(store: Store, env: Env) returns (shown: map<string, Option<string>>, overrides: set<string>)
    ensures shown.Keys == store.settings.Keys
    ensures forall k :: k in shown ==> shown[k] == Shown(k, store.settings[k])
    ensures overrides == EnvOverrides(env)
  {
    shown := map[];
    var remaining := store.settings.Keys;
    while remaining != {}
      invariant remaining <= store.settings.Keys
      invariant shown.Keys == store.settings.Keys - remaining
      invariant forall k :: k in shown ==> shown[k] == Shown(k, store.settings[k])
      decreases remaining
    {
      var key :| key in remaining;
      shown := shown[key := Shown(key, store.settings[key])];
      remaining := remaining - {key};
    }
    overrides := EnvOverrides(env);
  }

  // ---------------------------------------------------------------------
  // GET /status

  datatype Integrations = Integrations(openai: bool, github: bool, railway: bool, render: bool, ready: bool)

  /** `!!(process.env[name] || getSetting(key))`. */
  predicate Configured(store: Store, env: Env, name: string, key: string)
    reads store
  {
    Filled(EnvOr(env, name, store.GetSetting(key)))
  }

  /** `/status`: which integrations have a credential; the app is ready when OpenAI has one. */
  function IntegrationStatus(store: Store, env: Env): (r: Integrations)
    reads store
    ensures r.ready == r.openai
    ensures r.openai <==> ("OPENAI_API_KEY" in env && env["OPENAI_API_KEY"] != "")
                          || ("openai_api_key" in store.settings && store.settings["openai_api_key"] != "")
  {
    var openai := Configured(store, env, "OPENAI_API_KEY", "openai_api_key");
    Integrations(openai, Configured(store, env, "GITHUB_TOKEN", "github_token"),
                 Configured(store, env, "RAILWAY_TOKEN", "railway_token"),
                 Configured(store, env, "RENDER_API_KEY", "render_api_key"), openai)
  }

  /**
   * The report agrees with the deploy service: it deploys to Railway when
   * Railway shows configured, else to Render when Render does, and
   * otherwise returns the manual text.
   */
  lemma DeployFollowsStatus(store: Store, env: Env, appName: Json, githubUrl: string, net: Deploy.Network)
    ensures var st := IntegrationStatus(store, env);
      var d := Deploy.TriggerDeploy(appName, githubUrl, env, store.GetSetting("railway_token"),
                                    store.GetSetting("render_api_key"), net);
      && (st.railway ==> d == Deploy.DeployToRailway(appName, githubUrl, net.railway, net.serviceRejected))
      && (!st.railway && st.render ==> d == Deploy.DeployToRender(appName, net.render))
      && (!st.railway && !st.render ==> d == Ok(Deploy.ManualUrl(appName)))
  {
  }
}
