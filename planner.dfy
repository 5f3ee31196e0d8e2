/**
 * The planner agent: the structural check of the JSON spec the language model
 * returns, and the success/failure result (with its log rows) around it.
 */
module Planner {
  import opened Wrappers
  import opened Strings
  import opened Json
  import opened Database

  /** The top-level fields `validate` demands, in the order it checks them. */
  const RequiredFields: seq<string> := ["app_name", "display_name", "models", "endpoints"]
  const MaxModels: nat := 6
  const MaxEndpoints: nat := 20

  predicate IsArray(v: Option<Json>) {
    v.Some? && v.value.JArr?
  }

  /** The array under `key` of a spec, or the empty sequence. */
  function Items(spec: Json, key: string): seq<Json> {
    var v := Get(spec, key);
    if v.Some? && v.value.JArr? then v.value.items else []
  }

  /** A model entry with a truthy `name` and an array `fields`. */
  predicate WellFormedModel(m: Json) {
    Present(Get(m, "name")) && IsArray(Get(m, "fields"))
  }

  /** An endpoint entry with a truthy `method` and a truthy `path`. */
  predicate WellFormedEndpoint(e: Json) {
    Present(Get(e, "method")) && Present(Get(e, "path"))
  }

  /** What `validate` accepts, stated declaratively. */
  predicate WellFormed(spec: Json) {
    && (forall f :: f in RequiredFields ==> Present(Get(spec, f)))
    && WellShaped(spec)
  }

  /** The models and endpoints part of `WellFormed`. */
  predicate WellShaped(spec: Json) {
    && IsArray(Get(spec, "models")) && 1 <= |Items(spec, "models")| <= MaxModels
    && IsArray(Get(spec, "endpoints")) && 1 <= |Items(spec, "endpoints")| <= MaxEndpoints
    && (forall m :: m in Items(spec, "models") ==> WellFormedModel(m))
    && (forall e :: e in Items(spec, "endpoints") ==> WellFormedEndpoint(e))
  }

  /** The first required field, from index `i` on, that is falsy or absent. */
  function MissingField(spec: Json, i: nat): (r: Option<string>)
    requires i <= |RequiredFields|
    ensures r.None? <==> forall k :: i <= k < |RequiredFields| ==> Present(Get(spec, RequiredFields[k]))
    ensures r.Some? ==> exists k :: i <= k < |RequiredFields| && r.value == RequiredFields[k]
                          && !Present(Get(spec, RequiredFields[k]))
                          && forall j :: i <= j < k ==> Present(Get(spec, RequiredFields[j]))
    decreases |RequiredFields| - i
  {
    if i == |RequiredFields| then None
    else if !Present(Get(spec, RequiredFields[i])) then Some(RequiredFields[i])
    else MissingField(spec, i + 1)
  }

  /** The error one entry of `models` raises; reading `name` of null is a TypeError. */
  function ModelError(m: Json): (r: Option<string>)
    ensures r.None? <==> WellFormedModel(m)
  {
    if m.JNull? then Some(NullReadError("name"))
    else if WellFormedModel(m) then None
    else Some("Invalid model definition: " + UnitsPrefix(Stringify(m), 100))
  }

  /** The error one entry of `endpoints` raises; reading `method` of null is a TypeError. */
  function EndpointError(e: Json): (r: Option<string>)
    ensures r.None? <==> WellFormedEndpoint(e)
  {
    if e.JNull? then Some(NullReadError("method"))
    else if WellFormedEndpoint(e) then None
    else Some("Invalid endpoint definition: " + UnitsPrefix(Stringify(e), 100))
  }

  /**
   * An ill-formed model's message quotes the start of its JSON text: at most
   * 100 UTF-16 units of it, and all of it when it fits.
   */
  lemma ModelErrorQuotes(m: Json)
    requires !m.JNull? && !WellFormedModel(m)
    ensures var msg := ModelError(m).value; var head := "Invalid model definition: ";
      && |head| <= |msg| && msg[..|head|] == head
      && msg[|head|..] <= Stringify(m) && Utf16Length(msg[|head|..]) <= 100
      && (Utf16Length(Stringify(m)) <= 100 ==> msg[|head|..] == Stringify(m))
  {
    var head := "Invalid model definition: ";
    var cut := UnitsPrefix(Stringify(m), 100);
    assert ModelError(m).value[|head|..] == cut;
    if Utf16Length(Stringify(m)) <= 100 {
      UnitsPrefixWhole(Stringify(m), 100);
    }
  }

  /**
   * An ill-formed endpoint's message quotes the start of its JSON text: at
   * most 100 UTF-16 units of it, and all of it when it fits.
   */
  lemma EndpointErrorQuotes(e: Json)
    requires !e.JNull? && !WellFormedEndpoint(e)
    ensures var msg := EndpointError(e).value; var head := "Invalid endpoint definition: ";
      && |head| <= |msg| && msg[..|head|] == head
      && msg[|head|..] <= Stringify(e) && Utf16Length(msg[|head|..]) <= 100
      && (Utf16Length(Stringify(e)) <= 100 ==> msg[|head|..] == Stringify(e))
  {
    var head := "Invalid endpoint definition: ";
    var cut := UnitsPrefix(Stringify(e), 100);
    assert EndpointError(e).value[|head|..] == cut;
    if Utf16Length(Stringify(e)) <= 100 {
      UnitsPrefixWhole(Stringify(e), 100);
    }
  }

  /** The index of the first model entry that fails, or the length when all pass. */
  function FirstBadModel(items: seq<Json>): (k: nat)
    ensures k <= |items|
    ensures forall j :: 0 <= j < k ==> WellFormedModel(items[j])
    ensures k < |items| ==> !WellFormedModel(items[k])
  {
    if items == [] || !WellFormedModel(items[0]) then 0
    else 1 + FirstBadModel(items[1..])
  }

  /** The index of the first endpoint entry that fails, or the length when all pass. */
  function FirstBadEndpoint(items: seq<Json>): (k: nat)
    ensures k <= |items|
    ensures forall j :: 0 <= j < k ==> WellFormedEndpoint(items[j])
    ensures k < |items| ==> !WellFormedEndpoint(items[k])
  {
    if items == [] || !WellFormedEndpoint(items[0]) then 0
    else 1 + FirstBadEndpoint(items[1..])
  }

  /** The checks `validate` makes once the required fields are present, in its order. */
  function ShapeError(spec: Json): (r: Option<string>)
    ensures r.None? <==> WellShaped(spec)
    ensures Get(spec, "models") == Some(JArr([])) ==> r == Some("Planner must generate at least one model")
    ensures IsArray(Get(spec, "models")) && |Items(spec, "models")| > MaxModels ==>
      r == Some("Too many models (" + NatToString(|Items(spec, "models")|) + "). Maximum is 6.")
  {
    var models, endpoints := Items(spec, "models"), Items(spec, "endpoints");
    if !IsArray(Get(spec, "models")) || |models| == 0 then
      Some("Planner must generate at least one model")
    else if |models| > MaxModels then
      Some("Too many models (" + NatToString(|models|) + "). Maximum is 6.")
    else if !IsArray(Get(spec, "endpoints")) || |endpoints| == 0 then
      Some("Planner must generate at least one endpoint")
    else if |endpoints| > MaxEndpoints then
      Some("Too many endpoints (" + NatToString(|endpoints|) + "). Maximum is 20.")
    else if FirstBadModel(models) < |models| then
      ModelError(models[FirstBadModel(models)])
    else if FirstBadEndpoint(endpoints) < |endpoints| then
      EndpointError(endpoints[FirstBadEndpoint(endpoints)])
    else
      assert forall m :: m in models ==> WellFormedModel(m);
      assert forall e :: e in endpoints ==> WellFormedEndpoint(e);
      None
  }

  /** No required field is missing exactly when every one of them is present. */
  lemma NoneMissing(spec: Json)
    ensures MissingField(spec, 0).None? <==> forall f :: f in RequiredFields ==> Present(Get(spec, f))
  {
    if MissingField(spec, 0).None? {
      forall f | f in RequiredFields ensures Present(Get(spec, f)) {
        var k :| 0 <= k < |RequiredFields| && RequiredFields[k] == f;
      }
    }
  }

  /**
   * `validate`: None when the spec passes, otherwise the message of the
   * error it throws. The checks run in a fixed order and the first failing
   * one decides the message.
   */
  function Validate(spec: Json): (r: Option<string>)
    ensures r.None? <==> WellFormed(spec)
    ensures spec.JNull? ==> r == Some(NullReadError("app_name"))
    ensures !spec.JNull? && MissingField(spec, 0).Some? ==>
      r == Some("Planner output missing required field: " + MissingField(spec, 0).value)
    ensures MissingField(spec, 0).None? && Get(spec, "models") == Some(JArr([])) ==>
      r == Some("Planner must generate at least one model")
    ensures MissingField(spec, 0).None? && IsArray(Get(spec, "models"))
            && |Items(spec, "models")| > MaxModels ==>
      r == Some("Too many models (" + NatToString(|Items(spec, "models")|) + "). Maximum is 6.")
  {
    NoneMissing(spec);
    if spec.JNull? then Some(NullReadError(RequiredFields[0]))
    else if MissingField(spec, 0).Some? then
      Some("Planner output missing required field: " + MissingField(spec, 0).value)
    else ShapeError(spec)
  }

  /** A rejected spec is reported with the first missing field, checked in declaration order. */
  lemma MissingFieldIsFirst(spec: Json, k: nat)
    requires !spec.JNull? && k < |RequiredFields|
    requires forall j :: 0 <= j < k ==> Present(Get(spec, RequiredFields[j]))
    requires !Present(Get(spec, RequiredFields[k]))
    ensures Validate(spec) == Some("Planner output missing required field: " + RequiredFields[k])
  {
    var r := MissingField(spec, 0);
    var k' :| 0 <= k' < |RequiredFields| && r.value == RequiredFields[k']
              && !Present(Get(spec, RequiredFields[k']))
              && forall j :: 0 <= j < k' ==> Present(Get(spec, RequiredFields[j]));
    assert k' == k;
  }

  /** What the language model call delivers: a parsed JSON value, or the message it threw. */
  datatype Reply = Parsed(spec: Json) | Threw(message: string)

  /** `runPlanner`'s result object. */
  datatype PlannerResult = Success(spec: Json) | Failure(error: string)

  /** The result `runPlanner` returns for a reply. */
  function PlannerOutcome(reply: Reply): (r: PlannerResult)
    ensures r.Success? <==> reply.Parsed? && WellFormed(reply.spec)
    ensures r.Success? ==> r.spec == reply.spec
    ensures reply.Threw? ==> r == Failure(reply.message)
    ensures reply.Parsed? && r.Failure? ==> Validate(reply.spec) == Some(r.error)
  {
    match reply
    case Threw(message) => Failure(message)
    case Parsed(spec) =>
      match Validate(spec)
      case None => Success(spec)
      case Some(message) => Failure(message)
  }

  /** Only an object has the required fields, so an accepted spec is an object. */
  lemma AcceptedIsObject(reply: Reply)
    requires PlannerOutcome(reply).Success?
    ensures PlannerOutcome(reply).spec.JObj?
  {
    assert RequiredFields[0] == "app_name";
  }

  /** The payload of the success log: counts, and `has_auth` unless it is undefined. */
  function SuccessData(spec: Json): Json {
    var auth := Get(spec, "has_auth");
    JObj([("models", JNum(|Items(spec, "models")|)), ("endpoints", JNum(|Items(spec, "endpoints")|))]
         + (if auth.Some? then [("has_auth", auth.value)] else []))
  }

  /** The log lines `runPlanner` writes for a reply. */
  function PlannerLog(reply: Reply): (lines: seq<LogLine>)
    ensures |lines| == 2 && lines[0].stage == lines[1].stage == "planner"
    ensures lines[1].status == (if PlannerOutcome(reply).Success? then "success" else "error")
  {
    [LogLine("planner", "running", "Starting planner agent", JNull)]
    + match PlannerOutcome(reply)
      case Success(spec) => [LogLine("planner", "success", "Spec generated successfully", SuccessData(spec))]
      case Failure(error) => [LogLine("planner", "error", "Planner failed: " + error, JNull)]
  }

  /** `runPlanner`: logs the start, then the verdict, and returns the result object. */
  method RunPlanner(store: Store, projectId: string, reply: Reply) returns (result: PlannerResult)
    requires store.Valid() && projectId in store.projects
    modifies store`logs, store`nextLogId
    ensures store.Valid()
    ensures result == PlannerOutcome(reply)
    ensures store.logs == old(store.logs) + Entries(old(store.nextLogId), projectId, PlannerLog(reply), store.clock)
    ensures store.nextLogId == old(store.nextLogId) + 2
  {
    var lines := PlannerLog(reply);
    store.AddLogs(projectId, lines);
    result := PlannerOutcome(reply);
  }
}
