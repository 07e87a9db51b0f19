/**
 The values a fuzz run works on, and the world it runs against.

 The server is an unknown stream of replies, indexed by the number of requests already sent: every
 adaptive server, on one run, answers with some such stream, so a claim about all streams is a claim
 about all servers.  URL parsing, variable substitution and mutation generation are unknown functions.
 */
module FuzzModel {
  import opened Wrappers
  import opened Text
  import Json

  type Bytes = string

  datatype Error =
    | InvalidLimit | InvalidIdentity | InvalidWorkflow | Oversized | MutationFailed
    | PacingCanceled | UnknownIdentity | CaptureFailed

  datatype Operation = Operation(verb: string, url: string, contentType: string, requestBody: Bytes)

  datatype Mutation = Mutation(name: string, category: string, url: string, body: Bytes)

  /** `wellFormed` stands for the checks on a step's name, URL, sizes, headers, statuses and captures. */
  datatype WorkflowStep = WorkflowStep(
    name: string, verb: string, url: string, identity: string, body: Bytes, expectStatus: seq<int>,
    captures: bool, verifySideEffect: bool, wellFormed: bool)

  datatype Workflow = Workflow(name: string, steps: seq<WorkflowStep>)

  datatype Identity = Identity(name: string, headers: map<string, string>)

  /** What the caller asks for; a zero asks for the default. The delay is in milliseconds. */
  datatype Options = Options(
    maxRequests: int, delay: int, maxCases: int, maxResponseBytes: int, maxStoredBytes: int,
    acceptRisk: bool, responseGuided: bool, maxGuidedRetries: int,
    continueOnTargetError: bool, identities: seq<Identity>, workflows: seq<Workflow>)

  /** What identifies a request for de-duplication. */
  datatype Fingerprint = Fingerprint(verb: string, url: string, identity: string, body: Bytes)

  datatype BaselineKey = BaselineKey(verb: string, url: string, identity: string)

  datatype PlannedProbe = PlannedProbe(
    verb: string, targetURL: string, baselineURL: string, body: Bytes, contentType: string,
    caseName: string, category: string, identity: string, guidedDepth: nat, guidedRoot: Fingerprint,
    guidedFromFailure: bool, baselineKey: BaselineKey, qualifiesBaseline: bool, requiresBaseline: bool)
  {
    function Print(): Fingerprint {
      Fingerprint(verb, targetURL, identity, body)
    }
  }

  /** The body as far as the run looks at it: its JSON value if it decodes, and whether it is blank. */
  datatype Body = Body(decoded: Option<Json.Value>, blank: bool)

  /** What response analysis makes of a reply.  A repair rewrites the URL or the body of the probe. */
  datatype Decision = NoHint | Repair(url: string, body: Bytes, contentType: string, cause: string) | Unresolved

  datatype Reply = Reply(
    failed: bool, status: int, remaining: Option<int>, originFailure: bool, body: Body,
    decision: Decision, assertionsHold: bool, captured: Option<map<string, string>>)

  /** A recorded probe: what was sent and what came back. */
  datatype Exchange = Exchange(plan: PlannedProbe, reply: Reply)

  datatype World = World(
    generate: Operation -> Result<seq<Mutation>, Error>,
    origin: string -> Option<string>,
    substitute: (string, map<string, string>) -> string,
    server: nat -> Reply,
    canceled: nat -> bool)

  const MAXIMUM_REQUESTS := 50_000
  const MAXIMUM_BASELINE_BYTES := 1024 * 1024
  const MAXIMUM_URL_BYTES := 8 * 1024
  const MAXIMUM_ORIGIN_ERRORS := 3
  const MINIMUM_DELAY := 100
  const ONE_HOUR := 3_600_000
  const MAXIMUM_RESPONSE_BYTES := 0x4000_0000

  predicate StateChanging(verb: string) {
    ToUpper(verb) !in {"GET", "HEAD", "OPTIONS", "QUERY"}
  }

  predicate IDORCategory(category: string) {
    category == "idor" || category == "idor_range"
  }

  predicate RateLimited(reply: Reply) {
    reply.status == 429 || (reply.remaining.Some? && reply.remaining.value <= 1)
  }

  predicate Success(status: int) {
    200 <= status < 300
  }

  predicate ExpectedStatus(expected: seq<int>, actual: int) {
    if expected == [] then Success(actual) else actual in expected
  }

  /** A baseline that object-identifier probes may be compared with. */
  ghost predicate Qualifies(reply: Reply) {
    && !reply.failed
    && Success(reply.status)
    && reply.body.decoded.Some?
    && Json.ObjectData(reply.body.decoded.value)
  }

  ghost predicate ApplicationFailure(reply: Reply) {
    || reply.failed
    || reply.status >= 400
    || (reply.body.decoded.Some? && Json.FailureEnvelope(reply.body.decoded.value))
  }

  ghost predicate SuccessfulData(reply: Reply) {
    && !reply.failed
    && Success(reply.status)
    && match reply.body.decoded
       case None => !reply.body.blank
       case Some(v) => !Json.FailureEnvelope(v) && Json.Leaves(v) >= 1
  }

  /** Normalized options: what planning and running both start from. */
  datatype Config = Config(
    maxRequests: nat, acceptRisk: bool, responseGuided: bool, maxGuidedRetries: nat,
    continueOnTargetError: bool, identities: seq<string>, workflows: seq<Workflow>)
  {
    predicate Valid() {
      && 1 <= maxRequests <= MAXIMUM_REQUESTS
      && maxGuidedRetries <= 4
      && identities != []
      && forall k :: 0 <= k < |workflows| ==> Accepts(workflows[k])
    }

    predicate Accepts(workflow: Workflow) {
      && TrimSpace(workflow.name) != ""
      && workflow.steps != []
      && forall i :: 0 <= i < |workflow.steps| ==> StepAccepted(workflow.steps[i])
    }

    predicate StepAccepted(step: WorkflowStep) {
      step.wellFormed && (step.identity == "" || step.identity in identities)
    }

    /** The retries one planned probe may start. */
    function Retries(): nat {
      if responseGuided then maxGuidedRetries else 0
    }

    predicate Refuses(verb: string) {
      StateChanging(verb) && !acceptRisk
    }
  }

  // ----- Normalizing -----

  function OrDefault(value: int, default: int): int {
    if value == 0 then default else value
  }

  /** The numbers of a run, with the defaults filled in. */
  datatype Numbers = Numbers(requests: int, delay: int, cases: int, responseBytes: int, storedBytes: int, retries: int)

  function NumbersOf(options: Options): Numbers {
    Numbers(OrDefault(options.maxRequests, 200), OrDefault(options.delay, 500), OrDefault(options.maxCases, 8),
            OrDefault(options.maxResponseBytes, 1024 * 1024), OrDefault(options.maxStoredBytes, 64 * 1024),
            if options.responseGuided then OrDefault(options.maxGuidedRetries, 2) else options.maxGuidedRetries)
  }

  predicate WithinLimits(numbers: Numbers) {
    && 1 <= numbers.requests <= MAXIMUM_REQUESTS
    && MINIMUM_DELAY <= numbers.delay <= ONE_HOUR
    && 1 <= numbers.responseBytes <= MAXIMUM_RESPONSE_BYTES
    && 1 <= numbers.storedBytes <= numbers.responseBytes
    && 0 <= numbers.retries <= 4
  }

  method NormalizeOptions(options: Options) returns (r: Result<Numbers, Error>)
    ensures r == if WithinLimits(NumbersOf(options)) then Ok(NumbersOf(options)) else Err(InvalidLimit)
  {
    var requests, delay, cases := options.maxRequests, options.delay, options.maxCases;
    var responseBytes, storedBytes := options.maxResponseBytes, options.maxStoredBytes;
    var retries := options.maxGuidedRetries;
    if requests == 0 {
      requests := 200;
    }
    if requests < 1 || requests > MAXIMUM_REQUESTS {
      return Err(InvalidLimit);
    }
    if delay == 0 {
      delay := 500;
    }
    if delay < MINIMUM_DELAY || delay > ONE_HOUR {
      return Err(InvalidLimit);
    }
    if cases == 0 {
      cases := 8;
    }
    if responseBytes == 0 {
      responseBytes := 1024 * 1024;
    }
    if responseBytes < 1 || responseBytes > MAXIMUM_RESPONSE_BYTES {
      return Err(InvalidLimit);
    }
    if storedBytes == 0 {
      storedBytes := 64 * 1024;
    }
    if storedBytes < 1 || storedBytes > responseBytes {
      return Err(InvalidLimit);
    }
    if options.responseGuided && retries == 0 {
      retries := 2;
    }
    if retries < 0 || retries > 4 {
      return Err(InvalidLimit);
    }
    return Ok(Numbers(requests, delay, cases, responseBytes, storedBytes, retries));
  }

  /** A header that would break the request: no name, or a line break in it. */
  predicate BadHeader(name: string, value: string) {
    TrimSpace(name) == "" || '\r' in name + value || '\n' in name + value
  }

  ghost predicate GoodHeaders(headers: map<string, string>) {
    forall name :: name in headers ==> !BadHeader(name, headers[name])
  }

  /** Looks at the headers in any order. */
  method CheckHeaders(headers: map<string, string>) returns (good: bool)
    ensures good == GoodHeaders(headers)
  {
    var rest := headers.Keys;
    while rest != {}
      invariant rest <= headers.Keys
      invariant forall name :: name in headers && name !in rest ==> !BadHeader(name, headers[name])
    {
      var name :| name in rest;
      if BadHeader(name, headers[name]) {
        return false;
      }
      rest := rest - {name};
    }
    return true;
  }

  /** An earlier name is the same once trimmed. */
  predicate Repeats(identities: seq<Identity>, i: nat)
    requires i < |identities|
  {
    exists j :: 0 <= j < i && TrimSpace(identities[j].name) == TrimSpace(identities[i].name)
  }

  /** Named, not named like an earlier one, and with headers that can be sent. */
  ghost predicate GoodIdentity(identities: seq<Identity>, i: nat)
    requires i < |identities|
  {
    TrimSpace(identities[i].name) != "" && !Repeats(identities, i) && GoodHeaders(identities[i].headers)
  }

  ghost predicate GoodIdentities(identities: seq<Identity>) {
    forall i :: 0 <= i < |identities| ==> GoodIdentity(identities, i)
  }

  /** The names of a run's identities; without any there is an anonymous one. */
  function Names(identities: seq<Identity>): seq<string> {
    if identities == [] then ["anonymous"]
    else seq(|identities|, i requires 0 <= i < |identities| => TrimSpace(identities[i].name))
  }

  /** Accepts exactly identities that are all good. */
  method NormalizeIdentities(identities: seq<Identity>) returns (r: Result<seq<string>, Error>)
    ensures r == if GoodIdentities(identities) then Ok(Names(identities)) else Err(InvalidIdentity)
  {
    if identities == [] {
      return Ok(["anonymous"]);
    }
    var seen: set<string> := {};
    var result: seq<string> := [];
    for index := 0 to |identities|
      invariant |result| == index
      invariant forall i :: 0 <= i < index ==> result[i] == TrimSpace(identities[i].name)
      invariant forall name :: name in seen <==> exists i :: 0 <= i < index && TrimSpace(identities[i].name) == name
      invariant forall i :: 0 <= i < index ==> GoodIdentity(identities, i)
    {
      var name := TrimSpace(identities[index].name);
      if name == "" || name in seen {
        assert !GoodIdentity(identities, index);
        return Err(InvalidIdentity);
      }
      seen := seen + {name};
      var good := CheckHeaders(identities[index].headers);
      if !good {
        assert !GoodIdentity(identities, index);
        return Err(InvalidIdentity);
      }
      result := result + [name];
    }
    assert result == Names(identities);
    return Ok(result);
  }

  /** Distinct names, none of them blank. */
  lemma NamesAreGood(identities: seq<Identity>)
    requires GoodIdentities(identities)
    ensures Names(identities) != [] && "" !in Names(identities)
    ensures forall i, j :: 0 <= i < j < |Names(identities)| ==> Names(identities)[i] != Names(identities)[j]
  {
    if identities != [] {
      forall i | 0 <= i < |identities|
        ensures Names(identities)[i] != ""
        ensures forall k :: 0 <= k < i ==> Names(identities)[k] != Names(identities)[i]
      {
        assert GoodIdentity(identities, i);
      }
    }
  }

  function Filled(options: Options): Config
    requires WithinLimits(NumbersOf(options))
  {
    Config(NumbersOf(options).requests, options.acceptRisk, options.responseGuided, NumbersOf(options).retries,
           options.continueOnTargetError, Names(options.identities), options.workflows)
  }

  ghost predicate Acceptable(options: Options) {
    && WithinLimits(NumbersOf(options))
    && GoodIdentities(options.identities)
    && forall k :: 0 <= k < |options.workflows| ==> Filled(options).Accepts(options.workflows[k])
  }

  method ValidateWorkflow(cfg: Config, workflow: Workflow) returns (valid: bool)
    ensures valid == cfg.Accepts(workflow)
  {
    if TrimSpace(workflow.name) == "" || workflow.steps == [] {
      return false;
    }
    for i := 0 to |workflow.steps|
      invariant forall j :: 0 <= j < i ==> cfg.StepAccepted(workflow.steps[j])
    {
      if !cfg.StepAccepted(workflow.steps[i]) {
        return false;
      }
    }
    return true;
  }

  /** Fills in the defaults and checks everything before anything is planned or sent. */
  method Normalize(options: Options) returns (r: Result<Config, Error>)
    ensures r.Ok? <==> Acceptable(options)
    ensures r.Ok? ==> r.value == Filled(options) && r.value.Valid()
  {
    var numbers := NormalizeOptions(options);
    if numbers.Err? {
      return Err(numbers.error);
    }
    var names := NormalizeIdentities(options.identities);
    if names.Err? {
      return Err(names.error);
    }
    var cfg := Config(numbers.value.requests, options.acceptRisk, options.responseGuided, numbers.value.retries,
                      options.continueOnTargetError, names.value, options.workflows);
    NamesAreGood(options.identities);
    for k := 0 to |options.workflows|
      invariant forall j :: 0 <= j < k ==> cfg.Accepts(options.workflows[j])
    {
      var valid := ValidateWorkflow(cfg, options.workflows[k]);
      if !valid {
        return Err(InvalidWorkflow);
      }
    }
    return Ok(cfg);
  }
}
