/** The exported `trigger` of action.js (lines 63-129): validate the required
    parameters, read and mask the credentials, build the token, then fetch the
    workflow, resolve the branch to a git reference under `retry`, start the
    build and set the outputs. Any error stops the run, is reported through
    `setFailed` with a "❌ " prefix, and is rethrown.

    The Actions host, the clock, the signer and the App Store Connect client
    are oracles (`Host`). Every call into `core` and into the client is an
    `Event` in the trace the run returns; reading the clock and calling the
    signer leave none. */
module Trigger {
  import opened Results
  import opened Errors
  import opened AscToken
  import opened Retrying

  const WorkflowIdParam: string := "xcodeCloudWorkflowId"
  const BranchNameParam: string := "gitBranchName"
  /** The retry policy of the git-reference lookup (action.js:99). */
  const LookupRetries: nat := 2
  const LookupDelayMs: nat := 700
  /** What `setFailed` is given before the error's message. */
  const FailurePrefix: string := "❌ "

  datatype Repository = Repository(id: string, owner: string, name: string)
  datatype WorkflowInfo = WorkflowInfo(repository: Repository)
  /** The `{ id, number }` of a created build. */
  datatype Build = Build(id: string, number: int)
  /** The record `trigger` returns. */
  datatype BuildResult = BuildResult(buildId: string, buildNumber: int, gitReferenceId: string)

  /** The App Store Connect client as scripted responses. `getGitReference`
      also receives the attempt number, so that successive lookups of the
      same reference can answer differently. */
  datatype Client = Client(
    getWorkflow: string -> Result<WorkflowInfo, Error>,
    getGitReference: (string, string, nat) -> Result<string, Error>,
    createBuild: (string, string) -> Result<Build, Error>)

  /** What the run sees of the world: the values `core.getInput` returns,
      the clock (`Date.now()`), the ES256 signer (`jwt.sign`) and the client. */
  datatype Host = Host(
    inputs: map<string, string>,
    nowMs: int,
    sign: SigningInput -> Result<string, Error>,
    client: Client)

  datatype OutputValue = Text(text: string) | Number(number: int)

  datatype Event =
    | GetInput(name: string)
    | SetSecret(secret: string)
    | Info
    | GetWorkflow(workflowId: string)
    | GetGitReference(repositoryId: string, branchName: string)
    | Delay(ms: nat)
    | CreateBuild(workflowId: string, gitReferenceId: string)
    | SetOutput(name: string, value: OutputValue)
    | SetFailed(message: string)

  /** The outcome of one run: what is returned or thrown, and the trace. */
  datatype Run = Run(result: Result<BuildResult, Error>, trace: seq<Event>)

  predicate IsRemote(e: Event) {
    e.GetWorkflow? || e.GetGitReference? || e.Delay? || e.CreateBuild?
  }

  /** The events whose relative order the source fixes: secret masking and remote calls. */
  predicate IsEffect(e: Event) {
    e.SetSecret? || IsRemote(e)
  }

  predicate IsOutput(e: Event) {
    e.SetOutput?
  }

  predicate IsFailureReport(e: Event) {
    e.SetFailed?
  }

  /** The views of a trace that the lemmas below speak about. */
  datatype View = Effects | RemoteCalls | OutputsSet | FailureReports

  predicate Shows(v: View, e: Event) {
    match v
    case Effects => IsEffect(e)
    case RemoteCalls => IsRemote(e)
    case OutputsSet => IsOutput(e)
    case FailureReports => IsFailureReport(e)
  }

  /** The events of t that view v shows, in order. */
  function Filter(t: seq<Event>, v: View): seq<Event>
  {
    if t == [] then []
    else (if Shows(v, t[0]) then [t[0]] else []) + Filter(t[1..], v)
  }

  /** `!params[name]` is false: the parameter is present and not empty. */
  predicate Truthy(params: map<string, string>, name: string) {
    name in params && params[name] != ""
  }

  /** `params[name]`, with an absent parameter read as the empty string. */
  function Param(params: map<string, string>, name: string): string {
    if name in params then params[name] else ""
  }

  /** `core.getInput(name)`: the empty string for an input that is not set. */
  function Input(inputs: map<string, string>, name: string): string {
    if name in inputs then inputs[name] else ""
  }

  /** `readEnvCredentials` (action.js:11-17). */
  function ReadCredentials(inputs: map<string, string>): Credentials {
    Credentials(Input(inputs, "keyId"), Input(inputs, "issuerId"), Input(inputs, "key"))
  }

  const CredentialReads: seq<Event> := [GetInput("keyId"), GetInput("issuerId"), GetInput("key")]

  /** `if (key) core.setSecret(key)`. */
  function KeyMask(key: string): seq<Event> {
    if key != "" then [SetSecret(key)] else []
  }

  /** The index of the first required parameter that is falsy, or |required|
      when there is none. */
  function FirstFalsy(required: seq<string>, params: map<string, string>): (i: nat)
    ensures i <= |required|
    ensures forall j :: 0 <= j < i ==> Truthy(params, required[j])
    ensures i < |required| ==> !Truthy(params, required[i])
  {
    if |required| == 0 then 0
    else if !Truthy(params, required[0]) then 0
    else 1 + FirstFalsy(required[1..], params)
  }

  /** `() => client.getGitReference(repository.id, branchName)` as a script of attempts. */
  function LookupOp(client: Client, repositoryId: string, branchName: string): nat -> Result<string, Error> {
    (n: nat) => client.getGitReference(repositoryId, branchName, n)
  }

  /** The retry trace of the lookup, as host events. */
  function Lift(steps: seq<Step>, repositoryId: string, branchName: string): (t: seq<Event>)
    ensures |t| == |steps|
    ensures forall i :: 0 <= i < |steps| ==>
      t[i] == if steps[i].Call? then GetGitReference(repositoryId, branchName) else Delay(steps[i].ms)
  {
    if steps == [] then []
    else
      [if steps[0].Call? then GetGitReference(repositoryId, branchName) else Delay(steps[0].ms)]
      + Lift(steps[1..], repositoryId, branchName)
  }

  /** The three `core.setOutput` calls of a successful run. */
  function Outputs(b: BuildResult): seq<Event> {
    [SetOutput("build_id", Text(b.buildId)),
     SetOutput("build_number", Number(b.buildNumber)),
     SetOutput("git_reference_id", Text(b.gitReferenceId))]
  }

  /** The `try` block of `trigger`: what it returns or throws, and the trace
      up to that point. Validation comes first and touches nothing. */
  function Body(required: seq<string>, params: map<string, string>, host: Host): Run {
    var i := FirstFalsy(required, params);
    if i < |required| then Run(Err(RequiredParameterMissing(required[i])), [])
    else Authenticate(params, host)
  }

  /** Read the credentials, mask the key, build and mask the token. */
  function Authenticate(params: map<string, string>, host: Host): Run {
    var creds := ReadCredentials(host.inputs);
    var t := CredentialReads + KeyMask(creds.privateKey);
    match GenerateAscJwt(creds, host.nowMs, host.sign)
    case Err(e) => Run(Err(e), t)
    case Ok(token) => FetchWorkflow(params, host.client, t + [SetSecret(token)] + [Info])
  }

  /** `client.getWorkflow(workflowId)`, once, with no retry. */
  function FetchWorkflow(params: map<string, string>, client: Client, t: seq<Event>): Run {
    var workflowId := Param(params, WorkflowIdParam);
    var t' := t + [GetWorkflow(workflowId)];
    match client.getWorkflow(workflowId)
    case Err(e) => Run(Err(e), t')
    case Ok(info) =>
      ResolveReference(workflowId, Param(params, BranchNameParam), info.repository.id, client, t' + [Info] + [Info])
  }

  /** `retry(() => client.getGitReference(repository.id, branchName), { retries: 2, delayMs: 700 })`. */
  function ResolveReference(workflowId: string, branchName: string, repositoryId: string, client: Client, t: seq<Event>): Run {
    var op := LookupOp(client, repositoryId, branchName);
    var k := Settled(op, LookupRetries, 0);
    var t' := t + Lift(Attempts(k + 1, LookupDelayMs), repositoryId, branchName);
    match op(k)
    case Err(e) => Run(Err(e), t')
    case Ok(referenceId) => StartBuild(workflowId, referenceId, client, t' + [Info])
  }

  /** `client.createBuild(workflowId, referenceId)`, once, then the outputs. */
  function StartBuild(workflowId: string, referenceId: string, client: Client, t: seq<Event>): Run {
    var t' := t + [CreateBuild(workflowId, referenceId)];
    match client.createBuild(workflowId, referenceId)
    case Err(e) => Run(Err(e), t')
    case Ok(build) =>
      var result := BuildResult(build.id, build.number, referenceId);
      Run(Ok(result), t' + [Info] + Outputs(result))
  }

  /** `trigger`: the `try` block followed by its `catch`. */
  function TriggerSpec(required: seq<string>, params: map<string, string>, host: Host): Run {
    var run := Body(required, params, host);
    match run.result
    case Ok(_) => run
    case Err(e) => Run(Err(e), run.trace + [SetFailed(FailurePrefix + Message(e))])
  }

  /** The `try` block of `trigger`, step by step; each `:-` is a throw. */
  method RunSteps(required: seq<string>, params: map<string, string>, host: Host)
    returns (r: Result<BuildResult, Error>, trace: seq<Event>)
    ensures Run(r, trace) == Body(required, params, host)
  {
    // the validation loop: `Body`
    trace := [];
    var i := 0;
    while i < |required|
      invariant 0 <= i <= |required|
      invariant forall j :: 0 <= j < i ==> Truthy(params, required[j])
    {
      if !Truthy(params, required[i]) {
        assert FirstFalsy(required, params) == i;
        r := Err(RequiredParameterMissing(required[i]));
        return;
      }
      i := i + 1;
    }
    assert Body(required, params, host) == Authenticate(params, host);

    // credentials and token: `Authenticate`
    var creds := ReadCredentials(host.inputs);
    trace := CredentialReads;
    if creds.privateKey != "" {
      trace := trace + [SetSecret(creds.privateKey)];
    }
    assert trace == CredentialReads + KeyMask(creds.privateKey);
    var token :- GenerateAscJwt(creds, host.nowMs, host.sign);
    trace := trace + [SetSecret(token)];

    trace := trace + [Info];
    assert Body(required, params, host) == FetchWorkflow(params, host.client, trace);
    // `FetchWorkflow`
    var workflowId := Param(params, WorkflowIdParam);
    trace := trace + [GetWorkflow(workflowId)];
    var info :- host.client.getWorkflow(workflowId);
    trace := trace + [Info];

    // the lookup under `retry`: `ResolveReference`
    var branchName := Param(params, BranchNameParam);
    trace := trace + [Info];
    assert Body(required, params, host) == ResolveReference(workflowId, branchName, info.repository.id, host.client, trace);
    var lookup, steps := Retry(LookupOp(host.client, info.repository.id, branchName), LookupRetries, LookupDelayMs);
    trace := trace + Lift(steps, info.repository.id, branchName);
    var referenceId :- lookup;

    trace := trace + [Info];
    assert Body(required, params, host) == StartBuild(workflowId, referenceId, host.client, trace);
    // `StartBuild`
    trace := trace + [CreateBuild(workflowId, referenceId)];
    var build :- host.client.createBuild(workflowId, referenceId);
    trace := trace + [Info];

    var result := BuildResult(build.id, build.number, referenceId);
    trace := trace + Outputs(result);
    r := Ok(result);
  }

  /** `trigger`: on success the outputs are set exactly once each; on any
      error the outputs are not set, `setFailed` is called once, last, with
      the prefixed message, and the error is rethrown. */
  method Trigger(required: seq<string>, params: map<string, string>, host: Host)
    returns (r: Result<BuildResult, Error>, trace: seq<Event>)
    ensures Run(r, trace) == TriggerSpec(required, params, host)
    ensures r.Err? ==> |trace| > 0 && trace[|trace| - 1] == SetFailed(FailurePrefix + Message(r.error))
    ensures Filter(trace, FailureReports) == if r.Err? then [SetFailed(FailurePrefix + Message(r.error))] else []
    ensures Filter(trace, OutputsSet) == if r.Ok? then Outputs(r.value) else []
  {
    // the `try` block, then the `catch` of `TriggerSpec`
    r, trace := RunSteps(required, params, host);
    if r.Err? {
      trace := trace + [SetFailed(FailurePrefix + Message(r.error))];
    }
    TriggerReports(required, params, host);
  }

  lemma {:induction false} FilterConcat(a: seq<Event>, b: seq<Event>, v: View)
    ensures Filter(a + b, v) == Filter(a, v) + Filter(b, v)
    decreases |a|
  {
    if a == [] {
      assert a + b == b;
    } else {
      var head := if Shows(v, a[0]) then [a[0]] else [];
      assert (a + b)[0] == a[0];
      assert (a + b)[1..] == a[1..] + b;
      FilterConcat(a[1..], b, v);
      calc {
        Filter(a + b, v);
        head + Filter(a[1..] + b, v);
        head + (Filter(a[1..], v) + Filter(b, v));
        (head + Filter(a[1..], v)) + Filter(b, v);
      }
    }
  }

  lemma {:induction false} FilterNone(t: seq<Event>, v: View)
    requires forall i :: 0 <= i < |t| ==> !Shows(v, t[i])
    ensures Filter(t, v) == []
    decreases |t|
  {
    if t != [] {
      FilterNone(t[1..], v);
    }
  }

  lemma {:induction false} FilterAll(t: seq<Event>, v: View)
    requires forall i :: 0 <= i < |t| ==> Shows(v, t[i])
    ensures Filter(t, v) == t
    decreases |t|
  {
    if t != [] {
      FilterAll(t[1..], v);
      assert [t[0]] + t[1..] == t;
    }
  }

  /** No output is set and no failure is reported in t. */
  predicate Quiet(t: seq<Event>) {
    forall i :: 0 <= i < |t| ==> !IsOutput(t[i]) && !IsFailureReport(t[i])
  }

  /** A stage's run sets the outputs last, and only when it succeeds. */
  predicate OutputsLast(run: Run) {
    if run.result.Ok? then
      |run.trace| >= 3 && Quiet(run.trace[..|run.trace| - 3]) && run.trace[|run.trace| - 3..] == Outputs(run.result.value)
    else Quiet(run.trace)
  }

  lemma StartBuildOutputsLast(workflowId: string, referenceId: string, client: Client, t: seq<Event>)
    requires Quiet(t)
    ensures OutputsLast(StartBuild(workflowId, referenceId, client, t))
  {
    var run := StartBuild(workflowId, referenceId, client, t);
    if run.result.Ok? {
      var n := |run.trace|;
      assert run.trace[..n - 3] == t + [CreateBuild(workflowId, referenceId), Info];
    }
  }

  lemma ResolveReferenceOutputsLast(workflowId: string, branchName: string, repositoryId: string, client: Client, t: seq<Event>)
    requires Quiet(t)
    ensures OutputsLast(ResolveReference(workflowId, branchName, repositoryId, client, t))
  {
    var op := LookupOp(client, repositoryId, branchName);
    var k := Settled(op, LookupRetries, 0);
    var t' := t + Lift(Attempts(k + 1, LookupDelayMs), repositoryId, branchName);
    assert Quiet(t');
    if op(k).Ok? {
      StartBuildOutputsLast(workflowId, op(k).value, client, t' + [Info]);
    }
  }

  lemma BodyOutputsLast(required: seq<string>, params: map<string, string>, host: Host)
    ensures OutputsLast(Body(required, params, host))
  {
    if FirstFalsy(required, params) == |required| {
      var creds := ReadCredentials(host.inputs);
      var t := CredentialReads + KeyMask(creds.privateKey);
      var jwt := GenerateAscJwt(creds, host.nowMs, host.sign);
      if jwt.Ok? {
        var t1 := t + [SetSecret(jwt.value)] + [Info];
        assert Quiet(t1);
        var workflowId := Param(params, WorkflowIdParam);
        var t2 := t1 + [GetWorkflow(workflowId)];
        var fetched := host.client.getWorkflow(workflowId);
        if fetched.Ok? {
          ResolveReferenceOutputsLast(workflowId, Param(params, BranchNameParam),
            fetched.value.repository.id, host.client, t2 + [Info] + [Info]);
        }
      }
    }
  }

  /** The try block never calls `setFailed`, and sets outputs only when it succeeds. */
  lemma BodyReports(required: seq<string>, params: map<string, string>, host: Host)
    ensures var run := Body(required, params, host);
      Filter(run.trace, FailureReports) == [] &&
      Filter(run.trace, OutputsSet) == if run.result.Ok? then Outputs(run.result.value) else []
  {
    var run := Body(required, params, host);
    BodyOutputsLast(required, params, host);
    if run.result.Ok? {
      var n := |run.trace|;
      var quiet, outputs := run.trace[..n - 3], Outputs(run.result.value);
      assert run.trace == quiet + outputs;
      FilterConcat(quiet, outputs, OutputsSet);
      FilterConcat(quiet, outputs, FailureReports);
      FilterNone(quiet, OutputsSet);
      FilterNone(quiet, FailureReports);
      FilterNone(outputs, FailureReports);
      FilterAll(outputs, OutputsSet);
    } else {
      FilterNone(run.trace, OutputsSet);
      FilterNone(run.trace, FailureReports);
    }
  }

  /** What `trigger` reports: on success the three outputs and no failure; on
      an error no outputs and exactly one `setFailed`, the last event, with
      the prefixed message of the rethrown error. */
  lemma TriggerReports(required: seq<string>, params: map<string, string>, host: Host)
    ensures var run := TriggerSpec(required, params, host);
      && (run.result.Err? ==> |run.trace| > 0 && run.trace[|run.trace| - 1] == SetFailed(FailurePrefix + Message(run.result.error)))
      && Filter(run.trace, FailureReports) == (if run.result.Err? then [SetFailed(FailurePrefix + Message(run.result.error))] else [])
      && Filter(run.trace, OutputsSet) == (if run.result.Ok? then Outputs(run.result.value) else [])
  {
    var body := Body(required, params, host);
    BodyReports(required, params, host);
    if body.result.Err? {
      var report := [SetFailed(FailurePrefix + Message(body.result.error))];
      FilterConcat(body.trace, report, FailureReports);
      FilterConcat(body.trace, report, OutputsSet);
    }
  }

  /** The lookup's trace: n calls of `getGitReference(repositoryId, branchName)`
      at the even positions, a delay of delayMs at each odd one, a call last. */
  lemma LookupTrace(n: nat, delayMs: nat, repositoryId: string, branchName: string)
    requires n > 0
    ensures var t := Lift(Attempts(n, delayMs), repositoryId, branchName);
      |t| == 2 * n - 1 &&
      (forall i :: 0 <= i < |t| ==> t[i] == if i % 2 == 0 then GetGitReference(repositoryId, branchName) else Delay(delayMs))
  {
    AttemptsShape(n, delayMs);
  }

  /** Appending an event the view shows extends the view by that event. */
  lemma FilterKeep(a: seq<Event>, e: Event, v: View, fa: seq<Event>)
    requires Filter(a, v) == fa && Shows(v, e)
    ensures Filter(a + [e], v) == fa + [e]
  {
    FilterConcat(a, [e], v);
    FilterSingle(e, v);
  }

  /** Appending events the view does not show leaves the view as it is. */
  lemma FilterSkip(a: seq<Event>, b: seq<Event>, v: View, fa: seq<Event>)
    requires Filter(a, v) == fa
    requires forall i :: 0 <= i < |b| ==> !Shows(v, b[i])
    ensures Filter(a + b, v) == fa
  {
    FilterConcat(a, b, v);
    FilterNone(b, v);
    assert fa + [] == fa;
  }

  /** Appending events the view shows all of extends the view by all of them. */
  lemma FilterExtend(a: seq<Event>, b: seq<Event>, v: View, fa: seq<Event>)
    requires Filter(a, v) == fa
    requires forall i :: 0 <= i < |b| ==> Shows(v, b[i])
    ensures Filter(a + b, v) == fa + b
  {
    FilterConcat(a, b, v);
    FilterAll(b, v);
  }

  lemma FilterSingle(e: Event, v: View)
    ensures Filter([e], v) == if Shows(v, e) then [e] else []
  {
    assert [e][1..] == [];
  }

  /** The trace of a run up to the reference lookup, once the token and the
      workflow have been obtained. */
  function FetchedPrefix(inputs: map<string, string>, token: string, workflowId: string): seq<Event> {
    CredentialReads + KeyMask(Input(inputs, "key")) + [SetSecret(token)] + [Info] + [GetWorkflow(workflowId)] + [Info] + [Info]
  }

  /** Once validation, the token and `getWorkflow` have succeeded, the try
      block continues with the reference lookup. */
  lemma BodyReachesLookup(required: seq<string>, params: map<string, string>, host: Host, token: string, info: WorkflowInfo)
    requires FirstFalsy(required, params) == |required|
    requires GenerateAscJwt(ReadCredentials(host.inputs), host.nowMs, host.sign) == Ok(token)
    requires host.client.getWorkflow(Param(params, WorkflowIdParam)) == Ok(info)
    ensures Body(required, params, host) ==
      ResolveReference(Param(params, WorkflowIdParam), Param(params, BranchNameParam), info.repository.id, host.client,
                       FetchedPrefix(host.inputs, token, Param(params, WorkflowIdParam)))
  {
    var t := CredentialReads + KeyMask(Input(host.inputs, "key")) + [SetSecret(token)] + [Info];
    assert Body(required, params, host) == FetchWorkflow(params, host.client, t);
  }

  /** Before the lookup: the key's and the token's masking, then `getWorkflow`;
      of these only `getWorkflow` is a remote call. */
  lemma FetchedPrefixView(inputs: map<string, string>, token: string, workflowId: string, v: View)
    requires v == Effects || v == RemoteCalls
    ensures Filter(FetchedPrefix(inputs, token, workflowId), v) ==
      if v == Effects then KeyMask(Input(inputs, "key")) + [SetSecret(token), GetWorkflow(workflowId)]
      else [GetWorkflow(workflowId)]
  {
    var key := KeyMask(Input(inputs, "key"));
    var fetch := GetWorkflow(workflowId);
    var masked := if v == Effects then key + [SetSecret(token)] else [];
    var t := CredentialReads + key + [SetSecret(token)];
    assert Filter(t, v) == masked by {
      FilterNone(CredentialReads, v);
      if v == Effects {
        FilterExtend(CredentialReads, key, v, []);
        assert [] + key == key;
        FilterKeep(CredentialReads + key, SetSecret(token), v, key);
      } else {
        FilterSkip(CredentialReads, key, v, []);
        FilterSkip(CredentialReads + key, [SetSecret(token)], v, []);
      }
    }
    assert Filter(FetchedPrefix(inputs, token, workflowId), v) == masked + [fetch] by {
      FilterSkip(t, [Info], v, masked);
      FilterKeep(t + [Info], fetch, v, masked);
      FilterSkip(t + [Info] + [fetch], [Info], v, masked + [fetch]);
      FilterSkip(t + [Info] + [fetch] + [Info], [Info], v, masked + [fetch]);
    }
    assert masked + [fetch] == if v == Effects then key + [SetSecret(token), fetch] else [fetch];
  }

  /** A falsy required parameter fails the run with an error naming the first
      such parameter, before any credential is read, any secret registered or
      any remote call made: `setFailed` is the only event. */
  lemma MissingParameterFailsFast(required: seq<string>, params: map<string, string>, host: Host)
    requires FirstFalsy(required, params) < |required|
    ensures var e := RequiredParameterMissing(required[FirstFalsy(required, params)]);
      TriggerSpec(required, params, host) == Run(Err(e), [SetFailed(FailurePrefix + Message(e))])
  {
  }

  /** A missing credential fails the run with the missing-credentials error
      after the three input reads (and the key's masking, when it is set),
      with no token, no remote call and no output. */
  lemma MissingCredentialsFail(required: seq<string>, params: map<string, string>, host: Host)
    requires FirstFalsy(required, params) == |required|
    requires !HasCredentials(ReadCredentials(host.inputs))
    ensures TriggerSpec(required, params, host) ==
      Run(Err(MissingCredentials),
          CredentialReads + KeyMask(Input(host.inputs, "key")) + [SetFailed(FailurePrefix + MissingCredentialsMessage)])
  {
  }

  /** A signer that throws fails the run with its own error, after the key's
      masking and before the token's: no remote call is made. */
  lemma SigningFails(required: seq<string>, params: map<string, string>, host: Host, e: Error)
    requires FirstFalsy(required, params) == |required|
    requires HasCredentials(ReadCredentials(host.inputs))
    requires host.sign(TokenRequest(ReadCredentials(host.inputs), host.nowMs).value) == Err(e)
    ensures TriggerSpec(required, params, host) ==
      Run(Err(e), CredentialReads + KeyMask(Input(host.inputs, "key")) + [SetFailed(FailurePrefix + Message(e))])
  {
  }

  /** A failed `getWorkflow` is rethrown as it is; the reference is never
      looked up and no build is created. */
  lemma WorkflowFetchFails(required: seq<string>, params: map<string, string>, host: Host, token: string, e: Error)
    requires FirstFalsy(required, params) == |required|
    requires GenerateAscJwt(ReadCredentials(host.inputs), host.nowMs, host.sign) == Ok(token)
    requires host.client.getWorkflow(Param(params, WorkflowIdParam)) == Err(e)
    ensures TriggerSpec(required, params, host) ==
      Run(Err(e), CredentialReads + KeyMask(Input(host.inputs, "key")) +
                  [SetSecret(token), Info, GetWorkflow(Param(params, WorkflowIdParam)), SetFailed(FailurePrefix + Message(e))])
  {
  }


  /** The masking and remote calls up to the end of the lookup. */
  lemma LookupPrefixEffects(inputs: map<string, string>, token: string, workflowId: string, attempts: seq<Event>)
    requires forall i :: 0 <= i < |attempts| ==> IsRemote(attempts[i])
    ensures Filter(FetchedPrefix(inputs, token, workflowId) + attempts, Effects) ==
      KeyMask(Input(inputs, "key")) + [SetSecret(token), GetWorkflow(workflowId)] + attempts
    ensures Filter(FetchedPrefix(inputs, token, workflowId) + attempts, RemoteCalls) ==
      [GetWorkflow(workflowId)] + attempts
  {
    var fetched := FetchedPrefix(inputs, token, workflowId);
    FetchedPrefixView(inputs, token, workflowId, Effects);
    FetchedPrefixView(inputs, token, workflowId, RemoteCalls);
    FilterExtend(fetched, attempts, Effects, KeyMask(Input(inputs, "key")) + [SetSecret(token), GetWorkflow(workflowId)]);
    FilterExtend(fetched, attempts, RemoteCalls, [GetWorkflow(workflowId)]);
  }

  /** After the lookup of a successful run, only `createBuild` is masking or a remote call. */
  lemma SuccessTail(t: seq<Event>, v: View, ft: seq<Event>, build: Event, result: BuildResult)
    requires v == Effects || v == RemoteCalls
    requires build.CreateBuild? && Filter(t, v) == ft
    ensures Filter(t + [Info] + [build] + [Info] + Outputs(result), v) == ft + [build]
  {
    FilterSkip(t, [Info], v, ft);
    FilterKeep(t + [Info], build, v, ft);
    FilterSkip(t + [Info] + [build], [Info], v, ft + [build]);
    FilterSkip(t + [Info] + [build] + [Info], Outputs(result), v, ft + [build]);
  }

  /** After the lookup of a run whose `createBuild` fails, only that call is masking or a remote call. */
  lemma FailedBuildTail(t: seq<Event>, v: View, ft: seq<Event>, build: Event, message: string)
    requires v == Effects || v == RemoteCalls
    requires build.CreateBuild? && Filter(t, v) == ft
    ensures Filter(t + [Info] + [build] + [SetFailed(message)], v) == ft + [build]
  {
    FilterSkip(t, [Info], v, ft);
    FilterKeep(t + [Info], build, v, ft);
    FilterSkip(t + [Info] + [build], [SetFailed(message)], v, ft + [build]);
  }

  /** Once `getWorkflow` has returned and the lookup under `retry` settles
      on attempt k with an error, the run ends with that error right after
      the lookup's calls and delays. */
  lemma LookupFailsRun(required: seq<string>, params: map<string, string>, host: Host, token: string, info: WorkflowInfo,
                       k: nat, e: Error)
    requires FirstFalsy(required, params) == |required|
    requires GenerateAscJwt(ReadCredentials(host.inputs), host.nowMs, host.sign) == Ok(token)
    requires host.client.getWorkflow(Param(params, WorkflowIdParam)) == Ok(info)
    requires k == Settled(LookupOp(host.client, info.repository.id, Param(params, BranchNameParam)), LookupRetries, 0)
    requires host.client.getGitReference(info.repository.id, Param(params, BranchNameParam), k) == Err(e)
    ensures Body(required, params, host) ==
      Run(Err(e), FetchedPrefix(host.inputs, token, Param(params, WorkflowIdParam))
                  + Lift(Attempts(k + 1, LookupDelayMs), info.repository.id, Param(params, BranchNameParam)))
  {
    BodyReachesLookup(required, params, host, token, info);
    assert LookupOp(host.client, info.repository.id, Param(params, BranchNameParam))(k) == Err(e);
  }

  /** Once `getWorkflow` has returned and the lookup under `retry` settles
      on attempt k with a reference, the run goes on to `createBuild` with it. */
  lemma LookupResolvesRun(required: seq<string>, params: map<string, string>, host: Host, token: string, info: WorkflowInfo,
                          k: nat, referenceId: string)
    requires FirstFalsy(required, params) == |required|
    requires GenerateAscJwt(ReadCredentials(host.inputs), host.nowMs, host.sign) == Ok(token)
    requires host.client.getWorkflow(Param(params, WorkflowIdParam)) == Ok(info)
    requires k == Settled(LookupOp(host.client, info.repository.id, Param(params, BranchNameParam)), LookupRetries, 0)
    requires host.client.getGitReference(info.repository.id, Param(params, BranchNameParam), k) == Ok(referenceId)
    ensures Body(required, params, host) ==
      StartBuild(Param(params, WorkflowIdParam), referenceId, host.client,
                 FetchedPrefix(host.inputs, token, Param(params, WorkflowIdParam))
                 + Lift(Attempts(k + 1, LookupDelayMs), info.repository.id, Param(params, BranchNameParam)) + [Info])
  {
    BodyReachesLookup(required, params, host, token, info);
    assert LookupOp(host.client, info.repository.id, Param(params, BranchNameParam))(k) == Ok(referenceId);
  }

  /** Three lookups with 700 ms between them, after `getWorkflow`. */
  lemma ExhaustedCalls(workflowId: string, repositoryId: string, branchName: string)
    ensures var lookup := GetGitReference(repositoryId, branchName);
      [GetWorkflow(workflowId)] + Lift(Attempts(LookupRetries + 1, LookupDelayMs), repositoryId, branchName) ==
      [GetWorkflow(workflowId), lookup, Delay(700), lookup, Delay(700), lookup]
  {
    var lookup := GetGitReference(repositoryId, branchName);
    LookupTrace(3, LookupDelayMs, repositoryId, branchName);
    assert Lift(Attempts(3, LookupDelayMs), repositoryId, branchName) == [lookup, Delay(700), lookup, Delay(700), lookup];
  }

  /** The run when all three lookups fail: the fetched prefix, the three
      lookups and two delays, then the report of the third attempt's error. */
  lemma ExhaustedRun(required: seq<string>, params: map<string, string>, host: Host, token: string, info: WorkflowInfo)
    requires FirstFalsy(required, params) == |required|
    requires GenerateAscJwt(ReadCredentials(host.inputs), host.nowMs, host.sign) == Ok(token)
    requires host.client.getWorkflow(Param(params, WorkflowIdParam)) == Ok(info)
    requires forall n: nat :: n <= 2 ==> host.client.getGitReference(info.repository.id, Param(params, BranchNameParam), n).Err?
    ensures var e := host.client.getGitReference(info.repository.id, Param(params, BranchNameParam), 2).error;
      TriggerSpec(required, params, host) ==
      Run(Err(e), FetchedPrefix(host.inputs, token, Param(params, WorkflowIdParam))
                  + Lift(Attempts(LookupRetries + 1, LookupDelayMs), info.repository.id, Param(params, BranchNameParam))
                  + [SetFailed(FailurePrefix + Message(e))])
  {
    var op := LookupOp(host.client, info.repository.id, Param(params, BranchNameParam));
    RetryExhausted(op, LookupRetries, LookupDelayMs);
    LookupFailsRun(required, params, host, token, info, 2, op(2).error);
  }

  /** When the reference lookup fails on all three attempts, it is called
      three times with two 700 ms delays between, the error of the third
      attempt is rethrown, `createBuild` is never called and no output is set. */
  lemma ReferenceLookupExhausted(required: seq<string>, params: map<string, string>, host: Host, token: string, info: WorkflowInfo)
    requires FirstFalsy(required, params) == |required|
    requires GenerateAscJwt(ReadCredentials(host.inputs), host.nowMs, host.sign) == Ok(token)
    requires host.client.getWorkflow(Param(params, WorkflowIdParam)) == Ok(info)
    requires forall n: nat :: n <= 2 ==> host.client.getGitReference(info.repository.id, Param(params, BranchNameParam), n).Err?
    ensures var run := TriggerSpec(required, params, host);
      var lookup := GetGitReference(info.repository.id, Param(params, BranchNameParam));
      && run.result == Err(host.client.getGitReference(info.repository.id, Param(params, BranchNameParam), 2).error)
      && Filter(run.trace, RemoteCalls) == [GetWorkflow(Param(params, WorkflowIdParam)), lookup, Delay(700), lookup, Delay(700), lookup]
      && Filter(run.trace, OutputsSet) == []
      && run.trace[|run.trace| - 1] == SetFailed(FailurePrefix + Message(run.result.error))
  {
    var workflowId, branchName := Param(params, WorkflowIdParam), Param(params, BranchNameParam);
    var attempts := Lift(Attempts(LookupRetries + 1, LookupDelayMs), info.repository.id, branchName);
    var fetched := FetchedPrefix(host.inputs, token, workflowId);
    var e := host.client.getGitReference(info.repository.id, branchName, 2).error;
    ExhaustedRun(required, params, host, token, info);
    LookupTrace(LookupRetries + 1, LookupDelayMs, info.repository.id, branchName);
    LookupPrefixEffects(host.inputs, token, workflowId, attempts);
    FilterSkip(fetched + attempts, [SetFailed(FailurePrefix + Message(e))], RemoteCalls, [GetWorkflow(workflowId)] + attempts);
    ExhaustedCalls(workflowId, info.repository.id, branchName);
    TriggerReports(required, params, host);
  }

  /** The run whose `createBuild` fails, the lookup on attempt k. */
  lemma FailedBuildRun(required: seq<string>, params: map<string, string>, host: Host,
                       token: string, info: WorkflowInfo, k: nat, referenceId: string, e: Error)
    requires FirstFalsy(required, params) == |required|
    requires GenerateAscJwt(ReadCredentials(host.inputs), host.nowMs, host.sign) == Ok(token)
    requires host.client.getWorkflow(Param(params, WorkflowIdParam)) == Ok(info)
    requires k <= LookupRetries && FailsBefore(LookupOp(host.client, info.repository.id, Param(params, BranchNameParam)), k)
    requires host.client.getGitReference(info.repository.id, Param(params, BranchNameParam), k) == Ok(referenceId)
    requires host.client.createBuild(Param(params, WorkflowIdParam), referenceId) == Err(e)
    ensures var workflowId := Param(params, WorkflowIdParam);
      TriggerSpec(required, params, host) ==
      Run(Err(e), FetchedPrefix(host.inputs, token, workflowId)
                  + Lift(Attempts(k + 1, LookupDelayMs), info.repository.id, Param(params, BranchNameParam))
                  + [Info] + [CreateBuild(workflowId, referenceId)] + [SetFailed(FailurePrefix + Message(e))])
  {
    RetrySucceedsAfter(LookupOp(host.client, info.repository.id, Param(params, BranchNameParam)), LookupRetries, LookupDelayMs, k);
    LookupResolvesRun(required, params, host, token, info, k, referenceId);
  }

  /** A failed `createBuild` is rethrown as it is, after one call, and no
      output is set. */
  lemma CreateBuildFails(required: seq<string>, params: map<string, string>, host: Host,
                         token: string, info: WorkflowInfo, k: nat, referenceId: string, e: Error)
    requires FirstFalsy(required, params) == |required|
    requires GenerateAscJwt(ReadCredentials(host.inputs), host.nowMs, host.sign) == Ok(token)
    requires host.client.getWorkflow(Param(params, WorkflowIdParam)) == Ok(info)
    requires k <= LookupRetries && FailsBefore(LookupOp(host.client, info.repository.id, Param(params, BranchNameParam)), k)
    requires host.client.getGitReference(info.repository.id, Param(params, BranchNameParam), k) == Ok(referenceId)
    requires host.client.createBuild(Param(params, WorkflowIdParam), referenceId) == Err(e)
    ensures var run := TriggerSpec(required, params, host);
      && run.result == Err(e)
      && Filter(run.trace, RemoteCalls) ==
         [GetWorkflow(Param(params, WorkflowIdParam))]
         + Lift(Attempts(k + 1, LookupDelayMs), info.repository.id, Param(params, BranchNameParam))
         + [CreateBuild(Param(params, WorkflowIdParam), referenceId)]
      && Filter(run.trace, OutputsSet) == []
      && run.trace[|run.trace| - 1] == SetFailed(FailurePrefix + Message(e))
  {
    var workflowId, branchName := Param(params, WorkflowIdParam), Param(params, BranchNameParam);
    var attempts := Lift(Attempts(k + 1, LookupDelayMs), info.repository.id, branchName);
    var fetched := FetchedPrefix(host.inputs, token, workflowId);
    FailedBuildRun(required, params, host, token, info, k, referenceId, e);
    LookupTrace(k + 1, LookupDelayMs, info.repository.id, branchName);
    LookupPrefixEffects(host.inputs, token, workflowId, attempts);
    FailedBuildTail(fetched + attempts, RemoteCalls, [GetWorkflow(workflowId)] + attempts,
                    CreateBuild(workflowId, referenceId), FailurePrefix + Message(e));
    TriggerReports(required, params, host);
  }

  /** The run in which every step succeeds, the lookup on attempt k. */
  lemma SucceedsRun(required: seq<string>, params: map<string, string>, host: Host,
                    token: string, info: WorkflowInfo, k: nat, referenceId: string, build: Build)
    requires FirstFalsy(required, params) == |required|
    requires GenerateAscJwt(ReadCredentials(host.inputs), host.nowMs, host.sign) == Ok(token)
    requires host.client.getWorkflow(Param(params, WorkflowIdParam)) == Ok(info)
    requires k <= LookupRetries && FailsBefore(LookupOp(host.client, info.repository.id, Param(params, BranchNameParam)), k)
    requires host.client.getGitReference(info.repository.id, Param(params, BranchNameParam), k) == Ok(referenceId)
    requires host.client.createBuild(Param(params, WorkflowIdParam), referenceId) == Ok(build)
    ensures var workflowId := Param(params, WorkflowIdParam);
      var result := BuildResult(build.id, build.number, referenceId);
      TriggerSpec(required, params, host) ==
      Run(Ok(result), FetchedPrefix(host.inputs, token, workflowId)
                      + Lift(Attempts(k + 1, LookupDelayMs), info.repository.id, Param(params, BranchNameParam))
                      + [Info] + [CreateBuild(workflowId, referenceId)] + [Info] + Outputs(result))
  {
    RetrySucceedsAfter(LookupOp(host.client, info.repository.id, Param(params, BranchNameParam)), LookupRetries, LookupDelayMs, k);
    LookupResolvesRun(required, params, host, token, info, k, referenceId);
  }

  /** A run in which every step succeeds, the lookup after k <= 2 failures:
      the key and then the token are masked, and only then are
      `getWorkflow(workflowId)`, the lookup under `retry` (k + 1 calls, k
      delays of 700 ms) and `createBuild(workflowId, referenceId)` made, in
      this order; the outputs and the returned record hold the created
      build's id and number and the resolved reference; nothing fails. */
  lemma TriggerSucceeds(required: seq<string>, params: map<string, string>, host: Host,
                        token: string, info: WorkflowInfo, k: nat, referenceId: string, build: Build)
    requires FirstFalsy(required, params) == |required|
    requires GenerateAscJwt(ReadCredentials(host.inputs), host.nowMs, host.sign) == Ok(token)
    requires host.client.getWorkflow(Param(params, WorkflowIdParam)) == Ok(info)
    requires k <= LookupRetries && FailsBefore(LookupOp(host.client, info.repository.id, Param(params, BranchNameParam)), k)
    requires host.client.getGitReference(info.repository.id, Param(params, BranchNameParam), k) == Ok(referenceId)
    requires host.client.createBuild(Param(params, WorkflowIdParam), referenceId) == Ok(build)
    ensures var run := TriggerSpec(required, params, host);
      var workflowId := Param(params, WorkflowIdParam);
      var attempts := Lift(Attempts(k + 1, LookupDelayMs), info.repository.id, Param(params, BranchNameParam));
      && run.result == Ok(BuildResult(build.id, build.number, referenceId))
      && Filter(run.trace, Effects) ==
         [SetSecret(Input(host.inputs, "key")), SetSecret(token), GetWorkflow(workflowId)]
         + attempts + [CreateBuild(workflowId, referenceId)]
      && |attempts| == 2 * k + 1
      && (forall i :: 0 <= i < |attempts| ==>
            attempts[i] == if i % 2 == 0 then GetGitReference(info.repository.id, Param(params, BranchNameParam))
                           else Delay(LookupDelayMs))
      && Filter(run.trace, OutputsSet) ==
         [SetOutput("build_id", Text(build.id)), SetOutput("build_number", Number(build.number)),
          SetOutput("git_reference_id", Text(referenceId))]
      && Filter(run.trace, FailureReports) == []
  {
    var workflowId, branchName := Param(params, WorkflowIdParam), Param(params, BranchNameParam);
    var attempts := Lift(Attempts(k + 1, LookupDelayMs), info.repository.id, branchName);
    var fetched := FetchedPrefix(host.inputs, token, workflowId);
    SucceedsRun(required, params, host, token, info, k, referenceId, build);
    LookupTrace(k + 1, LookupDelayMs, info.repository.id, branchName);
    LookupPrefixEffects(host.inputs, token, workflowId, attempts);
    SuccessTail(fetched + attempts, Effects,
                KeyMask(Input(host.inputs, "key")) + [SetSecret(token), GetWorkflow(workflowId)] + attempts,
                CreateBuild(workflowId, referenceId), BuildResult(build.id, build.number, referenceId));
    assert KeyMask(Input(host.inputs, "key")) + [SetSecret(token), GetWorkflow(workflowId)] ==
           [SetSecret(Input(host.inputs, "key")), SetSecret(token), GetWorkflow(workflowId)] by {
      // a successful token means every credential, the key among them, is set
      assert HasCredentials(ReadCredentials(host.inputs));
    }
    TriggerReports(required, params, host);
  }
}
