/**
 The job-lifecycle handler: the object with the three entrypoints an
 orchestrator calls, `invoke` (perform an action on a target), `error` (turn an
 upstream failure into a fatal one) and `halt` (acknowledge a cancellation).

 Each entrypoint is a function of its payload (and, for `invoke`, the context).
 What it writes with `console.log` and `console.error` is returned as two
 sequences of lines, what it throws as a `Thrown` completion, and the wall-clock
 time it would read is passed in as `now`.
 */
module JobHandler {
  import opened Js

  /** An ISO-8601 date-time string, as `new Date().toISOString()` produces it. */
  type Timestamp = string

  /** Payload of `invoke`; `options` and `dryRun` are `None` when the caller omits them. */
  datatype InvokePayload = InvokePayload(
    target: string,
    action: string,
    options: Option<seq<string>>,
    dryRun: Option<bool>)

  /** `error.message` of the error payload. */
  datatype JobError = JobError(message: string)

  /** Payload of `error`. */
  datatype ErrorPayload = ErrorPayload(error: JobError, target: string)

  /** Payload of `halt`; `target` may be omitted. */
  datatype HaltPayload = HaltPayload(reason: string, target: Option<string>)

  /**
   The execution context. `outputs` is `None` when the context carries no
   outputs object, otherwise the keys of that object in enumeration order
   (the values are never read).
   */
  datatype Context = Context(
    env: map<string, string>,
    secrets: map<string, string>,
    outputs: Option<seq<string>>)

  /** What `invoke` returns. */
  datatype InvokeResult = InvokeResult(status: string, target: string, processedAt: Timestamp)

  /** What `halt` returns. */
  datatype HaltResult = HaltResult(status: string, target: string, reason: string, haltedAt: Timestamp)

  /** How a call ends: it returns a value or throws an `Error` with a message. */
  datatype Completion<R> = Returned(value: R) | Thrown(message: string)

  /** Everything a call does: the lines it logs on each channel, then how it ends. */
  datatype Outcome<R> = Outcome(stdout: seq<string>, stderr: seq<string>, completion: Completion<R>)

  const SUCCESS := "success"
  const DRY_RUN_COMPLETED := "dry_run_completed"
  const HALTED := "halted"
  const DEFAULT_ENVIRONMENT := "development"
  const UNKNOWN_TARGET := "unknown"
  const FATAL_PREFIX := "Unable to recover from error: "
  const KEY_LINE_PREFIX := "Using API key ending in ..."

  // The lines of the trail, in the words the handler logs them.

  const START_LINE := "Starting job execution"
  const DRY_RUN_LINE := "DRY RUN: No changes will be made"
  function TargetLine(target: string): string { "Processing target: " + target }
  function ActionLine(action: string): string { "Action: " + action }
  function EnvironmentLine(profile: string): string { "Running in " + profile + " environment" }
  function KeyLine(key: string): string { KEY_LINE_PREFIX + RevealedSuffix(key) }
  function OutputsCountLine(keys: seq<string>): string {
    "Available outputs from " + DecimalString(|keys|) + " previous jobs"
  }
  function OutputsListLine(keys: seq<string>): string { "Previous job outputs: " + Join(keys, ", ") }
  function PerformingLine(action: string, target: string): string {
    "Performing " + action + " on " + target + "..."
  }
  function OptionsLine(options: seq<string>): string {
    "Processing " + DecimalString(|options|) + " options: " + Join(options, ", ")
  }
  function CompletedLine(action: string, target: string): string {
    "Successfully completed " + action + " on " + target
  }
  function ErrorLine(target: string, message: string): string {
    "Job encountered error while processing " + target + ": " + message
  }
  function HaltLine(reason: string, target: string): string {
    "Job is being halted (" + reason + ") while processing " + target
  }

  /** How a template literal renders an optional string; an absent one prints as `undefined`. */
  function Display(a: Option<string>): string {
    match a
    case Some(s) => s
    case None => "undefined"
  }

  /** `dry_run = false` as a destructuring default. */
  function IsDryRun(p: InvokePayload): (r: bool)
    ensures p.dryRun.None? ==> !r
    ensures p.dryRun.Some? ==> r == p.dryRun.value
  {
    match p.dryRun
    case Some(b) => b
    case None => false
  }

  /** `options = []` as a destructuring default. */
  function OptionsOf(p: InvokePayload): (r: seq<string>)
    ensures p.options.None? ==> r == []
    ensures p.options.Some? ==> r == p.options.value
  {
    match p.options
    case Some(xs) => xs
    case None => []
  }

  /** `context.env.ENVIRONMENT || "development"`: the runtime profile, never empty. */
  function Profile(ctx: Context): (r: string)
    ensures r != ""
    ensures Truthy(Lookup(ctx.env, "ENVIRONMENT")) ==> r == ctx.env["ENVIRONMENT"]
    ensures !Truthy(Lookup(ctx.env, "ENVIRONMENT")) ==> r == DEFAULT_ENVIRONMENT
  {
    Or(Lookup(ctx.env, "ENVIRONMENT"), DEFAULT_ENVIRONMENT)
  }

  /** `context.secrets.API_KEY` when it is truthy, the guard of the key line. */
  function ApiKey(ctx: Context): (r: Option<string>)
    ensures r.Some? <==> "API_KEY" in ctx.secrets && ctx.secrets["API_KEY"] != ""
    ensures r.Some? ==> r.value == ctx.secrets["API_KEY"]
  {
    var k := Lookup(ctx.secrets, "API_KEY");
    if Truthy(k) then k else None
  }

  /** `key.slice(-4)`: the last four characters, or the whole key when it is shorter. */
  function RevealedSuffix(key: string): (r: string)
    ensures |r| == Min(4, |key|)
    ensures r == key[|key| - |r|..]
  {
    SliceFrom(key, -4)
  }

  /** The keys of `context.outputs` when there is such an object and it has at least one key. */
  function OutputKeys(ctx: Context): (r: Option<seq<string>>)
    ensures r.Some? <==> ctx.outputs.Some? && |ctx.outputs.value| > 0
    ensures r.Some? ==> r.value == ctx.outputs.value
  {
    match ctx.outputs
    case Some(keys) => if |keys| > 0 then Some(keys) else None
    case None => None
  }

  // The guarded log statements of `invoke`: each logs its lines only when its guard holds.

  /** `dry_run && console.log(...)` */
  function DryRunLines(dry: bool): seq<string> {
    if dry then [DRY_RUN_LINE] else []
  }

  /** `secrets.API_KEY && console.log(...)` */
  function KeyLines(ctx: Context): seq<string> {
    match ApiKey(ctx)
    case Some(k) => [KeyLine(k)]
    case None => []
  }

  /** `outputs && Object.keys(outputs).length > 0 && (console.log(...), console.log(...))` */
  function OutputsLines(ctx: Context): seq<string> {
    match OutputKeys(ctx)
    case Some(keys) => [OutputsCountLine(keys), OutputsListLine(keys)]
    case None => []
  }

  /** `options.length > 0 && console.log(...)` */
  function OptionsLines(options: seq<string>): seq<string> {
    if |options| > 0 then [OptionsLine(options)] else []
  }

  /**
   `invoke(payload, context)`: logs its trail and returns the job's status,
   target and completion time. It never throws and writes nothing to stderr.
   */
  function Invoke(p: InvokePayload, ctx: Context, now: Timestamp): (o: Outcome<InvokeResult>)
    ensures o.stderr == [] && o.completion.Returned?
    ensures o.completion.value.target == p.target
    ensures o.completion.value.processedAt == now
    ensures o.completion.value.status == DRY_RUN_COMPLETED <==> IsDryRun(p)
    ensures o.completion.value.status == SUCCESS <==> !IsDryRun(p)
    ensures p.dryRun.None? ==> o.completion.value.status == SUCCESS
  {
    var dry := IsDryRun(p);
    var trail :=
      [START_LINE, TargetLine(p.target), ActionLine(p.action)]
      + DryRunLines(dry)
      + [EnvironmentLine(Profile(ctx))]
      + KeyLines(ctx)
      + OutputsLines(ctx)
      + [PerformingLine(p.action, p.target)]
      + OptionsLines(OptionsOf(p))
      + [CompletedLine(p.action, p.target)];
    Outcome(trail, [], Returned(InvokeResult(if dry then DRY_RUN_COMPLETED else SUCCESS, p.target, now)))
  }

  /**
   `error(payload, context)`: logs one line naming the target and the message
   on stderr, then always throws; the context is never read.
   */
  function Error(p: ErrorPayload): (o: Outcome<()>)
    ensures o.completion.Thrown?
    ensures o.completion.message == FATAL_PREFIX + p.error.message
    ensures o.stdout == [] && |o.stderr| == 1
    ensures o.stderr[0] == ErrorLine(p.target, p.error.message)
  {
    Outcome([], [ErrorLine(p.target, p.error.message)], Thrown(FATAL_PREFIX + p.error.message))
  }

  /**
   `halt(payload, context)`: logs the reason and the target as given, and
   acknowledges the cancellation; the context is never read.
   */
  function Halt(p: HaltPayload, now: Timestamp): (o: Outcome<HaltResult>)
    ensures o.stderr == [] && |o.stdout| == 1 && o.completion.Returned?
    ensures OccursAt(o.stdout[0], p.reason, |"Job is being halted ("|)
    ensures o.completion.value.status == HALTED
    ensures o.completion.value.reason == p.reason
    ensures o.completion.value.haltedAt == now
    ensures o.completion.value.target != ""
    ensures Truthy(p.target) ==> o.completion.value.target == p.target.value
    ensures !Truthy(p.target) ==> o.completion.value.target == UNKNOWN_TARGET
  {
    Outcome([HaltLine(p.reason, Display(p.target))], [],
            Returned(HaltResult(HALTED, Or(p.target, UNKNOWN_TARGET), p.reason, now)))
  }
}
