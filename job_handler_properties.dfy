/**
 What the handler promises beyond each entrypoint's own contract: the fixed
 order of the `invoke` trail, what the trail reveals of the API key, how the
 counted lists are rendered, what can be recovered from the fatal message of
 `error`, and which target the `halt` log line names.
 */
module JobHandlerProperties {
  import opened Js
  import opened JobHandler

  // ---------------------------------------------------------------------------
  // The invoke trail follows a fixed order of log statements.
  // ---------------------------------------------------------------------------

  /** The log statements of `invoke`, one constructor per statement. */
  datatype Step =
    | Start | TargetStep | ActionStep | DryRunNotice | EnvironmentStep | KeyUsage
    | OutputsCount | OutputsList | Performing | OptionsStep | Completed

  /** The order in which `invoke` reaches its log statements. */
  const SourceOrder: seq<Step> :=
    [Start, TargetStep, ActionStep, DryRunNotice, EnvironmentStep, KeyUsage,
     OutputsCount, OutputsList, Performing, OptionsStep, Completed]

  /** The guard under which a statement logs its line; the unconditional ones always do. */
  predicate Emits(s: Step, p: InvokePayload, ctx: Context) {
    match s
    case DryRunNotice => IsDryRun(p)
    case KeyUsage => ApiKey(ctx).Some?
    case OutputsCount => OutputKeys(ctx).Some?
    case OutputsList => OutputKeys(ctx).Some?
    case OptionsStep => |OptionsOf(p)| > 0
    case _ => true
  }

  /** The line a statement logs when its guard holds. */
  function StepLine(s: Step, p: InvokePayload, ctx: Context): string
    requires Emits(s, p, ctx)
  {
    match s
    case Start => START_LINE
    case TargetStep => TargetLine(p.target)
    case ActionStep => ActionLine(p.action)
    case DryRunNotice => DRY_RUN_LINE
    case EnvironmentStep => EnvironmentLine(Profile(ctx))
    case KeyUsage => KeyLine(ApiKey(ctx).value)
    case OutputsCount => OutputsCountLine(OutputKeys(ctx).value)
    case OutputsList => OutputsListLine(OutputKeys(ctx).value)
    case Performing => PerformingLine(p.action, p.target)
    case OptionsStep => OptionsLine(OptionsOf(p))
    case Completed => CompletedLine(p.action, p.target)
  }

  /** The lines one statement logs: its line when its guard holds, nothing otherwise. */
  function Piece(s: Step, p: InvokePayload, ctx: Context): seq<string> {
    if Emits(s, p, ctx) then [StepLine(s, p, ctx)] else []
  }

  /** The lines that running through the first `k` statements of the source order logs. */
  function Render(k: nat, p: InvokePayload, ctx: Context): seq<string>
    requires k <= |SourceOrder|
  {
    if k == 0 then [] else Render(k - 1, p, ctx) + Piece(SourceOrder[k - 1], p, ctx)
  }

  /** The statements up to the key line log the trail's first part. */
  lemma RenderThroughKey(p: InvokePayload, ctx: Context)
    ensures Render(6, p, ctx)
         == [START_LINE, TargetLine(p.target), ActionLine(p.action)] + DryRunLines(IsDryRun(p))
            + [EnvironmentLine(Profile(ctx))] + KeyLines(ctx)
  {
    assert Render(3, p, ctx) == [START_LINE, TargetLine(p.target), ActionLine(p.action)] by {
      assert Render(1, p, ctx) == [START_LINE];
      assert Render(2, p, ctx) == [START_LINE, TargetLine(p.target)];
    }
    assert Render(5, p, ctx) == Render(3, p, ctx) + DryRunLines(IsDryRun(p)) + [EnvironmentLine(Profile(ctx))] by {
      assert Render(4, p, ctx) == Render(3, p, ctx) + DryRunLines(IsDryRun(p));
    }
  }

  /** The outputs and performing statements follow the key line. */
  lemma RenderThroughPerforming(p: InvokePayload, ctx: Context)
    ensures Render(9, p, ctx)
         == Render(6, p, ctx) + OutputsLines(ctx) + [PerformingLine(p.action, p.target)]
  {
    assert Render(8, p, ctx) == Render(6, p, ctx) + OutputsLines(ctx) by {
      assert Render(7, p, ctx) == Render(6, p, ctx) + Piece(OutputsCount, p, ctx);
    }
  }

  /** The options and completion statements close the trail. */
  lemma RenderAfterPerforming(p: InvokePayload, ctx: Context)
    ensures Render(11, p, ctx)
         == Render(9, p, ctx) + OptionsLines(OptionsOf(p)) + [CompletedLine(p.action, p.target)]
  {
    assert Render(10, p, ctx) == Render(9, p, ctx) + OptionsLines(OptionsOf(p));
  }

  /**
   The `invoke` trail is exactly the lines of all its statements in source
   order, each present when, and only when, its guard holds.
   */
  lemma InvokeFollowsSourceOrder(p: InvokePayload, ctx: Context, now: Timestamp)
    ensures Invoke(p, ctx, now).stdout == Render(|SourceOrder|, p, ctx)
  {
    RenderThroughKey(p, ctx);
    RenderThroughPerforming(p, ctx);
    RenderAfterPerforming(p, ctx);
  }

  function Count(b: bool): nat { if b then 1 else 0 }

  /**
   The trail has six unconditional lines plus one for each optional statement
   whose guard holds (two for the outputs); it opens with the start line and
   closes with the completion line.
   */
  lemma InvokeTrailShape(p: InvokePayload, ctx: Context, now: Timestamp)
    ensures |Invoke(p, ctx, now).stdout|
         == 6 + Count(IsDryRun(p)) + Count(ApiKey(ctx).Some?)
            + 2 * Count(OutputKeys(ctx).Some?) + Count(|OptionsOf(p)| > 0)
    ensures Invoke(p, ctx, now).stdout[0] == START_LINE
    ensures Invoke(p, ctx, now).stdout[|Invoke(p, ctx, now).stdout| - 1]
         == CompletedLine(p.action, p.target)
  {
  }

  /** The lines `invoke` logs before the dry-run notice. */
  function TrailHead(p: InvokePayload): seq<string> {
    [START_LINE, TargetLine(p.target), ActionLine(p.action)]
  }

  /** The lines `invoke` logs after the dry-run notice. */
  function TrailTail(p: InvokePayload, ctx: Context): seq<string> {
    [EnvironmentLine(Profile(ctx))] + KeyLines(ctx) + OutputsLines(ctx)
    + [PerformingLine(p.action, p.target)] + OptionsLines(OptionsOf(p))
    + [CompletedLine(p.action, p.target)]
  }

  /** The trail splits around the dry-run notice into the head and the tail above. */
  lemma InvokeTrailAroundNotice(p: InvokePayload, ctx: Context, now: Timestamp)
    ensures Invoke(p, ctx, now).stdout == TrailHead(p) + DryRunLines(IsDryRun(p)) + TrailTail(p, ctx)
  {
    var e, k, o := [EnvironmentLine(Profile(ctx))], KeyLines(ctx), OutputsLines(ctx);
    var f, op, c := [PerformingLine(p.action, p.target)], OptionsLines(OptionsOf(p)), [CompletedLine(p.action, p.target)];
    Regroup(TrailHead(p) + DryRunLines(IsDryRun(p)), e, k, o, f, op, c);
  }

  /** Re-bracketing a concatenation of seven pieces. */
  lemma Regroup(h: seq<string>, t1: seq<string>, t2: seq<string>, t3: seq<string>,
                t4: seq<string>, t5: seq<string>, t6: seq<string>)
    ensures h + t1 + t2 + t3 + t4 + t5 + t6 == h + (t1 + t2 + t3 + t4 + t5 + t6)
  {
  }

  /**
   A dry run logs the same trail as a real run with the notice inserted after
   the action line, and differs in nothing but the status.
   */
  lemma DryRunOnlyAddsNotice(target: string, action: string, options: Option<seq<string>>,
                             ctx: Context, now: Timestamp)
    ensures
      var dry := Invoke(InvokePayload(target, action, options, Some(true)), ctx, now);
      var run := Invoke(InvokePayload(target, action, options, None), ctx, now);
      && |run.stdout| >= 3
      && dry.stdout == run.stdout[..3] + [DRY_RUN_LINE] + run.stdout[3..]
      && dry.completion.value == run.completion.value.(status := DRY_RUN_COMPLETED)
  {
    var pd := InvokePayload(target, action, options, Some(true));
    var pr := InvokePayload(target, action, options, None);
    InvokeTrailAroundNotice(pd, ctx, now);
    InvokeTrailAroundNotice(pr, ctx, now);
    assert TrailHead(pd) == TrailHead(pr) && TrailTail(pd, ctx) == TrailTail(pr, ctx);
    var head, tail := TrailHead(pr), TrailTail(pr, ctx);
    assert (head + [] + tail)[..3] == head;
    assert (head + [] + tail)[3..] == tail;
  }

  /** Omitting `dry_run` behaves exactly like passing `false`. */
  lemma OmittedDryRunIsFalse(target: string, action: string, options: Option<seq<string>>,
                             ctx: Context, now: Timestamp)
    ensures Invoke(InvokePayload(target, action, options, None), ctx, now)
         == Invoke(InvokePayload(target, action, options, Some(false)), ctx, now)
  {
  }

  // ---------------------------------------------------------------------------
  // What the trail reveals of the API key.
  // ---------------------------------------------------------------------------

  /** What `invoke` lets out of the secret: whether the key is used and its last characters. */
  function KeyReveal(ctx: Context): Option<string> {
    match ApiKey(ctx)
    case Some(k) => Some(RevealedSuffix(k))
    case None => None
  }

  /**
   Two contexts that agree on everything but the secrets, and whose keys are
   both unused or share their revealed suffix, produce the same outcome: the
   trail and the result depend on the secrets only through that suffix.
   */
  lemma InvokeSeesOnlyRevealedSuffix(p: InvokePayload, ctx1: Context, ctx2: Context, now: Timestamp)
    requires ctx1.env == ctx2.env && ctx1.outputs == ctx2.outputs
    requires KeyReveal(ctx1) == KeyReveal(ctx2)
    ensures Invoke(p, ctx1, now) == Invoke(p, ctx2, now)
  {
    assert ApiKey(ctx1).Some? <==> ApiKey(ctx2).Some?;
    if ApiKey(ctx1).Some? {
      assert KeyLine(ApiKey(ctx1).value) == KeyLine(ApiKey(ctx2).value);
    }
  }

  /**
   A key longer than four characters is not contained in its own log line as
   soon as one of its hidden characters (all but the last four) is not a
   character of the line's fixed text.
   */
  lemma KeyLineHidesKey(key: string, j: nat)
    requires |key| > 4 && j < |key| - 4 && key[j] !in KEY_LINE_PREFIX
    ensures !Contains(KeyLine(key), key)
  {
    forall i ensures !OccursAt(KeyLine(key), key, i) {
      KeyNotAt(key, j, i);
    }
  }

  /** No occurrence of the key starts at `i`: the hidden character `key[j]` would have to come from the fixed text. */
  lemma KeyNotAt(key: string, j: nat, i: int)
    requires |key| > 4 && j < |key| - 4 && key[j] !in KEY_LINE_PREFIX
    ensures !OccursAt(KeyLine(key), key, i)
  {
    var line := KeyLine(key);
    assert |line| == |KEY_LINE_PREFIX| + 4;
    if 0 <= i <= |line| - |key| {
      assert i + j < |KEY_LINE_PREFIX|;
      assert line[i + j] == KEY_LINE_PREFIX[i + j];
      assert line[i..i + |key|][j] != key[j];
    }
  }

  /**
   Without that condition the key can appear: a key made of the fixed text's
   own characters, such as "Using", is contained in its log line.
   */
  lemma KeyMadeOfFixedTextAppears()
    ensures Contains(KeyLine("Using"), "Using")
  {
    assert OccursAt(KeyLine("Using"), "Using", 0);
  }

  /** The key "sk-abcdef1234" is logged as "...1234" and its log line does not contain it. */
  lemma SampleKeyIsMasked()
    ensures KeyLine("sk-abcdef1234") == "Using API key ending in ...1234"
    ensures !Contains(KeyLine("sk-abcdef1234"), "sk-abcdef1234")
  {
    KeyLineHidesKey("sk-abcdef1234", 2);
  }

  /** A string lacking one of the characters of `t` does not contain `t`. */
  lemma MissingCharHidesText(s: string, t: string, j: nat)
    requires j < |t| && t[j] !in s
    ensures !Contains(s, t)
  {
    forall i ensures !OccursAt(s, t, i) {
      if 0 <= i <= |s| - |t| {
        assert s[i..i + |t|][j] == s[i + j];
      }
    }
  }

  const SAMPLE_KEY := "sk-abcdef1234"
  const SAMPLE_PAYLOAD := InvokePayload("server-1", "restart", Some(["force"]), Some(false))
  const SAMPLE_CONTEXT := Context(map[], map["API_KEY" := SAMPLE_KEY], Some([]))

  /** The sample trail: no dry-run notice, no outputs lines, and the key line fifth. */
  lemma SampleTrail(now: Timestamp)
    ensures Invoke(SAMPLE_PAYLOAD, SAMPLE_CONTEXT, now).stdout
         == [START_LINE, TargetLine("server-1"), ActionLine("restart"),
             EnvironmentLine(DEFAULT_ENVIRONMENT), KeyLine(SAMPLE_KEY),
             PerformingLine("restart", "server-1"), OptionsLine(["force"]),
             CompletedLine("restart", "server-1")]
  {
    assert Profile(SAMPLE_CONTEXT) == DEFAULT_ENVIRONMENT;
    assert KeyLines(SAMPLE_CONTEXT) == [KeyLine(SAMPLE_KEY)];
    assert OutputsLines(SAMPLE_CONTEXT) == [];
  }

  // The four lemmas below only feed SampleKeyNeverLogged; checking the
  // characters of every line in one lemma is too costly for the verifier.

  /** The sample trail's first three lines hold no 'k', the key's second character. */
  lemma SampleHeadLacksK()
    ensures SAMPLE_KEY[1] == 'k'
    ensures 'k' !in START_LINE && 'k' !in TargetLine("server-1") && 'k' !in ActionLine("restart")
  {
  }

  /** Nor do the environment and performing lines. */
  lemma SampleMiddleLacksK()
    ensures 'k' !in EnvironmentLine(DEFAULT_ENVIRONMENT) && 'k' !in PerformingLine("restart", "server-1")
  {
  }

  /** Nor does the completion line. */
  lemma SampleCompletionLacksK()
    ensures 'k' !in CompletedLine("restart", "server-1")
  {
  }

  /** Nor does the options line. */
  lemma SampleOptionsLacksK()
    ensures 'k' !in OptionsLine(["force"])
  {
    assert DecimalString(|["force"]|) == "1";
    assert Join(["force"], ", ") == "force";
  }

  /**
   With the sample key among the secrets, no line of the whole `invoke` trail
   contains the key: its own line shows "...1234", and no other line holds a 'k'.
   */
  lemma SampleKeyNeverLogged(now: Timestamp)
    ensures forall l :: l in Invoke(SAMPLE_PAYLOAD, SAMPLE_CONTEXT, now).stdout ==> !Contains(l, SAMPLE_KEY)
  {
    SampleTrail(now);
    SampleKeyIsMasked();
    SampleHeadLacksK();
    SampleMiddleLacksK();
    SampleOptionsLacksK();
    SampleCompletionLacksK();
    forall l | l in Invoke(SAMPLE_PAYLOAD, SAMPLE_CONTEXT, now).stdout && l != KeyLine(SAMPLE_KEY)
      ensures !Contains(l, SAMPLE_KEY)
    {
      MissingCharHidesText(l, SAMPLE_KEY, 1);
    }
  }

  // ---------------------------------------------------------------------------
  // The counted lists: outputs and options.
  // ---------------------------------------------------------------------------

  /**
   The outputs count line states the number of keys in decimal, and the list
   line holds every key, in order, at its position in the ", "-separated list.
   */
  lemma OutputsLinesReportKeys(keys: seq<string>, i: nat) returns (d: string)
    requires i < |keys|
    ensures AllDigits(d) && ParseDecimal(d) == |keys|
    ensures OutputsCountLine(keys) == "Available outputs from " + d + " previous jobs"
    ensures OutputsListLine(keys) == "Previous job outputs: " + Join(keys, ", ")
    ensures OccursAt(OutputsListLine(keys), keys[i], |"Previous job outputs: "| + Offset(keys, ", ", i))
  {
    d := DecimalString(|keys|);
    DecimalRoundTrip(|keys|);
    JoinElementAt(keys, ", ", i);
    var prefix := "Previous job outputs: ";
    var o := Offset(keys, ", ", i);
    assert OutputsListLine(keys) == prefix + Join(keys, ", ");
    assert OutputsListLine(keys)[|prefix| + o..|prefix| + o + |keys[i]|]
        == Join(keys, ", ")[o..o + |keys[i]|];
  }

  /**
   The options line states the number of options in decimal, and lists every
   option, in order, at its position in the ", "-separated list.
   */
  lemma OptionsLineReportsOptions(options: seq<string>, i: nat) returns (d: string)
    requires i < |options|
    ensures AllDigits(d) && ParseDecimal(d) == |options|
    ensures OptionsLine(options) == "Processing " + d + " options: " + Join(options, ", ")
    ensures OccursAt(OptionsLine(options), options[i],
                     |"Processing "| + |d| + |" options: "| + Offset(options, ", ", i))
  {
    d := DecimalString(|options|);
    DecimalRoundTrip(|options|);
    JoinElementAt(options, ", ", i);
    var k := |"Processing "| + |d| + |" options: "|;
    var o := Offset(options, ", ", i);
    assert OptionsLine(options) == ("Processing " + d + " options: ") + Join(options, ", ");
    assert OptionsLine(options)[k + o..k + o + |options[i]|] == Join(options, ", ")[o..o + |options[i]|];
  }

  // ---------------------------------------------------------------------------
  // error: the fatal message wraps the original one.
  // ---------------------------------------------------------------------------

  /** The original message inside a fatal message, when it carries the fatal prefix. */
  function OriginalMessage(fatal: string): (r: Option<string>)
    ensures r.Some? <==> |FATAL_PREFIX| <= |fatal| && fatal[..|FATAL_PREFIX|] == FATAL_PREFIX
    ensures r.Some? ==> fatal == FATAL_PREFIX + r.value
  {
    if |FATAL_PREFIX| <= |fatal| && fatal[..|FATAL_PREFIX|] == FATAL_PREFIX
    then Some(fatal[|FATAL_PREFIX|..])
    else None
  }

  /** The original message is recovered exactly from what `error` throws. */
  lemma ErrorMessageRecoverable(p: ErrorPayload)
    ensures Error(p).completion.Thrown?
    ensures OriginalMessage(Error(p).completion.message) == Some(p.error.message)
  {
    var m := Error(p).completion.message;
    assert m[..|FATAL_PREFIX|] == FATAL_PREFIX;
    assert m[|FATAL_PREFIX|..] == p.error.message;
  }

  /** The one stderr line of `error` names the target and ends with the original message. */
  lemma ErrorLineNamesTargetAndMessage(p: ErrorPayload)
    ensures |Error(p).stderr| == 1
    ensures OccursAt(Error(p).stderr[0], p.target, |"Job encountered error while processing "|)
    ensures OccursAt(Error(p).stderr[0], p.error.message,
                     |Error(p).stderr[0]| - |p.error.message|)
  {
    var line := Error(p).stderr[0];
    var k := |"Job encountered error while processing "|;
    assert line == "Job encountered error while processing " + p.target + (": " + p.error.message);
    assert line[k..k + |p.target|] == p.target;
    assert line[|line| - |p.error.message|..] == p.error.message;
  }

  // ---------------------------------------------------------------------------
  // halt: the log line names the target as given, the result substitutes "unknown".
  // ---------------------------------------------------------------------------

  /** A given target is logged as it is, even when the result replaces it. */
  lemma HaltLogUsesRawTarget(reason: string, t: string, now: Timestamp)
    ensures Halt(HaltPayload(reason, Some(t)), now).stdout == [HaltLine(reason, t)]
    ensures t == "" ==> Halt(HaltPayload(reason, Some(t)), now).completion.value.target == UNKNOWN_TARGET
    ensures t == "" ==> Halt(HaltPayload(reason, Some(t)), now).stdout[0] != HaltLine(reason, UNKNOWN_TARGET)
  {
    if t == "" {
      assert |HaltLine(reason, t)| != |HaltLine(reason, UNKNOWN_TARGET)|;
    }
  }

  /** An omitted target is logged as "undefined", while the result says "unknown". */
  lemma HaltLogsUndefinedForOmittedTarget(reason: string, now: Timestamp)
    ensures Halt(HaltPayload(reason, None), now).stdout == [HaltLine(reason, "undefined")]
    ensures Halt(HaltPayload(reason, None), now).completion.value.target == UNKNOWN_TARGET
  {
  }

  // ---------------------------------------------------------------------------
  // Worked examples.
  // ---------------------------------------------------------------------------

  const EmptyContext := Context(map[], map[], Some([]))

  /** Restarting a server, for real and as a dry run; a timeout error; a halt without a target. */
  lemma Examples(now: Timestamp)
    ensures Invoke(InvokePayload("server-1", "restart", Some(["force"]), Some(false)), EmptyContext, now).completion
         == Returned(InvokeResult(SUCCESS, "server-1", now))
    ensures Invoke(InvokePayload("server-1", "restart", None, Some(true)), EmptyContext, now).completion
         == Returned(InvokeResult(DRY_RUN_COMPLETED, "server-1", now))
    ensures Error(ErrorPayload(JobError("timeout"), "server-1")).completion
         == Thrown("Unable to recover from error: timeout")
    ensures Halt(HaltPayload("user_requested", None), now).completion
         == Returned(HaltResult(HALTED, UNKNOWN_TARGET, "user_requested", now))
  {
  }
}
