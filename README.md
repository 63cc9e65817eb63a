# Job-lifecycle handler, modelled in Dafny

The handler (`dist/index.js`) is one object with three entrypoints that an
orchestrator calls for a job:

- `invoke(payload, context)` logs a progress trail and returns
  `{status, target, processed_at}`, where the status is `"dry_run_completed"`
  for a dry run and `"success"` otherwise;
- `error(payload, context)` logs the failure on stderr and always throws
  `Error("Unable to recover from error: " + error.message)`;
- `halt(payload, context)` logs the reason and target and returns
  `{status: "halted", target: target || "unknown", reason, halted_at}`.

The model is pure; the source's only effects, console output and the
clock, become the returned `stdout`/`stderr` lines and the parameter `now`.
Each entrypoint is a function
(`JobHandler.Invoke`, `JobHandler.Error`, `JobHandler.Halt`) that returns an
`Outcome`: the lines written with `console.log` (`stdout`), the lines written
with `console.error` (`stderr`), and a `Completion` that is either
`Returned(value)` or `Thrown(message)`. The time `new Date().toISOString()`
would read is a parameter `now`. Destructuring defaults (`options = []`,
`dry_run = false`) are modelled with `Option` fields and the functions
`OptionsOf` and `IsDryRun`. JavaScript's `||` and `&&` on strings are modelled by
`Js.Truthy` (present and non-empty) and `Js.Or`.

Files:

- `js.dfy` (module `Js`): the JavaScript built-ins the handler uses. This covers
  optional values, property access on a string-valued object, truthiness, `||`,
  `slice`, `join`, the decimal rendering of a count, and substring occurrence.
- `job_handler.dfy` (module `JobHandler`): the payloads, the context, the
  results, every log line's text, and the three entrypoints.
- `job_handler_properties.dfy` (module `JobHandlerProperties`): a reference
  description of the `invoke` trail as the source's log statements in order,
  and the lemmas below.

Two choices of the model follow the code to the letter:

- A key of four characters or fewer is logged in full, because `slice(-4)`
  returns the whole string; the model does not mask it further.
- The halt log line prints the target as given; the model substitutes
  `"unknown"` only in the returned `target`.

## Model

| member | source | states |
|---|---|---|
| Js.Lookup | dist/index.js:23 | reading property `k` of a string-valued object yields its value when `k` is a key and nothing (undefined) otherwise |
| Js.Or | dist/index.js:23 | JavaScript's `a or fallback` on strings yields `a` when it is a non-empty string and the fallback otherwise; it is never empty when the fallback is not |
| Js.SliceFrom | dist/index.js:23 | `s.slice(start)` is always a suffix of `s`; for a negative start its length is the smaller of `-start` and the length of `s` |
| Js.JoinElementAt | dist/index.js:23 | in `xs.join(sep)`, every element appears in order at its offset, and the last one ends the string |
| Js.JoinSeparatorAfter | dist/index.js:23 | in `xs.join(sep)`, exactly `sep` sits between consecutive elements |
| Js.DecimalString | dist/index.js:23 | a count is rendered as a non-empty string of decimal digits with no leading zero |
| Js.DecimalRoundTrip | dist/index.js:23 | the rendered count reads back as the same number |
| JobHandler.IsDryRun | dist/index.js:23 | an omitted `dry_run` defaults to false, and a given one is used as it is |
| JobHandler.OptionsOf | dist/index.js:23 | omitted `options` default to the empty list, and given ones are used as they are |
| JobHandler.Profile | dist/index.js:23 | the environment profile is `ENVIRONMENT` when that is present and non-empty, and `"development"` otherwise; it is never empty |
| JobHandler.ApiKey | dist/index.js:23 | the key line's guard holds exactly when `secrets.API_KEY` is present and non-empty |
| JobHandler.RevealedSuffix | dist/index.js:23 | the revealed text is the key's suffix whose length is the smaller of 4 and the key's length |
| JobHandler.OutputKeys | dist/index.js:23 | the outputs lines are guarded by an outputs object with at least one key |
| JobHandler.Invoke | dist/index.js:23 | `invoke` never throws and logs nothing on stderr; it returns the payload's target and `now`; its status is `"dry_run_completed"` exactly when `dry_run` is true and `"success"` exactly otherwise, including when `dry_run` is omitted |
| JobHandler.Error | dist/index.js:23 | `error` always throws `"Unable to recover from error: " + message`, after logging exactly one stderr line naming the target and the message and nothing on stdout |
| JobHandler.Halt | dist/index.js:23 | `halt` always returns status `"halted"`, the reason unchanged and `now`; the target is the payload's when that is present and non-empty and `"unknown"` otherwise; it logs exactly one stdout line, which names the reason right after its fixed text |
| JobHandlerProperties.InvokeFollowsSourceOrder | dist/index.js:23 | the `invoke` trail is the lines of the eleven log statements in source order, each logged when and only when its guard holds |
| JobHandlerProperties.InvokeTrailShape | dist/index.js:23 | the trail has six unconditional lines plus one per optional line that is logged (two for outputs); it starts with "Starting job execution" and ends with the completion line |
| JobHandlerProperties.DryRunOnlyAddsNotice | dist/index.js:23 | a dry run logs the real run's trail with the DRY RUN notice inserted after the action line, and its result differs only in status |
| JobHandlerProperties.OmittedDryRunIsFalse | dist/index.js:23 | omitting `dry_run` behaves exactly like passing `false` |
| JobHandlerProperties.InvokeSeesOnlyRevealedSuffix | dist/index.js:23 | two contexts whose keys are both unused, or share their revealed suffix, produce the same trail and result: `invoke` reads the secrets only through the last four characters of `API_KEY` |
| JobHandlerProperties.KeyLineHidesKey | dist/index.js:23 | a key longer than four characters is not contained in its own log line, provided one of its hidden characters is not in the line's fixed text |
| JobHandlerProperties.KeyMadeOfFixedTextAppears | dist/index.js:23 | that proviso is needed: the key "Using" is contained in its own log line |
| JobHandlerProperties.SampleKeyIsMasked | dist/index.js:23 | the key "sk-abcdef1234" is logged as "...1234", and its line does not contain the key |
| JobHandlerProperties.SampleKeyNeverLogged | dist/index.js:23 | restarting "server-1" with the option "force" and the key "sk-abcdef1234" logs no line, of the whole trail, that contains the key |
| JobHandlerProperties.OutputsLinesReportKeys | dist/index.js:23 | the outputs count line states the number of keys in decimal, and the list line holds every key in order, separated by ", " |
| JobHandlerProperties.OptionsLineReportsOptions | dist/index.js:23 | the options line states the number of options in decimal and lists every option in order, separated by ", " |
| JobHandlerProperties.OriginalMessage | dist/index.js:23 | a fatal message has the fatal prefix exactly when the original message can be extracted from it, and it is that prefix followed by the original message |
| JobHandlerProperties.ErrorMessageRecoverable | dist/index.js:23 | the original `error.message` is recovered exactly from what `error` throws |
| JobHandlerProperties.ErrorLineNamesTargetAndMessage | dist/index.js:23 | the stderr line of `error` holds the target right after its fixed text and ends with the original message |
| JobHandlerProperties.HaltLogUsesRawTarget | dist/index.js:23 | the halt log line carries the target as given; for an empty target the result says "unknown" but the line does not |
| JobHandlerProperties.HaltLogsUndefinedForOmittedTarget | dist/index.js:23 | an omitted halt target is logged as "undefined", while the result says "unknown" |
| JobHandlerProperties.Examples | dist/index.js:23 | restarting "server-1" succeeds, its dry run reports "dry_run_completed", a "timeout" error is rethrown as "Unable to recover from error: timeout", and a halt without a target reports "unknown" |

## Left out

- `console.log` and `console.error` are not modelled as I/O. Their lines are returned as the `stdout` and `stderr` sequences.
- `new Date().toISOString()` is not modelled. The timestamp is the caller-supplied `now`, so ISO-8601 formatting and clock order are not modelled.
- The `async` functions and their promises are not modelled: none of the entrypoints awaits anything or keeps state. A thrown error, which rejects the promise, is the `Thrown` completion.
- `error` and `halt` have no context parameter, because neither reads its context.
- `invoke` does not modify the context. This holds by construction, since the model is pure.
- Only the truthiness of strings and of `dry_run` is modelled. `null` values, non-string secrets, environment values or options, and a non-boolean `dry_run` are not modelled.
- A context without `env` or `secrets`, and an error payload without an `error` object, make the source throw a `TypeError`. These calls are not modelled: the model's types always provide those fields.
- `invoke`'s `target` and `action` always have a value in the model. In the source, an absent target or action prints as "undefined" in the lines that name it, and an absent target is also returned as `undefined`; `action` is never returned.
- `halt`'s `reason` always has a value in the model. In the source, an absent one prints as "undefined" in the halt line and is returned as `reason: undefined`. An absent halt target is modelled: it prints as "undefined" in the log line (HaltLogsUndefinedForOmittedTarget).
- `error`'s `target` and `error.message` always have a value in the model. In the source, an absent `target` prints as "undefined" in the stderr line, and an absent `error.message` prints as "undefined" both there and in the thrown message.
- The values held in `context.outputs` are not modelled; only its keys, in enumeration order, are.
- JavaScript strings are sequences of UTF-16 code units, while Dafny strings are sequences of Unicode scalar values. `slice(-4)` on a key with characters outside the Basic Multilingual Plane is therefore not modelled exactly.
- The licence header and `module.exports` are not modelled.
- No action is performed. The source only puts `action` into log lines.
- KeyLineHidesKey: the full key may still appear in the trail. It can sit inside the fixed text of its own line (see KeyMadeOfFixedTextAppears), or inside the target, action, options, output keys or environment the caller passes. What is proved instead has two parts. First, the trail depends on the key only through its revealed suffix (InvokeSeesOnlyRevealedSuffix). Second, the key's own line hides it whenever one of its hidden characters is outside that line's fixed text.
