# Truefact agent service: job store, stub executor and `.env` rewriter

This project models the sequential core of a small HTTP service that takes
text-processing jobs, has a payment SDK collect payment for each job, and runs
the job once payment is confirmed. Three pieces are modelled.

- **The job store of the service** (`main.py`), in module `Server`. A class
  `JobStore` holds the two dictionaries of the source: `jobs` (job id to job
  record) and `paymentInstances` (job id to the SDK `Payment` of a job whose
  payment is still monitored). Its methods are the three handlers that change
  them:
  - `StartJob` is `POST /start_job`;
  - `HandlePaymentStatus` is the payment callback;
  - `GetStatus` is `GET /status`.
  Each SDK call is a parameter: an `Outcome` (a reply, or the exception it
  raised) or a `Step` (succeeded, or raised). An exception is a `KeyError`
  with its key or another exception with its text. The SDK calls are the
  `Payment` constructor, the payment request, starting the monitoring, the
  status check, finalising the payment, and the two stops of the callback.
  The webhook task executor is a function parameter from the job's text and
  id to an `Outcome`. The amount is read with `int()` and echoed with
  `str()`; both are defined in module `PyText`.
  The process environment is a map. The random UUID of a new job is a
  caller-supplied id that is not yet in the store. A class invariant
  (`Consistent`) says:
  - only stored jobs are monitored;
  - every job awaiting payment is monitored, and a monitored job awaits
    payment or has failed;
  - no job rests in `running` between handler calls;
  - a completed job has a result and a failed job has an error.
  Every handler keeps it.
- **The stub executor and stub payment handler** (`agent/services.py`), in
  module `Services`. `execute_ai_task` is a pure rule on the input text:
  `Respond` and `ExecuteAiTask`. It relies on the Python string built-ins
  `lower()`, `in` and `split()`. These are defined over ASCII in module
  `PyText`, together with an independent right-to-left definition of the last
  word (`TrailingWord`). The stub `handle_payment_status` updates a job table
  in place; it is a method on class `JobTable`.
- **The `.env` rewriter** (`agent/config.py`), in module `EnvFile`. The file
  read and write are taken out: `UpdateEnvFile` takes the existing text, or
  none for a missing file, and returns the text that would be written. Its
  loop over the updates is proved against the function `ApplyUpdates`. The
  content is read as its lines (`split("\n")`). A key matches a line exactly
  when the line starts with `KEY=`. That is what the multi-line pattern
  `^KEY=.*$` matches when the key has no regular-expression metacharacters
  and no line feed.

Module `Jobs` holds the shapes the two job handlers share: the job record, its
status, and the outcome of a collaborator call.

### Behaviour worth knowing

The model follows the code in each of these cases.

- A second payment callback on a job is not a no-op. It runs the executor
  again first (main.py:77), which posts to the webhook once more. If the
  executor raises, that exception fails the job. If it returns, the
  completed job is no longer monitored, so `payment_instances[job_id]`
  raises `KeyError` at main.py:82. Either way the except branch marks the
  job failed (main.py:94-97). A failed job that is still monitored (its
  stop raised, see below) can be completed by a later callback.
- The except branch keeps the job's earlier result (main.py:96-97). So a
  failed job can hold both a result and an error, and "result is set if and
  only if the job is completed" does not hold. The invariant `Consistent`
  states only what the code keeps: completed implies a result, and failed
  implies an error.
- `stop_status_monitoring` can raise in the try block (main.py:92) and again
  in the except branch (main.py:101). When both raise, the job ends failed
  but keeps its payment instance, and the second exception escapes the
  callback. So a monitored job awaits payment or has failed.
- `start_job` stores nothing when `int()`, the `Payment` constructor or the
  payment request raises, or when the reply has no blockchain identifier. It
  does store the job and its payment instance before it starts the
  monitoring (main.py:156-172). When starting the monitoring raises, or the
  reply lacks one of the response's time fields, the caller gets a 400
  answer while the job stays stored and monitored.
- Any `KeyError` in the try block of `start_job`, including one raised inside
  an SDK call, gets the fixed detail "Missing required field in request
  schema" (main.py:191-196). Every other exception gets "Error: " and its
  text (main.py:197-202).
- `payment_status` takes whatever text the SDK reports (main.py:219), so the
  model keeps it as a string.
- The service's own callback does not tolerate a missing `"text"` entry
  (main.py:77): the job fails with the error `'text'`. The stub executor
  substitutes a default text instead (agent/services.py:25).

## Model

| member | source | states |
|---|---|---|
| `Server.JobStore.constructor` | main.py:62-64 | both dictionaries start empty, and the store is consistent |
| `Server.StoredPaymentId` | main.py:131-156 | a job is stored exactly when `int()` of the configured amount succeeds, the `Payment` constructor and the payment request return, and the reply holds `data.blockchainIdentifier`. The stored payment id is that identifier |
| `Server.Refusal` | main.py:191-202 | every refusal of `start_job` is a 400. Its detail is the fixed missing-field text exactly when the exception is a `KeyError`; any other exception gives "Error: " plus its text |
| `Server.StartJobReply` | main.py:121-202 | a refused start is a 400; a successful one has status "success", the new job id, the request's purchaser id and exactly one amount |
| `Server.JobStore.StartJob` | main.py:118-202 | the answer is `StartJobReply`. When `StoredPaymentId` is None, neither dictionary changes. Otherwise exactly one record is added under the fresh id: awaiting payment, payment status "pending", the reply's blockchain identifier as payment id, the request's input and purchaser id, no result and no error. The job's `Payment` instance, built from the environment and the parsed amount and tracking exactly that payment id, is added too. Consistency is kept |
| `Server.StartJobAccepts` | main.py:121-190 | `start_job` answers 200 if and only if `int()` of the amount succeeds, the `Payment` constructor succeeds, the request returns a reply with all four time and id fields, and the monitoring starts. A 200 answer always comes with a stored job |
| `Server.StartJobRefusals` | main.py:131-202 | the first failing step decides the 400 answer: "Error: " plus the `ValueError` text when `int()` fails; `Refusal` of the exception raised by the `Payment` constructor, the payment request or the monitoring start, so a `KeyError` from any of them gets the fixed detail; the fixed detail for a reply without a blockchain identifier or without a time field |
| `Server.StartJobEchoesPayment` | main.py:174-190 | a successful answer has the stored blockchain identifier and the reply's `submitResultTime`, `unlockTime` and `externalDisputeUnlockTime`. Its agent identifier is the one the `Payment` was created with, and its seller key is `SELLER_VKEY` (empty by default). Its one amount is text that `int()` reads back as the amount the `Payment` was created with, in the `Payment`'s unit |
| `Server.TryBlock` | main.py:69-93 | when the try block ends without an exception the job is completed with a result; a record the block did not complete is the stored record with status "running" |
| `Server.TryBlockSteps` | main.py:69-93 | the block completes the job if and only if the record has "text", the executor returns, the job is monitored and `complete_payment` succeeds; the completed record has payment status "completed" and the executor's answer as result. It ends without an exception if and only if it completed the job and the stop succeeded. Otherwise the first failing step raises: `KeyError('text')`, the executor's exception, `KeyError(job_id)` for an unmonitored job, the exception of `complete_payment`, or that of the stop |
| `Server.Settle` | main.py:94-97 | the record after the callback is completed exactly when the try block raised nothing, and then it is the block's record. Otherwise it is failed, with the exception's text as error and every other field, the result included, as the block left it |
| `Server.CallbackSettles` | main.py:67-102 | for any outcome of the SDK calls and the executor, a stored job ends completed or failed; a job that was already completed ends failed and does not stay monitored; a job without "text" ends failed with error `'text'` |
| `Server.JobStore.HandlePaymentStatus` | main.py:67-102 | for an unknown job the `KeyError` escapes and nothing changes. For a known job "running" is written first, and the job ends as `Settle` of `TryBlock`. Its instance is dropped unless the block raised on a monitored job and the except branch's stop raised too; then that exception escapes and the job stays monitored. No other job or instance changes. A completed job ends failed and unmonitored; a job without "text" ends failed with error `'text'`. Consistency is kept |
| `Server.RefreshedStatus` | main.py:216-223 | the payment status `get_status` stores: the reported `data.status`, "unknown" when the reply has none, "error" when the check raises |
| `Server.InsertKeepsConsistent` | main.py:156-172 | storing a job that awaits payment, together with an instance tracking its payment id, keeps the store consistent |
| `Server.SettleKeepsConsistent` | main.py:86-102 | settling a job as completed with a result, or failed with an error, keeps the store consistent whether its instance is dropped or, for a failed job, kept |
| `Server.RefreshKeepsConsistent` | main.py:216-223 | changing only a job's payment status keeps the store consistent, and changes no job's status or result |
| `Server.JobStore.GetStatus` | main.py:204-232 | an unknown id gets 404 "Job not found", and neither dictionary changes. A known, unmonitored job is reported as stored, and nothing changes. For a monitored job only its payment status changes, to `RefreshedStatus` of the check. The report carries the stored status and result. The payment instances never change |
| `Server.StartThenStatus` | tests/test_endpoints.py:35-61 | a job started on a fresh store with a complete payment reply answers "success" with its id, and its status is then reported as "awaiting_payment" |
| `Server.UnknownJobStatus` | tests/test_endpoints.py:63-67 | the status of an id never started is a 404 with detail "Job not found" |
| `Server.PaidJobScenario` | main.py:73-93 | a started job whose payment is confirmed and whose executor answers is then reported completed, with payment status "completed" and the executor's answer as result |
| `Server.StopFailsScenario` | main.py:86-102 | a paid job whose monitoring cannot be stopped, after the payment nor in the except branch, is reported failed with the answer it already stored; the stop's exception escapes, and the job stays monitored, so its payment status is still refreshed |
| `PyText.LowerKeepsSpace` | agent/services.py:28 | `lower()` changes no character's whitespace class, so the lowered text has its words where the text has them |
| `PyText.ScanFindsOccurrence` | agent/services.py:28-33 | `sub in s` read as a left-to-right scan succeeds exactly when sub occurs in s at some index |
| `PyText.WordsAreWords` | agent/services.py:29 | every item of `split()` is non-empty and free of whitespace |
| `PyText.WordsEmpty` | agent/services.py:29 | `split()` yields no word exactly when the text has no non-whitespace character |
| `PyText.LastWordIsTrailingWord` | agent/services.py:29 | `split()[-1]` is the run of non-whitespace that ends the text once trailing whitespace is dropped |
| `PyText.KeywordGivesWord` | agent/services.py:28-34 | whenever the lowered text contains "story" or "summary", the text has a word, so `split()[-1]` cannot raise on either keyword branch |
| `PyText.ParseIntText` | main.py:131 | `int(str(i)) == i` |
| `PyText.ParseIntPadded` | main.py:131 | `int()` ignores the whitespace it strips around the text (tab, line feed, vertical tab, form feed, carriage return, space): `int(pre + str(i) + post) == i` when pre and post consist of those |
| `PyText.SeparatorIsNotIntSpace` | main.py:131 | the separator 0x1C is whitespace to `split()` but not to `int()`, so `int("\x1c5")` is refused |
| `PyText.ParseIntSkipsUnderscore` | main.py:131 | `int()` accepts one underscore between two digit runs and reads it as the digits joined |
| `Services.RespondAnswers` | agent/services.py:27-37 | "story" is tested first on the lowered text, then "summary", so "story" wins when both occur. The story answer is the opening, the last word read from the right, ". ", then the three fixed sentences. The summary answer is the summary opening, that word, ". ", then the fixed ending. Text with neither keyword gives "Processed result for: " plus the text |
| `Services.ExecuteAiTask` | agent/services.py:7-39 | the result is a dictionary with exactly the key "raw". Its value is the answer for the "text" entry, or "Processed result for: No text provided" without one |
| `Services.DefaultTextIsPlain` | agent/services.py:25-37 | the default text contains neither keyword |
| `Services.HandlePaymentStatus` | agent/services.py:41-77 | for an unknown job the `KeyError` escapes and nothing is written. For a known job "running" is written first; the job then ends with status "completed", payment status "completed", and `execute_ai_task` of its input as result. No other job changes |
| `EnvFile.Lines` | agent/config.py:31-36 | the lines of a text, as the multi-line pattern sees them: there is at least one, and none holds a line feed |
| `EnvFile.JoinLines` | agent/config.py:36 | joining the lines with line feeds gives back the text, so reading the content as lines loses nothing |
| `EnvFile.LinesJoin` | agent/config.py:36 | splitting a join of lines without line feeds gives back those lines |
| `EnvFile.UpdateEnvFile` | agent/config.py:17-39 | the text written is `ApplyUpdates` of the file's text, or of "" for a missing file, over the updates in iteration order |
| `EnvFile.ApplyUpdatesStep` | agent/config.py:26-39 | each update acts on the content the earlier updates produced |
| `EnvFile.SkipsEmptyValue` | agent/config.py:27-29 | an update with an empty value leaves the content unchanged |
| `EnvFile.UpdateReplacesEntries` | agent/config.py:31-36 | when some line starts with `KEY=`, the number of lines is kept, every such line becomes exactly `KEY=value`, and every other line is unchanged |
| `EnvFile.UpdateAppendsEntry` | agent/config.py:37-39 | when no line starts with `KEY=`, the result is the old content followed by a line feed and `KEY=value`; its lines are the old lines plus that one |
| `EnvFile.UpdateInstallsEntry` | agent/config.py:31-39 | after an update with a non-empty value, the content has the line `KEY=value` |
| `EnvFile.LinesAppend` | agent/config.py:39 | the lines of `a + "\n" + b` are the lines of `a` followed by those of `b` |
| `EnvFile.UpdatesSettle` | agent/config.py:26-39 | after all updates, every key with a non-empty value has a line, and all its lines read `KEY=value` |
| `EnvFile.UpdatesIdempotent` | agent/config.py:26-39 | applying the same updates twice gives the same content as applying them once |
| `EnvFile.AppendsWhenAbsent` | agent/config.py:37-39 | when no updated key has a line yet, the updates append `\nKEY=value` for each non-empty value, in order |
| `EnvFile.FreshFile` | agent/config.py:19-23 | from a missing file every key with a non-empty value is appended, in order, each after a line feed |

## Left out

- FastAPI wiring is not modelled: app creation, CORS, lifespan logging, pydantic response validation, the static `/input_schema`, `/availability` and `/health` handlers, and uvicorn startup (main.py:15-60, 234-262). None of it holds logic beyond constant answers.
- The webhook executor of main.py (lines 104-114) is an HTTP POST. It is the `execute` parameter, which returns an answer or raises.
- Payment SDK calls are outcomes supplied by the caller: the `Payment` constructor, `create_payment_request`, `start_status_monitoring`, `check_payment_status`, `complete_payment` and `stop_status_monitoring`, each of which may raise. Of an exception's type the model keeps only whether it is a `KeyError`, which is the only distinction the handlers make. The SDK's own polling loop is not modelled, and neither is the `input_hash` it computes for the start answer.
- Server.StartJobAccepts: the response's amount list (main.py:175) is taken to build. As written it does not: `AmountModel` declares `amount: str` (agent/models.py:64), and pydantic v2 does not turn the `int` from main.py:131 into a string. The ValidationError, a ValueError, is caught at main.py:197-202, so every start that gets this far answers 400 "Error: …" with the job already stored and monitored. The model follows the evident intent, a 200 answer carrying `str()` of the amount. `Server.StartJobReply`, `Server.JobStore.StartJob` and `Server.StartJobEchoesPayment` rest on the same choice.
- Server.StartThenStatus: its "success" answer rests on the same choice about main.py:175.
- The payment SDK's `Amount(...)` at main.py:135 is taken not to raise on an `int` amount and a `str` unit.
- The result hash of main.py:81 is built from Python's salted `hash()`. It is not modelled, and `complete_payment` succeeds or fails independently of it.
- `uuid.uuid4()` is the caller's fresh `jobId` (`requires jobId !in jobs`).
- Logging, `asyncio.sleep` and concurrency are not modelled. Each handler runs as one atomic step, so a status check cannot interleave with a running callback.
- Server.StartJobEchoesPayment: the pydantic conversion of the response is not modelled. The amount is rendered with `str()`, and the time fields stay the reply's text rather than being checked as integers.
- agent/registry.py and agent/models.py are not part of this model. The registry code is SDK calls and environment writes; the models are only the shapes used for the datatypes here.
- `update_env_file`'s file read and write and its True/False answer (agent/config.py:19-21, 41-48) are left out. The model starts from the read text and ends with the text to write.
- EnvFile.UpdateEnvFile: keys are matched literally, and the replacement is inserted literally. The source puts the key into a pattern unescaped and uses `KEY=value` as a substitution template, so keys with regular-expression metacharacters and values with backslashes are not modelled. Nor are keys that contain a line feed: the multi-line pattern then matches across two lines, so `update_env_file` rewrites "A\nB=1" to "A\nB=2" for the key "A\nB", where the model appends a new entry.
- EnvFile.UpdatesIdempotent: proved for keys without `=` or a line feed and values without a line feed. A key containing `=` can match another key's line, and for such keys the source is not idempotent.
- EnvFile.UpdatesSettle, EnvFile.AppendsWhenAbsent and EnvFile.FreshFile: proved under the same restriction on keys and values, and for the same reason. For example, from a missing file the updates `a=b` to "y" and then `a` to "x" leave the content "\na=x". The second key's pattern matches the first key's line, so the first entry is lost.
- EnvFile.UpdateReplacesEntries: the lines are the pieces of `split("\n")`, so a value containing a line feed is excluded.
- PyText.ParseInt: `int()` is modelled for ASCII text in base 10: surrounding tab, line feed, vertical tab, form feed, carriage return and space (not the separators 0x1C to 0x1F, which `split()` treats as whitespace but `int()` refuses in an ASCII text), an optional sign, and digits with single underscores between them. Non-ASCII decimal digits and non-ASCII whitespace, which `int()` also accepts, are not modelled.
- PyText.IntValueError: the message quotes the text between single quotes. CPython's `%.200R` formatting (double quotes around a text that contains a single quote, escapes, and the cut at 200 characters) is not modelled.
- PyText.Lower: `lower()` and `isspace()` are defined on ASCII only. Non-ASCII letters are not lowered, and non-ASCII whitespace is not a separator for `split()`.
- Services.HandlePaymentStatus: its except branch is reached only for an unknown job id, and there it raises again. On records of the modelled shape the stub executor cannot raise; the model proves that `split()[-1]` is defined on both keyword branches. So the "failed" outcome of agent/services.py:74-77 never arises for a known job.
- `KeyError` text is the key between single quotes. Python's quoting of keys that contain quotes is not modelled.
