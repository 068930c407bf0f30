# Test machine settings and the CI job runner, in Dafny

This project models two parts of the Cockpit bots repository. Both are small pieces of deterministic decision and string-building logic, wrapped around SSH, podman and asyncio.

- **`machine/machine_core/machine.py`** (module `MachineCore`) covers the `Machine` class:
  - how `__init__` splits the `address` and `browser` strings at their last `:` into host and port;
  - how it derives the connection label and the default identity file;
  - the `diagnose` banner;
  - the `journalctl` command strings and how their output is read;
  - journal match normalisation;
  - the per-image table of tolerated journal patterns and the admin group;
  - the `curl` argument vector;
  - where `pull` looks for an image file.

  Commands are not sent anywhere. Where the source runs a command on the machine, the model builds the command, and the command's output comes in as a parameter.
- **`lib/aio/job.py`** (module `AioJob`) covers the job runner:
  - reading a job description with its defaults;
  - the default title and log slug;
  - the container image choice;
  - the exact container command line;
  - the set of watchdog tasks;
  - what each watchdog and the container produce when they end;
  - the statuses, log entries and issue that `run_job` produces for each way a run can end.

  `run_job` is modelled as a function from an abstract outcome to the ordered list of effects it performs:
  - the `try` body either completes, raises `Failure(msg)`, is cancelled, or raises anything else;
  - every run starts the log and posts `pending`;
  - then comes exactly one terminal status, an issue only on a `Failure` with a report, and finally the log is closed and the index synced.

Three supporting modules:

- `Strings` models the Python `str` behaviour the code relies on. This covers `rpartition`, `strip` (the full `str.isspace` set), `splitlines` (every Python line boundary, `\r\n` as one), substring tests, `startswith`, `join`, `[:n]`, and `int()`/`str()` on decimal text.
- `Json` models a JSON object, as the insertion-ordered item list of a dict, together with the typed lookups `get_str`, `get_int`, `get_strv`, `get_str_map` and `get_dict`, and the dict merge `{**a, **b}`.
- `Wrappers` holds `Option` and `Result`.

Where the source raises, the model returns a `Failure`:
- `int()` on a bad port raises `ValueError`;
- `assert output` fails on empty journal output;
- a JSON field of the wrong type is refused.

A job that runs past its timeout posts `failure`, not `error`: the watchdog raises `Failure('Timeout after … minutes')` (lib/aio/job.py:65-67). See `AioJob.WatchdogsReportFailure`.

## Model

| member | source | states |
|---|---|---|
| Strings.RPartition | machine/machine_core/machine.py:68 | with the separator present, the string is head + separator + tail and the tail holds no separator; without it, the triple is ("", "", s) |
| Strings.RPartitionUnique | machine/machine_core/machine.py:68 | the split at the last separator is the only one whose tail lacks the separator |
| Strings.Strip | lib/aio/job.py:83-87 | the result neither starts nor ends with whitespace, and it occurs in the input with only whitespace around it |
| Strings.StripIdempotent | lib/aio/job.py:83-87 | stripping twice is stripping once |
| Strings.SplitLines | machine/machine_core/machine.py:172 | empty text has no lines, non-empty text has at least one, and no line contains a line boundary |
| Strings.SplitLinesRejoin | machine/machine_core/machine.py:172 | every text is its lines, each followed by its boundary; every boundary but the last is a real one (`\r\n` or a single boundary character), and the last is empty only after a non-empty line, so a final boundary opens no empty line; a `\r` is cut off alone only when no `\n` follows it |
| Strings.SplitLinesTerminated | machine/machine_core/machine.py:172 | splitting newline-terminated lines gives the lines back |
| Strings.ContainsIff | machine/machine_core/machine.py:174 | the substring test holds exactly when the needle occurs at some index |
| Strings.ParseInt | machine/machine_core/machine.py:69 | the text reads as a number exactly when, once stripped and with one leading sign dropped, it is a non-empty run of ASCII digits; a negative result comes from a leading `-` |
| Strings.IntToString | lib/aio/job.py:150 | the text is non-empty, starts with `-` exactly for a negative number, and is otherwise all digits, with no leading zero: zero is `0` and any other number starts with a non-zero digit |
| Strings.Join | machine/machine_core/machine.py:169 | the result starts with the first part, and its length is the parts' total length plus one separator between each two parts |
| Strings.JoinSnoc | machine/machine_core/machine.py:169 | joining one more part appends the separator and that part |
| Strings.ParseIntDigits | machine/machine_core/machine.py:69 | a non-empty string of ASCII digits reads as the number it denotes |
| Strings.ParseIntNegated | machine/machine_core/machine.py:69 | a minus sign followed by ASCII digits reads as the negated number |
| Strings.ParseIntPlus | machine/machine_core/machine.py:69 | a plus sign followed by ASCII digits reads as the number itself |
| Strings.ParseIntPadded | machine/machine_core/machine.py:69 | whitespace before and after the text does not change what it reads as |
| Strings.ParseIntRoundTrip | machine/machine_core/machine.py:69 | `int(str(n)) == n` for every integer |
| Json.Lookup | lib/aio/job.py:51-62 | absent exactly when no entry has the key; a present value belongs to an entry with that key |
| Json.GetStr | lib/aio/job.py:51 | an absent key gives the default; a string gives that string; any other value is an error |
| Json.GetInt | lib/aio/job.py:56 | an absent key gives the default; an integer gives that integer; any other value is an error |
| Json.GetStrv | lib/aio/job.py:53-54 | an absent key gives the default; only a list of strings is accepted, and that list's strings are the value |
| Json.GetStrMap | lib/aio/job.py:55 | an absent key gives the default; only an object of strings is accepted, and its entries are the value |
| Json.GetDict | lib/aio/job.py:62 | an absent key gives the default; an object gives its entries; any other value is an error |
| Json.MergeLookup | lib/aio/job.py:199-207 | a key present in the overrides reads from the overrides; any other key reads from the base |
| MachineCore.SplitAddress | machine/machine_core/machine.py:67-71 | with a `:`, the host is everything before the last `:` and the port is `int()` of the colon-free rest, or an InvalidPort error; without one, the address is the host and the given port is kept |
| MachineCore.SplitAddressJoin | machine/machine_core/machine.py:67-69 | splitting `host:str(n)` gives back host and n |
| MachineCore.SplitAddressRejects | machine/machine_core/machine.py:67-69 | an address whose text after the last `:` is refused by `int()`, such as `host:-x`, is refused as an invalid port |
| MachineCore.MachineLabel | machine/machine_core/machine.py:75-76 | `image-host-port` only when no truthy label was given and the image is not "unknown"; otherwise the given label, possibly None, unchanged |
| MachineCore.LabelEndsWithPort | machine/machine_core/machine.py:75-76 | for a non-negative SSH port, the port can be read back from after the last `-` of a generated label (a negative port such as `-5` leaves only its digits there) |
| MachineCore.Machine.Create | machine/machine_core/machine.py:57-93 | a bad SSH port fails first, then a bad web port; otherwise the machine's fields are the SSH split, the given or default identity file, the derived label, ostree membership, and the split of the browser address (defaulting to the full address) with `web_port` as its fallback |
| MachineCore.Machine.Diagnose | machine/machine_core/machine.py:95-104 | the banner starts with the `TTY LOGIN` heading exactly when `tty`; with `tty` it is the login block followed by the SSH and web access block filled from the machine's fields, without it that access block alone |
| MachineCore.Machine.AdminGroup | machine/machine_core/machine.py:237-242 | "sudo" exactly when the image name contains "debian" or "ubuntu", otherwise "wheel" |
| MachineCore.Machine.AllowedMessages | machine/machine_core/machine.py:196-235 | the list built by the appends is, in code order, the patterns of every image condition that holds |
| MachineCore.AllowedForIff | machine/machine_core/machine.py:196-235 | a pattern is allowed exactly when it is one of the patterns of a condition that holds for the image |
| MachineCore.AllowedFor | machine/machine_core/machine.py:196-235 | at most four patterns; none exactly when the image is not a Debian or ostree image and none of the eight named images |
| MachineCore.LocaleAllowedIff | machine/machine_core/machine.py:199-201 | the locale pattern is allowed exactly when the image starts with "debian" or is an ostree image |
| MachineCore.Machine.Curl | machine/machine_core/machine.py:348-353 | `curl --silent --show-error`, then a `--header`, `key: value` pair per header in order, then the arguments in order; length 3 + 2·headers + args |
| MachineCore.PullPath | machine/machine_core/machine.py:129-132 | an image containing `/` is taken as a path and returned as given; anything else is looked for in the images directory |
| MachineCore.PullPathLastComponent | machine/machine_core/machine.py:131-132 | for a plain image name the file looked for is `<bots dir>/images/<image>`: it splits at its last `/` into the images directory and the image, and that directory starts with the bots directory and ends in `images` |
| MachineCore.HasFieldPrefixIff | machine/machine_core/machine.py:157 | the greedy field-name test accepts exactly the strings `[a-zA-Z0-9_]+=` matches at the start |
| MachineCore.NormaliseMatch | machine/machine_core/machine.py:157 | the result always starts with a field name and `=`, and is the match itself or the match after `SYSLOG_IDENTIFIER=` |
| MachineCore.NormaliseMatches | machine/machine_core/machine.py:157 | same length and order, each element normalised on its own |
| MachineCore.NormaliseMatchShape | machine/machine_core/machine.py:157 | a match is kept exactly when it starts with a field name and `=`, otherwise it gets the `SYSLOG_IDENTIFIER=` prefix; either way the result names a field |
| MachineCore.NormaliseMatchesIdempotent | machine/machine_core/machine.py:157 | normalising twice is normalising once |
| MachineCore.JournalCommand | machine/machine_core/machine.py:157-169 | the command is `journalctl 2>&1`, the cursor argument (only for a truthy cursor), `-o cat -p <level>`, then exactly the normalised matches joined by ` + `, and ends with a shell fallback to `true` that ignores the exit status |
| MachineCore.AuditCommand | machine/machine_core/machine.py:182-188 | the command reads the kernel's journal entries, with the cursor argument only for a truthy cursor, and pipes them into a grep whose pattern is `type=`, exactly the type prefix, then `.*audit`, and ends with a shell fallback to `true` |
| MachineCore.JournalMessages | machine/machine_core/machine.py:170-178 | no output is an error; one line containing either marker means no messages; any other output is all its lines in order |
| MachineCore.AuditMessages | machine/machine_core/machine.py:189-194 | the same reading with only the "Cannot assign requested address" marker |
| MachineCore.AuditEmptyImpliesJournalEmpty | machine/machine_core/machine.py:172-194 | output the audit reading treats as empty, the journal reading treats as empty too; `-- No entries --` alone is empty only for the journal reading |
| AioJob.GetSubject | lib/aio/job.py:52 | an absent `command_subject` gives None; a non-object is an error; an object gives what reading a subject from it gives |
| AioJob.ParseJob | lib/aio/job.py:46-62 | a subject that cannot be read fails the job; a job that reads has that subject |
| AioJob.ParseJobFields | lib/aio/job.py:46-62 | every field of a job that reads is the value under its key, or the field's default when the key is absent |
| AioJob.ParseJobSucceedsIff | lib/aio/job.py:46-62 | a description is read exactly when its subject is read and every job key it sets has the type its lookup reads; one wrongly typed key fails the job |
| AioJob.ParseJobDefaults | lib/aio/job.py:45-62 | an object without any job key gives timeout 120, no secrets, an empty environment, and None for every other field |
| AioJob.ParseJobTimeout | lib/aio/job.py:56 | a non-integer timeout is refused; an integer one is used as given |
| AioJob.JobTitle | lib/aio/job.py:162 | a truthy title is used unchanged |
| AioJob.DefaultTitleEndsWithSha | lib/aio/job.py:162 | a default title splits at its last `#` into `<context>@<repo>` and the first twelve characters of the commit |
| AioJob.DefaultTitleHead | lib/aio/job.py:162 | for a repository without `@`, the head of the default title splits at its last `@` into the context and the repository |
| AioJob.JobSlug | lib/aio/job.py:163 | a truthy slug is used unchanged |
| AioJob.DefaultSlugEndsWithSha | lib/aio/job.py:163 | a default slug splits at its last `/` into `<repo>/<context or ->` and the first twelve characters of the commit |
| AioJob.DefaultSlugHead | lib/aio/job.py:163 | for a context without `/`, the head of the default slug splits at its last `/` into the repository and the context, or `-` without one |
| AioJob.ContainerImage | lib/aio/job.py:83-87 | the first truthy of the job's container, the repository's file and the default image, stripped; the result is already stripped |
| AioJob.EnvArgs | lib/aio/job.py:97 | one `--env=key=value` per environment entry, in order |
| AioJob.SecretArgs | lib/aio/job.py:100 | every argument passed belongs to a runner secret that the job names |
| AioJob.SecretArgsIff | lib/aio/job.py:100 | an argument is passed exactly when it belongs to a runner secret that the job names |
| AioJob.SecretArgsNoneNamed | lib/aio/job.py:100 | naming no known secret passes no secret arguments |
| AioJob.SecretArgsAppend | lib/aio/job.py:100 | the secret arguments follow the runner's order: for two tables one after the other they are the first table's followed by the second's |
| AioJob.SecretArgsSingle | lib/aio/job.py:100 | one runner secret contributes all its arguments when the job names it, and none otherwise |
| AioJob.ContainerArgv | lib/aio/job.py:91-94 | the command line starts with the container command, then `run --init` |
| AioJob.BuildContainerArgs | lib/aio/job.py:91-114 | the appends and extends build exactly the container command line |
| AioJob.ContainerArgvLayout | lib/aio/job.py:91-114 | the image follows the run arguments; `python3 -c <checkout script>` right after it; `--revision` comes four places after the image; `--rebase` only for a truthy rebase branch; then the clone URL; `--` and the command last, only for a non-empty command |
| AioJob.ContainerArgvEnv | lib/aio/job.py:96-99 | the job's environment entries sit right after `--cidfile`, one `--env=key=value` each, in order |
| AioJob.CommandSubject | lib/aio/job.py:180-183 | the command subject is the resolved `command_subject` when there is one, otherwise the resolved job subject |
| AioJob.ComposeTasks | lib/aio/job.py:180-190 | always the container task, run on the command subject; the timeout task exactly when the timeout is non-zero; the pull request poll, against the job subject's commit, exactly when there is a pull request |
| AioJob.TimeoutOutcome | lib/aio/job.py:65-67 | the watchdog ends in a `Failure` |
| AioJob.PollPr | lib/aio/job.py:70-74 | the first truthy change reason is raised as the `Failure` message; while there is none the task keeps polling |
| AioJob.ContainerOutcome | lib/aio/job.py:136-150 | a missing cidfile is an internal error; otherwise it is a `Failure` exactly when the exit code is non-zero, and a clean completion exactly when the exit code is 0 |
| AioJob.ContainerExitCodeInMessage | lib/aio/job.py:149-150 | the exit code can be read back from the last word of the failure message |
| AioJob.Handler | lib/aio/job.py:194-223 | each branch performs two effects, three on a `Failure` with a report, whose third opens the job's issue in the job's repository; the `Failure` branch first writes the failure message to the log and then posts; every other branch posts first and then writes its own log text: the success line, the cancellation line, or the traceback |
| AioJob.HandlerPosts | lib/aio/job.py:193-223 | the branch taken for each way the `try` body ends posts exactly one status: success/Success, failure/message, error/Cancelled or error/Internal error |
| AioJob.RunJob | lib/aio/job.py:160-227 | the run uses the default or given slug and the status of the job's repository, commit, context and log URL; its effects are two opening ones, the branch for the outcome, and two closing ones; it re-raises exactly when cancelled or crashed |
| AioJob.RunJobPosts | lib/aio/job.py:172-227 | every run posts `pending`/`In progress` first and then exactly one terminal status: success/Success, failure/message, error/Cancelled or error/Internal error |
| AioJob.RunJobLogBrackets | lib/aio/job.py:172-227 | the log is started first with the title, and closed and its index synced last, on every outcome |
| AioJob.RunJobReraises | lib/aio/job.py:210-219 | the run re-raises exactly when its terminal status is `error` |
| AioJob.RunJobOpensIssueIff | lib/aio/job.py:194-208 | an issue is opened exactly on a `Failure` when the job has a report |
| AioJob.Issue | lib/aio/job.py:199-207 | the issue has exactly the keys `title`, `body` and those of the report |
| AioJob.IssueBodyLines | lib/aio/job.py:201-205 | for values without line breaks the default body's lines are the failure sentence, an empty line, and `Log: <url>` |
| AioJob.IssueFields | lib/aio/job.py:198-208 | the issue's `title` and `body` are the defaults unless the report sets them; every other key comes from the report |
| AioJob.WatchdogsReportFailure | lib/aio/job.py:194-196 | the timeout, a pull request change and a non-zero container exit post `failure` with their messages; a missing cidfile posts `error`/`Internal error` |
| AioJob.CleanExitReportsSuccess | lib/aio/job.py:149-150 | a created container that exits with code 0 makes the run post `pending` and then `success`/`Success` |

## Left out

- SSH execution, `subprocess`, `os.chmod` of the default identity file, `os.path.abspath`/`exists` and the image download in `pull` are all I/O. Command output enters as a parameter; `pull` returns only the path choice.
- MachineCore.PullPath: an absolute path is returned as the image string itself. Making it absolute depends on the working directory.
- `journal_cursor`, the `journalctl --sync` call and the other remote shell scripts are opaque text sent to a remote shell. This covers `RESOLV_SCRIPT`, `start_cockpit`, `stop_cockpit`, `restart_cockpit`, `set_address`, `dhcp_server`, `dns_server`, `get_cockpit_container` and `wait_for_cockpit_running` with its timeout.
- The `start`, `stop`, `kill`, `shutdown` and `wait_poweroff` stubs only log or assert.
- The SSH connection base class (`ssh_connection.py`) is not part of this model. `Machine.Create` records what `__init__` passes to it.
- Asyncio scheduling is not modelled: `gather_and_cancel`, the sleeps, and spawning, waiting on or killing processes. `ComposeTasks` gives the task set, and a run's result enters `RunJob` as an abstract outcome.
- Forge API calls are not modelled: `resolve_subject`, `read_file`, `check_pr_changed`, `get_status`, `open_issue`. Their results are parameters; a failing `resolve_subject` is not modelled.
- Log streaming (`LogStreamer`, `Index`, the log URL and destination) is not modelled. The log URL is a parameter.
- Several log writes are not modelled. These are the "Using container image" line, the container output, the text after the title in the log header, and the exact traceback text (an effect with no payload).
- Debug echo of container output and its TTY colouring are not modelled.
- podman `cp`/`rm` and attachment upload are not modelled. `ContainerOutcome` assumes they do not raise.
- AioJob.RunJob assumes that starting the log and the pending post succeed. An exception there is caught by the same handlers, so the model's first two effects would not all happen.
- AioJob.RunJob also assumes that `status.post`, `open_issue` and `log.write` do not raise inside an `except` or `else` branch (lib/aio/job.py:194-223). If one does, the rest of that branch is skipped, no other handler catches it, the `finally` block still runs and `run_job` raises. The terminal post can then be missing, and a `Failure` run re-raises.
- `jsonutil.py`, `SubjectSpecification` and `JobContext` are not part of this model. Subject parsing is a parameter.
- Json.GetStr, Json.GetInt, Json.GetStrv, Json.GetStrMap and Json.GetDict: their behaviour is this model's assumption about `jsonutil.py`: absent gives the default, the right type gives the value, anything else is an error.
- Json.GetInt: refuses a JSON boolean. Python's `bool` is a subclass of `int`, so the real `get_int` may accept `true` or `false` as 1 or 0.
- Strings.ParseInt: accepts whitespace, a sign and ASCII decimal digits. Python's `int()` also accepts `_` separators and non-ASCII digits. CPython 3.11 and later raise `ValueError` from `int()` and `str()` beyond 4300 digits; the model has no such limit, and neither does Strings.IntToString.
- Strings.IsSpace and Strings.IsLineBreak: cover code points, not grapheme clusters. There is no Unicode normalisation.
- AioJob.IssueBody: the `textwrap.dedent` result is stated for values without newlines. A context, commit or URL containing a newline would change dedent's common margin.
- AioJob.Job: fields are set once in `Job.__init__` and never reassigned, so a job is a value, not an object.
- MachineCore.Machine: fields are `const` for the same reason.
