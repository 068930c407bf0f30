/**
 * The decision logic of the job runner (lib/aio/job.py): reading a job
 * description, the default title and log slug, the container image and
 * command line, the watchdog tasks, and the statuses, log entries and issue a
 * run produces for each way it can end. Forge API calls, log streaming,
 * podman itself and asyncio scheduling are outside the model; what they
 * return enters as parameters.
 */
module AioJob {
  import opened Wrappers
  import opened Strings
  import opened Json

  // -----------------------------------------------------------------------
  // The job description

  /** The part of a subject specification this code reads: the repository and the pull request, if any. */
  datatype SubjectSpec = SubjectSpec(repo: string, pull: Option<int>)

  /** A resolved subject: the commit to test, a branch to rebase onto, and where to clone from. */
  datatype Subject = Subject(sha: string, rebase: Option<string>, cloneUrl: string)

  /** A job description; its fields are set once when it is read and never change. */
  datatype Job = Job(
    subject: SubjectSpec,
    container: Option<string>,
    commandSubject: Option<SubjectSpec>,
    secrets: seq<string>,
    command: Option<seq<string>>,
    env: seq<(string, string)>,
    timeout: int,
    context: Option<string>,
    slug: Option<string>,
    title: Option<string>,
    report: Option<JsonObject>)

  /** Reads a subject specification out of a JSON object. */
  type SubjectReader = JsonObject -> Result<SubjectSpec, JsonError>

  /** `get_object(obj, key, SubjectSpecification, None)` */
  function GetSubject(obj: JsonObject, key: string, readSubject: SubjectReader): (r: Result<Option<SubjectSpec>, JsonError>)
    ensures !HasKey(obj, key) ==> r == Success(None)
    ensures HasKey(obj, key) && !Lookup(obj, key).value.JObject? ==> r == Failure(JsonError(key, "object"))
    ensures HasKey(obj, key) && Lookup(obj, key).value.JObject? ==>
              r == match readSubject(Lookup(obj, key).value.fields)
                   case Success(spec) => Success(Some(spec))
                   case Failure(e) => Failure(e)
  {
    match Lookup(obj, key)
    case None => Success(None)
    case Some(JObject(fields)) =>
      (match readSubject(fields)
       case Success(s) => Success(Some(s))
       case Failure(e) => Failure(e))
    case Some(_) => Failure(JsonError(key, "object"))
  }

  /** `Job(obj)`: the fields are read in the order of `Job.__init__`; the first one refused is the error. */
  function ParseJob(obj: JsonObject, readSubject: SubjectReader): (r: Result<Job, JsonError>)
    ensures readSubject(obj).Failure? ==> r == Failure(readSubject(obj).error)
    ensures r.Success? ==> readSubject(obj).Success? && r.value.subject == readSubject(obj).value
  {
    var subject :- readSubject(obj);
    var container :- GetStr(obj, "container", None);
    var commandSubject :- GetSubject(obj, "command_subject", readSubject);
    var secrets :- GetStrv(obj, "secrets", Some([]));
    var command :- GetStrv(obj, "command", None);
    var env :- GetStrMap(obj, "env", []);
    var timeout :- GetInt(obj, "timeout", 120);
    var context :- GetStr(obj, "context", None);
    var slug :- GetStr(obj, "slug", None);
    var title :- GetStr(obj, "title", None);
    var report :- GetDict(obj, "report", None);
    Success(Job(subject, container, commandSubject, secrets.GetOr([]), command, env, timeout,
                context, slug, title, report))
  }

  /** A job read successfully holds, for every key, the object's value, or the default when the key is absent. */
  lemma ParseJobFields(obj: JsonObject, readSubject: SubjectReader)
    requires ParseJob(obj, readSubject).Success?
    ensures var job := ParseJob(obj, readSubject).value;
            && job.container == (if HasKey(obj, "container") then Some(Lookup(obj, "container").value.s) else None)
            && job.commandSubject ==
                 (if HasKey(obj, "command_subject")
                  then Some(readSubject(Lookup(obj, "command_subject").value.fields).value) else None)
            && job.secrets == (if HasKey(obj, "secrets") then AsStrings(Lookup(obj, "secrets").value.items).value else [])
            && job.command == (if HasKey(obj, "command") then Some(AsStrings(Lookup(obj, "command").value.items).value) else None)
            && job.env == (if HasKey(obj, "env") then AsStringMap(Lookup(obj, "env").value.fields).value else [])
            && job.timeout == (if HasKey(obj, "timeout") then Lookup(obj, "timeout").value.i else 120)
            && job.context == (if HasKey(obj, "context") then Some(Lookup(obj, "context").value.s) else None)
            && job.slug == (if HasKey(obj, "slug") then Some(Lookup(obj, "slug").value.s) else None)
            && job.title == (if HasKey(obj, "title") then Some(Lookup(obj, "title").value.s) else None)
            && job.report == (if HasKey(obj, "report") then Some(Lookup(obj, "report").value.fields) else None)
  {
    var container := GetStr(obj, "container", None);
    var commandSubject := GetSubject(obj, "command_subject", readSubject);
    var secrets := GetStrv(obj, "secrets", Some([]));
    var command := GetStrv(obj, "command", None);
    var env := GetStrMap(obj, "env", []);
    var timeout := GetInt(obj, "timeout", 120);
    var context := GetStr(obj, "context", None);
    var slug := GetStr(obj, "slug", None);
    var title := GetStr(obj, "title", None);
    var report := GetDict(obj, "report", None);
    assert && container.Success? && commandSubject.Success? && secrets.Success? && command.Success?
           && env.Success? && timeout.Success? && context.Success? && slug.Success? && title.Success? && report.Success?;
    assert ParseJob(obj, readSubject).value ==
             Job(readSubject(obj).value, container.value, commandSubject.value, secrets.value.GetOr([]), command.value,
                 env.value, timeout.value, context.value, slug.value, title.value, report.value);
  }

  /** `key` is absent or holds a value of the given kind. */
  predicate StrAt(obj: JsonObject, key: string) {
    HasKey(obj, key) ==> Lookup(obj, key).value.JStr?
  }

  predicate IntAt(obj: JsonObject, key: string) {
    HasKey(obj, key) ==> Lookup(obj, key).value.JInt?
  }

  predicate StrvAt(obj: JsonObject, key: string) {
    HasKey(obj, key) ==> Lookup(obj, key).value.JArray? && AsStrings(Lookup(obj, key).value.items).Some?
  }

  predicate StrMapAt(obj: JsonObject, key: string) {
    HasKey(obj, key) ==> Lookup(obj, key).value.JObject? && AsStringMap(Lookup(obj, key).value.fields).Some?
  }

  predicate DictAt(obj: JsonObject, key: string) {
    HasKey(obj, key) ==> Lookup(obj, key).value.JObject?
  }

  predicate SubjectAt(obj: JsonObject, key: string, readSubject: SubjectReader) {
    HasKey(obj, key) ==> Lookup(obj, key).value.JObject? && readSubject(Lookup(obj, key).value.fields).Success?
  }

  /** Every job key the description sets holds a value of the type `Job.__init__` reads it as. */
  predicate JobKeysAccepted(obj: JsonObject, readSubject: SubjectReader) {
    && StrAt(obj, "container") && SubjectAt(obj, "command_subject", readSubject)
    && StrvAt(obj, "secrets") && StrvAt(obj, "command") && StrMapAt(obj, "env") && IntAt(obj, "timeout")
    && StrAt(obj, "context") && StrAt(obj, "slug") && StrAt(obj, "title") && DictAt(obj, "report")
  }

  /**
   * A description is read exactly when its subject is read and every job key
   * it sets has the right type; one wrongly typed key fails the whole job.
   */
  lemma ParseJobSucceedsIff(obj: JsonObject, readSubject: SubjectReader)
    ensures ParseJob(obj, readSubject).Success? <==> readSubject(obj).Success? && JobKeysAccepted(obj, readSubject)
  {
    var container := GetStr(obj, "container", None);
    var commandSubject := GetSubject(obj, "command_subject", readSubject);
    var secrets := GetStrv(obj, "secrets", Some([]));
    var command := GetStrv(obj, "command", None);
    var env := GetStrMap(obj, "env", []);
    var timeout := GetInt(obj, "timeout", 120);
    var context := GetStr(obj, "context", None);
    var slug := GetStr(obj, "slug", None);
    var title := GetStr(obj, "title", None);
    var report := GetDict(obj, "report", None);
    var allGot := && container.Success? && commandSubject.Success? && secrets.Success? && command.Success?
                  && env.Success? && timeout.Success? && context.Success? && slug.Success? && title.Success?
                  && report.Success?;
    assert ParseJob(obj, readSubject).Success? <==> readSubject(obj).Success? && allGot;
    KeysAccepted(obj, readSubject);
  }

  /** The job keys are accepted exactly when each of the ten typed lookups succeeds. */
  lemma KeysAccepted(obj: JsonObject, readSubject: SubjectReader)
    ensures JobKeysAccepted(obj, readSubject) <==>
              && GetStr(obj, "container", None).Success?
              && GetSubject(obj, "command_subject", readSubject).Success?
              && GetStrv(obj, "secrets", Some([])).Success?
              && GetStrv(obj, "command", None).Success?
              && GetStrMap(obj, "env", []).Success?
              && GetInt(obj, "timeout", 120).Success?
              && GetStr(obj, "context", None).Success?
              && GetStr(obj, "slug", None).Success?
              && GetStr(obj, "title", None).Success?
              && GetDict(obj, "report", None).Success?
  {
  }

  const JobKeys := ["container", "command_subject", "secrets", "command", "env", "timeout",
                    "context", "slug", "title", "report"]

  /**
   * A description that sets none of the job keys gets a two-hour timeout, no
   * secrets, an empty environment and nothing else.
   */
  lemma ParseJobDefaults(obj: JsonObject, readSubject: SubjectReader)
    requires readSubject(obj).Success?
    requires forall k :: k in JobKeys ==> !HasKey(obj, k)
    ensures ParseJob(obj, readSubject) ==
              Success(Job(readSubject(obj).value, None, None, [], None, [], 120, None, None, None, None))
  {
    assert !HasKey(obj, "container") && !HasKey(obj, "command_subject") && !HasKey(obj, "secrets");
    assert !HasKey(obj, "command") && !HasKey(obj, "env") && !HasKey(obj, "timeout");
    assert !HasKey(obj, "context") && !HasKey(obj, "slug") && !HasKey(obj, "title") && !HasKey(obj, "report");
  }

  /** A timeout that is not an integer is refused; an integer one is used as given. */
  lemma ParseJobTimeout(obj: JsonObject, readSubject: SubjectReader)
    requires readSubject(obj).Success?
    ensures HasKey(obj, "timeout") && !Lookup(obj, "timeout").value.JInt? ==> ParseJob(obj, readSubject).Failure?
    ensures ParseJob(obj, readSubject).Success? && HasKey(obj, "timeout") ==>
              ParseJob(obj, readSubject).value.timeout == Lookup(obj, "timeout").value.i
  {
  }

  // -----------------------------------------------------------------------
  // Title and log slug

  /** `f'{x}'` of an optional string: a missing value prints as `None`. */
  function FormatOpt(o: Option<string>): string {
    if o.Some? then o.value else "None"
  }

  /** `sha[:12]` */
  function ShortSha(sha: string): string {
    Take(sha, 12)
  }

  /** `job.title or f'{job.context}@{job.subject.repo}#{sha[:12]}'` */
  function JobTitle(job: Job, sha: string): (title: string)
    ensures Truthy(job.title) ==> title == job.title.value
  {
    if Truthy(job.title) then job.title.value
    else FormatOpt(job.context) + "@" + job.subject.repo + "#" + ShortSha(sha)
  }

  /** `job.slug or f'{job.subject.repo}/{job.context or "-"}/{sha[:12]}'` */
  function JobSlug(job: Job, sha: string): (slug: string)
    ensures Truthy(job.slug) ==> slug == job.slug.value
  {
    if Truthy(job.slug) then job.slug.value
    else job.subject.repo + "/" + ContextOrDash(job.context) + "/" + ShortSha(sha)
  }

  lemma ShortShaLacks(sha: string, c: char)
    requires c !in sha
    ensures c !in ShortSha(sha)
    ensures StartsWith(sha, ShortSha(sha)) && |ShortSha(sha)| == if |sha| <= 12 then |sha| else 12
  {
    if |sha| > 12 {
      assert forall i :: 0 <= i < 12 ==> ShortSha(sha)[i] == sha[i];
    }
  }

  /**
   * A default title is `context@repo`, then `#`, then the first twelve
   * characters of the commit, which follow its last `#`.
   */
  lemma DefaultTitleEndsWithSha(job: Job, sha: string)
    requires !Truthy(job.title) && '#' !in sha
    ensures RPartition(JobTitle(job, sha), '#') ==
              Partition(FormatOpt(job.context) + "@" + job.subject.repo, "#", ShortSha(sha))
  {
    ShortShaLacks(sha, '#');
    var head := FormatOpt(job.context) + "@" + job.subject.repo;
    assert JobTitle(job, sha) == head + ['#'] + ShortSha(sha);
    RPartitionUnique(head, '#', ShortSha(sha));
  }

  /** `job.context or "-"` */
  function ContextOrDash(context: Option<string>): string {
    if Truthy(context) then context.value else "-"
  }

  /**
   * A default slug is `repo/context` (or `repo/-`), then `/`, then the first
   * twelve characters of the commit, which follow its last `/`.
   */
  lemma DefaultSlugEndsWithSha(job: Job, sha: string)
    requires !Truthy(job.slug) && '/' !in sha
    ensures RPartition(JobSlug(job, sha), '/') ==
              Partition(job.subject.repo + "/" + ContextOrDash(job.context), "/", ShortSha(sha))
  {
    ShortShaLacks(sha, '/');
    var head := job.subject.repo + "/" + ContextOrDash(job.context);
    assert JobSlug(job, sha) == head + ['/'] + ShortSha(sha);
    RPartitionUnique(head, '/', ShortSha(sha));
  }

  /** The head of a default title splits back, at its last `@`, into the printed context and the repository. */
  lemma DefaultTitleHead(job: Job)
    requires '@' !in job.subject.repo
    ensures RPartition(FormatOpt(job.context) + "@" + job.subject.repo, '@') ==
              Partition(FormatOpt(job.context), "@", job.subject.repo)
  {
    assert FormatOpt(job.context) + "@" + job.subject.repo == FormatOpt(job.context) + ['@'] + job.subject.repo;
    RPartitionUnique(FormatOpt(job.context), '@', job.subject.repo);
  }

  /** The head of a default slug splits back, at its last `/`, into the repository and the context or `-`. */
  lemma DefaultSlugHead(job: Job)
    requires '/' !in ContextOrDash(job.context)
    ensures RPartition(job.subject.repo + "/" + ContextOrDash(job.context), '/') ==
              Partition(job.subject.repo, "/", ContextOrDash(job.context))
  {
    assert job.subject.repo + "/" + ContextOrDash(job.context) == job.subject.repo + ['/'] + ContextOrDash(job.context);
    RPartitionUnique(job.subject.repo, '/', ContextOrDash(job.context));
  }

  // -----------------------------------------------------------------------
  // run_container: image and command line

  /** The runner's settings that `run_container` reads. */
  datatype JobContext = JobContext(
    containerCmd: seq<string>,
    containerRunArgs: seq<string>,
    secretsArgs: seq<(string, seq<string>)>,
    defaultImage: string)

  /**
   * `(job.container or <the repository's .cockpit-ci/container> or ctx.default_image).strip()`:
   * the first truthy candidate, stripped after it is chosen.
   */
  function ContainerImage(container: Option<string>, repoFile: Option<string>, defaultImage: string): (image: string)
    ensures Truthy(container) ==> image == Strip(container.value)
    ensures !Truthy(container) && Truthy(repoFile) ==> image == Strip(repoFile.value)
    ensures !Truthy(container) && !Truthy(repoFile) ==> image == Strip(defaultImage)
    ensures Strip(image) == image
  {
    var chosen := if Truthy(container) then container.value
                  else if Truthy(repoFile) then repoFile.value
                  else defaultImage;
    StripIdempotent(chosen);
    Strip(chosen)
  }

  /** One `--env=key=value` per environment entry, in order. */
  function EnvArgs(env: seq<(string, string)>): (args: seq<string>)
    ensures |args| == |env|
    ensures forall i :: 0 <= i < |env| ==> args[i] == "--env=" + env[i].0 + "=" + env[i].1
  {
    seq(|env|, i requires 0 <= i < |env| => "--env=" + env[i].0 + "=" + env[i].1)
  }

  /** The runner's arguments for every secret the job names, in the runner's order. */
  function SecretArgs(secretsArgs: seq<(string, seq<string>)>, names: seq<string>): (r: seq<string>)
    ensures forall a :: a in r ==> exists i :: 0 <= i < |secretsArgs| && secretsArgs[i].0 in names && a in secretsArgs[i].1
  {
    if secretsArgs == [] then []
    else
      var rest := SecretArgs(secretsArgs[1..], names);
      assert forall i :: 1 <= i < |secretsArgs| ==> secretsArgs[i] == secretsArgs[1..][i - 1];
      (if secretsArgs[0].0 in names then secretsArgs[0].1 else []) + rest
  }

  /** An argument is passed for secrets exactly when it belongs to a secret the job names. */
  lemma {:induction false} SecretArgsIff(secretsArgs: seq<(string, seq<string>)>, names: seq<string>, a: string)
    ensures a in SecretArgs(secretsArgs, names) <==>
              exists i :: 0 <= i < |secretsArgs| && secretsArgs[i].0 in names && a in secretsArgs[i].1
  {
    if secretsArgs != [] {
      SecretArgsIff(secretsArgs[1..], names, a);
      assert forall i :: 1 <= i < |secretsArgs| ==> secretsArgs[i] == secretsArgs[1..][i - 1];
    }
  }

  /**
   * The secret arguments of two runner tables put one after the other are the
   * first table's followed by the second's: the runner's order is kept and
   * each named secret contributes its arguments once.
   */
  lemma {:induction false} SecretArgsAppend(a: seq<(string, seq<string>)>, b: seq<(string, seq<string>)>, names: seq<string>)
    ensures SecretArgs(a + b, names) == SecretArgs(a, names) + SecretArgs(b, names)
  {
    if a == [] {
      assert a + b == b;
    } else {
      var ab := a + b;
      assert ab[0] == a[0];
      assert ab[1..] == a[1..] + b;
      SecretArgsAppend(a[1..], b, names);
    }
  }

  /** One runner secret contributes its arguments exactly when the job names it. */
  lemma SecretArgsSingle(secret: (string, seq<string>), names: seq<string>)
    ensures SecretArgs([secret], names) == if secret.0 in names then secret.1 else []
  {
    assert [secret][1..] == [];
  }

  /** A job that names none of the runner's secrets gets no secret arguments. */
  lemma {:induction false} SecretArgsNoneNamed(secretsArgs: seq<(string, seq<string>)>, names: seq<string>)
    requires forall i :: 0 <= i < |secretsArgs| ==> secretsArgs[i].0 !in names
    ensures SecretArgs(secretsArgs, names) == []
  {
    if secretsArgs != [] {
      SecretArgsNoneNamed(secretsArgs[1..], names);
    }
  }

  /** `--rebase=<branch>` when the subject has one. */
  function RebaseArgs(rebase: Option<string>): seq<string> {
    if Truthy(rebase) then ["--rebase=" + rebase.value] else []
  }

  /** `--` and the command, when there is a non-empty command. */
  function CommandArgs(command: Option<seq<string>>): seq<string> {
    if command.Some? && command.value != [] then ["--"] + command.value else []
  }

  /** The `run` arguments that precede the image. */
  function RunArgs(job: Job, ctx: JobContext, tmpdir: string, logUrl: string): seq<string> {
    ctx.containerCmd + ["run", "--init"] + ctx.containerRunArgs + ["--cidfile=" + tmpdir + "/cidfile"] +
    EnvArgs(job.env) +
    ["--env=TEST_ATTACHMENTS=/var/tmp/attachments", "--env=COCKPIT_CI_LOG_URL=" + logUrl] +
    SecretArgs(ctx.secretsArgs, job.secrets)
  }

  /** The whole container command line: run arguments, image, checkout script and its arguments. */
  function ContainerArgv(job: Job, subject: Subject, ctx: JobContext, image: string,
                         tmpdir: string, logUrl: string, script: string): (r: seq<string>)
    ensures var n := |ctx.containerCmd|;
            && |r| >= n + 3
            && r[..n] == ctx.containerCmd
            && r[n..n + 2] == ["run", "--init"]
  {
    RunArgs(job, ctx, tmpdir, logUrl) +
    [image, "python3", "-c", script, "--revision=" + subject.sha] +
    RebaseArgs(subject.rebase) + [subject.cloneUrl] + CommandArgs(job.command)
  }

  /**
   * The argument list of `run_container`, built as the source builds it: the
   * list display, then the optional `--rebase`, the clone URL, and the
   * optional command.
   */
  method BuildContainerArgs(job: Job, subject: Subject, ctx: JobContext, image: string,
                            tmpdir: string, logUrl: string, script: string) returns (args: seq<string>)
    ensures args == ContainerArgv(job, subject, ctx, image, tmpdir, logUrl, script)
  {
    args := ctx.containerCmd + ["run", "--init"] + ctx.containerRunArgs + ["--cidfile=" + tmpdir + "/cidfile"] +
            EnvArgs(job.env) +
            ["--env=TEST_ATTACHMENTS=/var/tmp/attachments", "--env=COCKPIT_CI_LOG_URL=" + logUrl] +
            SecretArgs(ctx.secretsArgs, job.secrets) +
            [image, "python3", "-c", script, "--revision=" + subject.sha];
    if Truthy(subject.rebase) {
      args := args + ["--rebase=" + subject.rebase.value];
    }
    args := args + [subject.cloneUrl];
    if job.command.Some? && job.command.value != [] {
      args := args + ["--"];
      args := args + job.command.value;
    }
  }

  /**
   * Where things sit on the container command line: the image right after the
   * run arguments, `--revision` four places later, then `--rebase` only when
   * the subject has a rebase branch, then the clone URL, then `--` and the
   * command only when the command is non-empty.
   */
  lemma ContainerArgvLayout(job: Job, subject: Subject, ctx: JobContext, image: string,
                            tmpdir: string, logUrl: string, script: string)
    ensures var args := ContainerArgv(job, subject, ctx, image, tmpdir, logUrl, script);
            var p := |RunArgs(job, ctx, tmpdir, logUrl)|;
            var q := p + 5 + (if Truthy(subject.rebase) then 1 else 0);
            var hasCommand := job.command.Some? && job.command.value != [];
            && args[..p] == RunArgs(job, ctx, tmpdir, logUrl)
            && args[p] == image
            && args[p + 1..p + 4] == ["python3", "-c", script]
            && args[p + 4] == "--revision=" + subject.sha
            && (Truthy(subject.rebase) ==> args[p + 5] == "--rebase=" + subject.rebase.value)
            && args[q] == subject.cloneUrl
            && |args| == q + 1 + (if hasCommand then 1 + |job.command.value| else 0)
            && (hasCommand ==> args[q + 1] == "--" && args[q + 2..] == job.command.value)
  {
    var checkout := [image, "python3", "-c", script, "--revision=" + subject.sha];
    ArgvPieces(RunArgs(job, ctx, tmpdir, logUrl), checkout, RebaseArgs(subject.rebase), subject.cloneUrl, CommandArgs(job.command));
    assert checkout[1..4] == ["python3", "-c", script];
  }

  /** Where each piece of a concatenated argument list sits. */
  lemma ArgvPieces(run: seq<string>, checkout: seq<string>, rebase: seq<string>, url: string, command: seq<string>)
    requires |checkout| == 5
    ensures var args := run + checkout + rebase + [url] + command;
            var q := |run| + 5 + |rebase|;
            && |args| == q + 1 + |command|
            && args[..|run|] == run
            && args[|run|] == checkout[0] && args[|run| + 1..|run| + 4] == checkout[1..4] && args[|run| + 4] == checkout[4]
            && (rebase != [] ==> args[|run| + 5] == rebase[0])
            && args[q] == url
            && args[q + 1..] == command
  {
    var args := run + checkout + rebase + [url] + command;
    var q := |run| + 5 + |rebase|;
    assert args[|run|..|run| + 5] == checkout;
    assert args[|run| + 1..|run| + 4] == checkout[1..4];
    assert args[q + 1..] == command;
  }

  /** Every environment entry of the job becomes one `--env=key=value` argument, in order. */
  lemma ContainerArgvEnv(job: Job, ctx: JobContext, tmpdir: string, logUrl: string)
    ensures var run := RunArgs(job, ctx, tmpdir, logUrl);
            var e := |ctx.containerCmd| + 2 + |ctx.containerRunArgs| + 1;
            && e + |job.env| + 2 <= |run|
            && forall i :: 0 <= i < |job.env| ==> run[e + i] == "--env=" + job.env[i].0 + "=" + job.env[i].1
  {
  }

  // -----------------------------------------------------------------------
  // run_job: tasks

  /** The tasks `run_job` gathers. */
  datatype Task =
    | ContainerTask(subject: Subject)
    | TimeoutTask(minutes: int)
    | PollPrTask(repo: string, pull: int, expectedSha: string)

  /** The subject whose checkout runs the command: the command subject when there is one. */
  function CommandSubject(job: Job, resolve: SubjectSpec -> Subject): (s: Subject)
    ensures job.commandSubject.None? ==> s == resolve(job.subject)
    ensures job.commandSubject.Some? ==> s == resolve(job.commandSubject.value)
  {
    if job.commandSubject.Some? then resolve(job.commandSubject.value) else resolve(job.subject)
  }

  /**
   * The task set of `run_job`: always the container, on the command subject
   * when there is one and on the job's subject otherwise, the timeout watchdog
   * when the timeout is non-zero, and the pull request watcher, which checks
   * for the job subject's commit, when there is a pull request.
   */
  method ComposeTasks(job: Job, resolve: SubjectSpec -> Subject) returns (tasks: set<Task>)
    ensures forall t :: t in tasks <==>
              || t == ContainerTask(CommandSubject(job, resolve))
              || (job.timeout != 0 && t == TimeoutTask(job.timeout))
              || (job.subject.pull.Some? && t == PollPrTask(job.subject.repo, job.subject.pull.value, resolve(job.subject).sha))
    ensures |tasks| == 1 + (if job.timeout != 0 then 1 else 0) + (if job.subject.pull.Some? then 1 else 0)
  {
    var subject := resolve(job.subject);
    var commandSubject := if job.commandSubject.Some? then resolve(job.commandSubject.value) else subject;
    tasks := {ContainerTask(commandSubject)};
    if job.timeout != 0 {
      tasks := tasks + {TimeoutTask(job.timeout)};
    }
    if job.subject.pull.Some? {
      tasks := tasks + {PollPrTask(job.subject.repo, job.subject.pull.value, subject.sha)};
    }
  }

  // -----------------------------------------------------------------------
  // Outcomes

  /** How the `try` body of `run_job` ended. */
  datatype Outcome =
    | Completed               // the tasks finished without raising
    | Failed(message: string) // a `Failure` was raised with this message
    | Cancelled               // `asyncio.CancelledError`
    | Crashed                 // any other exception

  /** `timeout_minutes(minutes)` once its timer has run out. */
  function TimeoutOutcome(minutes: int): (o: Outcome)
    ensures o.Failed?
  {
    Failed("Timeout after " + IntToString(minutes) + " minutes")
  }

  /**
   * `poll_pr` over the answers of successive checks whether the pull request
   * changed: the first truthy reason is raised as a `Failure`; while there is
   * none the task keeps polling (None).
   */
  method PollPr(checks: seq<Option<string>>) returns (o: Option<Outcome>)
    ensures o.None? <==> forall i :: 0 <= i < |checks| ==> !Truthy(checks[i])
    ensures o.Some? ==> exists i :: && 0 <= i < |checks| && Truthy(checks[i])
                                    && o.value == Failed(checks[i].value)
                                    && forall j :: 0 <= j < i ==> !Truthy(checks[j])
  {
    var i := 0;
    while i < |checks|
      invariant 0 <= i <= |checks|
      invariant forall j :: 0 <= j < i ==> !Truthy(checks[j])
    {
      if Truthy(checks[i]) {
        return Some(Failed(checks[i].value));
      }
      i := i + 1;
    }
    return None;
  }

  /**
   * The end of `run_container`: no cidfile means the container was never
   * created (RuntimeError); otherwise a non-zero exit code is a `Failure`.
   */
  function ContainerOutcome(cidfileExists: bool, returncode: int): (o: Outcome)
    ensures o.Failed? <==> cidfileExists && returncode != 0
    ensures o == Crashed <==> !cidfileExists
    ensures o == Completed <==> cidfileExists && returncode == 0
  {
    if !cidfileExists then Crashed
    else if returncode != 0 then Failed("Container exited with code " + IntToString(returncode))
    else Completed
  }

  /** The exit code can be read back from the last word of the failure message. */
  lemma ContainerExitCodeInMessage(returncode: int)
    requires returncode != 0
    ensures ParseInt(RPartition(ContainerOutcome(true, returncode).message, ' ').tail) == Some(returncode)
  {
    var digits := IntToString(returncode);
    var m: nat := if returncode < 0 then -returncode else returncode;
    assert AllDigits(NatToString(m));
    assert digits == (if returncode < 0 then "-" else "") + NatToString(m);
    assert ' ' !in digits;
    assert ContainerOutcome(true, returncode).message == "Container exited with code" + [' '] + digits;
    RPartitionUnique("Container exited with code", ' ', digits);
    ParseIntRoundTrip(returncode);
  }

  // -----------------------------------------------------------------------
  // run_job: statuses, log and issue

  /** What `run_job` does to the outside world, in order. */
  datatype Effect =
    | LogStart(title: string)                    // starts the log; the title is its first line
    | Post(state: string, description: string)  // posts a commit status
    | LogWrite(text: string)
    | LogTraceback                               // writes the exception's traceback to the log
    | OpenIssue(repo: string, issue: JsonObject)
    | LogClose
    | IndexSync

  /** The commit status every post of a run goes to. */
  datatype StatusTarget = StatusTarget(repo: string, sha: string, context: Option<string>, logUrl: string)

  /** A run of `run_job`: the log slug, the status it posts to, its effects, and whether it re-raises. */
  datatype RunRecord = RunRecord(slug: string, status: StatusTarget, effects: seq<Effect>, reraises: bool)

  /** The body of the issue opened for a failed job. */
  function IssueBody(context: Option<string>, sha: string, logUrl: string): string {
    "The job `" + FormatOpt(context) + "` failed on commit " + sha + ".\n\nLog: " + logUrl + "\n"
  }

  /** The issue for a failed job: a default title and body, overridden by the keys of the job's report. */
  function Issue(job: Job, sha: string, logUrl: string, report: JsonObject): (issue: JsonObject)
    ensures forall key :: HasKey(issue, key) <==> key == "title" || key == "body" || HasKey(report, key)
  {
    var base := [("title", JStr(FormatOpt(job.context) + " failed")), ("body", JStr(IssueBody(job.context, sha, logUrl)))];
    assert forall key :: HasKey(Merge(base, report), key) <==> key == "title" || key == "body" || HasKey(report, key) by {
      forall key
        ensures HasKey(Merge(base, report), key) <==> key == "title" || key == "body" || HasKey(report, key)
      {
        MergeLookup(base, report, key);
        assert base[1..][1..] == [];
      }
    }
    Merge(base, report)
  }

  /**
   * Without line breaks in the context, the commit or the URL, the dedented
   * body has three lines: the failure sentence, an empty line and the log link.
   */
  lemma IssueBodyLines(context: Option<string>, sha: string, logUrl: string)
    requires NoLineBreak(FormatOpt(context)) && NoLineBreak(sha) && NoLineBreak(logUrl)
    ensures SplitLines(IssueBody(context, sha, logUrl)) ==
              ["The job `" + FormatOpt(context) + "` failed on commit " + sha + ".", "", "Log: " + logUrl]
  {
    var first := "The job `" + FormatOpt(context) + "` failed on commit " + sha + ".";
    var last := "Log: " + logUrl;
    var lines := [first, "", last];
    FailureSentenceOneLine(FormatOpt(context), sha);
    NoLineBreakAppend("Log: ", logUrl);
    TerminatedThree(first, "", last);
    assert Terminated(lines) == IssueBody(context, sha, logUrl);
    SplitLinesTerminated(lines);
  }

  /** The failure sentence of the issue body stays on one line when the context and commit do. */
  lemma FailureSentenceOneLine(context: string, sha: string)
    requires NoLineBreak(context) && NoLineBreak(sha)
    ensures NoLineBreak("The job `" + context + "` failed on commit " + sha + ".")
  {
    NoLineBreakAppend("The job `", context);
    NoLineBreakAppend("The job `" + context, "` failed on commit ");
    NoLineBreakAppend("The job `" + context + "` failed on commit ", sha);
    NoLineBreakAppend("The job `" + context + "` failed on commit " + sha, ".");
  }

  /** The `except`/`else` branch `run_job` runs for each outcome. */
  function Handler(job: Job, sha: string, logUrl: string, outcome: Outcome): (effects: seq<Effect>)
    ensures |effects| == if outcome.Failed? && job.report.Some? then 3 else 2
    ensures outcome.Failed? ==>
              effects[0] == LogWrite("\n*** Failure: " + outcome.message + "\n") && effects[1].Post?
    ensures !outcome.Failed? ==> effects[0].Post? && !effects[1].Post?
    ensures outcome.Crashed? ==> effects[1] == LogTraceback
    ensures outcome.Completed? ==> effects[1] == LogWrite("\n\nJob ran successfully.  :)\n")
    ensures outcome.Cancelled? ==> effects[1] == LogWrite("*** Job cancelled\n")
    ensures outcome.Failed? && job.report.Some? ==>
              effects[2] == OpenIssue(job.subject.repo, Issue(job, sha, logUrl, job.report.value))
  {
    match outcome
    case Completed => [Post("success", "Success"), LogWrite("\n\nJob ran successfully.  :)\n")]
    case Failed(msg) =>
      [LogWrite("\n*** Failure: " + msg + "\n"), Post("failure", msg)] +
      (if job.report.Some? then [OpenIssue(job.subject.repo, Issue(job, sha, logUrl, job.report.value))] else [])
    case Cancelled => [Post("error", "Cancelled"), LogWrite("*** Job cancelled\n")]
    case Crashed => [Post("error", "Internal error"), LogTraceback]
  }

  /**
   * `run_job`, given how its `try` body ends: start the log, post pending,
   * run the branch for the outcome, then close the log and sync the index.
   */
  function RunJob(job: Job, resolve: SubjectSpec -> Subject, logUrl: string, outcome: Outcome): (run: RunRecord)
    ensures var sha := resolve(job.subject).sha;
            && run.slug == JobSlug(job, sha)
            && run.status == StatusTarget(job.subject.repo, sha, job.context, logUrl)
            && |run.effects| == |Handler(job, sha, logUrl, outcome)| + 4
            && run.effects[2..|run.effects| - 2] == Handler(job, sha, logUrl, outcome)
            && (run.reraises <==> outcome.Cancelled? || outcome.Crashed?)
  {
    var subject := resolve(job.subject);
    RunRecord(
      JobSlug(job, subject.sha),
      StatusTarget(job.subject.repo, subject.sha, job.context, logUrl),
      [LogStart(JobTitle(job, subject.sha)), Post("pending", "In progress")] +
      Handler(job, subject.sha, logUrl, outcome) +
      [LogClose, IndexSync],
      outcome.Cancelled? || outcome.Crashed?)
  }

  /** The status posts among the effects, in order. */
  function Posts(effects: seq<Effect>): seq<(string, string)> {
    if effects == [] then [] else PostOf(effects[0]) + Posts(effects[1..])
  }

  /** The status a single effect posts, if it posts one. */
  function PostOf(e: Effect): seq<(string, string)> {
    if e.Post? then [(e.state, e.description)] else []
  }

  lemma {:induction false} PostsAppend(a: seq<Effect>, b: seq<Effect>)
    ensures Posts(a + b) == Posts(a) + Posts(b)
  {
    if a == [] {
      assert a + b == b;
    } else {
      var ab := a + b;
      assert ab[0] == a[0];
      assert ab[1..] == a[1..] + b;
      PostsAppend(a[1..], b);
      assert Posts(ab) == PostOf(a[0]) + (Posts(a[1..]) + Posts(b));
    }
  }

  /** The terminal status for each outcome. */
  function TerminalStatus(outcome: Outcome): (string, string) {
    match outcome
    case Completed => ("success", "Success")
    case Failed(msg) => ("failure", msg)
    case Cancelled => ("error", "Cancelled")
    case Crashed => ("error", "Internal error")
  }

  lemma PostsPair(x: Effect, y: Effect)
    ensures Posts([x, y]) == PostOf(x) + PostOf(y)
  {
    assert [x, y][1..] == [y];
    assert [y][1..] == [];
    assert Posts([y]) == PostOf(y) + Posts([]);
    assert Posts([x, y]) == PostOf(x) + Posts([y]);
  }

  /** The branch for each outcome posts exactly its terminal status. */
  lemma HandlerPosts(job: Job, sha: string, logUrl: string, outcome: Outcome)
    ensures Posts(Handler(job, sha, logUrl, outcome)) == [TerminalStatus(outcome)]
  {
    match outcome {
      case Completed =>
        PostsPair(Post("success", "Success"), LogWrite("\n\nJob ran successfully.  :)\n"));
      case Failed(msg) =>
        var issue := if job.report.Some? then [OpenIssue(job.subject.repo, Issue(job, sha, logUrl, job.report.value))] else [];
        PostsPair(LogWrite("\n*** Failure: " + msg + "\n"), Post("failure", msg));
        PostsAppend([LogWrite("\n*** Failure: " + msg + "\n"), Post("failure", msg)], issue);
        assert Posts(issue) == [] by {
          if issue != [] { assert issue[1..] == []; }
        }
      case Cancelled =>
        PostsPair(Post("error", "Cancelled"), LogWrite("*** Job cancelled\n"));
      case Crashed =>
        PostsPair(Post("error", "Internal error"), LogTraceback);
    }
  }

  /** Every run posts `pending` first and then exactly one terminal status. */
  lemma RunJobPosts(job: Job, resolve: SubjectSpec -> Subject, logUrl: string, outcome: Outcome)
    ensures Posts(RunJob(job, resolve, logUrl, outcome).effects) == [("pending", "In progress"), TerminalStatus(outcome)]
  {
    var sha := resolve(job.subject).sha;
    var h := Handler(job, sha, logUrl, outcome);
    var start := [LogStart(JobTitle(job, sha)), Post("pending", "In progress")];
    PostsAppend(start + h, [LogClose, IndexSync]);
    PostsAppend(start, h);
    PostsPair(LogStart(JobTitle(job, sha)), Post("pending", "In progress"));
    PostsPair(LogClose, IndexSync);
    HandlerPosts(job, sha, logUrl, outcome);
  }

  /** The log is started first and, on every outcome, closed and its index synced last. */
  lemma RunJobLogBrackets(job: Job, resolve: SubjectSpec -> Subject, logUrl: string, outcome: Outcome)
    ensures var e := RunJob(job, resolve, logUrl, outcome).effects;
            && |e| >= 4
            && e[0] == LogStart(JobTitle(job, resolve(job.subject).sha))
            && e[|e| - 2..] == [LogClose, IndexSync]
  {
  }

  /** The run re-raises exactly on cancellation and on unexpected exceptions. */
  lemma RunJobReraises(job: Job, resolve: SubjectSpec -> Subject, logUrl: string, outcome: Outcome)
    ensures RunJob(job, resolve, logUrl, outcome).reraises <==> TerminalStatus(outcome).0 == "error"
  {
  }

  predicate OpensIssue(effects: seq<Effect>) {
    exists i :: 0 <= i < |effects| && effects[i].OpenIssue?
  }

  /** An issue is opened only for a `Failure`, and then exactly when the job asks for a report. */
  lemma RunJobOpensIssueIff(job: Job, resolve: SubjectSpec -> Subject, logUrl: string, outcome: Outcome)
    ensures OpensIssue(RunJob(job, resolve, logUrl, outcome).effects) <==> outcome.Failed? && job.report.Some?
  {
    var sha := resolve(job.subject).sha;
    var e := RunJob(job, resolve, logUrl, outcome).effects;
    if outcome.Failed? && job.report.Some? {
      assert e[4].OpenIssue?;
    } else {
      assert forall i :: 0 <= i < |e| ==> !e[i].OpenIssue?;
    }
  }

  /**
   * The issue's `title` and `body` are the defaults unless the report sets
   * them; every other key of the report is taken from the report.
   */
  lemma IssueFields(job: Job, sha: string, logUrl: string, report: JsonObject, key: string)
    ensures var issue := Issue(job, sha, logUrl, report);
            && (HasKey(report, key) ==> Lookup(issue, key) == Lookup(report, key))
            && (!HasKey(report, key) && key == "title" ==> Lookup(issue, key) == Some(JStr(FormatOpt(job.context) + " failed")))
            && (!HasKey(report, key) && key == "body" ==> Lookup(issue, key) == Some(JStr(IssueBody(job.context, sha, logUrl))))
            && (key != "title" && key != "body" ==> Lookup(issue, key) == Lookup(report, key))
  {
    var base := [("title", JStr(FormatOpt(job.context) + " failed")), ("body", JStr(IssueBody(job.context, sha, logUrl)))];
    MergeLookup(base, report, key);
    assert base[1..][1..] == [];
  }

  /**
   * The timeout watchdog, a detected pull request change and a non-zero
   * container exit all report `failure` with their message; a container that
   * was never created reports `error`.
   */
  lemma WatchdogsReportFailure(job: Job, resolve: SubjectSpec -> Subject, logUrl: string,
                               reason: string, returncode: int, minutes: int)
    requires reason != "" && returncode != 0
    ensures Posts(RunJob(job, resolve, logUrl, TimeoutOutcome(minutes)).effects) ==
              [("pending", "In progress"), ("failure", "Timeout after " + IntToString(minutes) + " minutes")]
    ensures Posts(RunJob(job, resolve, logUrl, Failed(reason)).effects) ==
              [("pending", "In progress"), ("failure", reason)]
    ensures Posts(RunJob(job, resolve, logUrl, ContainerOutcome(true, returncode)).effects) ==
              [("pending", "In progress"), ("failure", "Container exited with code " + IntToString(returncode))]
    ensures Posts(RunJob(job, resolve, logUrl, ContainerOutcome(false, returncode)).effects) ==
              [("pending", "In progress"), ("error", "Internal error")]
  {
    RunJobPosts(job, resolve, logUrl, TimeoutOutcome(minutes));
    RunJobPosts(job, resolve, logUrl, Failed(reason));
    RunJobPosts(job, resolve, logUrl, ContainerOutcome(true, returncode));
    RunJobPosts(job, resolve, logUrl, ContainerOutcome(false, returncode));
  }

  /** A container that was created and exited with code 0 makes the run post `success`. */
  lemma CleanExitReportsSuccess(job: Job, resolve: SubjectSpec -> Subject, logUrl: string)
    ensures Posts(RunJob(job, resolve, logUrl, ContainerOutcome(true, 0)).effects) ==
              [("pending", "In progress"), ("success", "Success")]
  {
    RunJobPosts(job, resolve, logUrl, ContainerOutcome(true, 0));
  }
}
