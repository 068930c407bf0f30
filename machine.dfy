/**
 * A test machine's connection settings and journal helpers
 * (machine/machine_core/machine.py). Commands sent to the machine over SSH are
 * not executed here: where the source runs a command, the model builds the
 * command and takes the command's output as a parameter.
 */
module MachineCore {
  import opened Wrappers
  import opened Strings

  /** A host and a port, as split from an `address` or `browser` string. */
  datatype Endpoint = Endpoint(host: string, port: int)

  datatype MachineError =
    | InvalidPort(text: string)   // `int(port)` raised ValueError on this text
    | NoOutput                    // `assert output` failed: the command printed nothing

  // -----------------------------------------------------------------------
  // Addresses and labels

  /**
   * `address.rpartition(":")` followed by `int(port)` when the address holds a
   * `:`; otherwise the whole address is the host and `port` is kept.
   */
  function SplitAddress(address: string, port: int): (r: Result<Endpoint, MachineError>)
    ensures ':' !in address ==> r == Success(Endpoint(address, port))
    ensures ':' in address ==>
              var p := RPartition(address, ':');
              && address == p.head + ":" + p.tail
              && ':' !in p.tail
              && (r.Success? <==> ParseInt(p.tail).Some?)
              && (r.Success? ==> r.value == Endpoint(p.head, ParseInt(p.tail).value))
              && (r.Failure? ==> r.error == InvalidPort(p.tail))
  {
    if ':' in address then
      var p := RPartition(address, ':');
      match ParseInt(p.tail)
      case Some(n) => Success(Endpoint(p.head, n))
      case None => Failure(InvalidPort(p.tail))
    else Success(Endpoint(address, port))
  }

  /** A port `int()` refuses, such as `-x` or `1.5`, makes `__init__` raise `ValueError` for the address. */
  lemma SplitAddressRejects(host: string, tail: string, port: int)
    requires ':' !in tail && ParseInt(tail).None?
    ensures SplitAddress(host + ":" + tail, port) == Failure(InvalidPort(tail))
  {
    assert host + ":" + tail == host + [':'] + tail;
    RPartitionUnique(host, ':', tail);
  }

  /** `str(n)` never contains a colon. */
  lemma IntToStringChars(n: int)
    ensures ':' !in IntToString(n)
  {
    var m: nat := if n < 0 then -n else n;
    assert AllDigits(NatToString(m));
    assert IntToString(n) == (if n < 0 then "-" else "") + NatToString(m);
  }

  /** Joining a host and a port with `:` and splitting again gives them back. */
  lemma SplitAddressJoin(host: string, n: int, fallback: int)
    ensures SplitAddress(host + ":" + IntToString(n), fallback) == Success(Endpoint(host, n))
  {
    IntToStringChars(n);
    RPartitionUnique(host, ':', IntToString(n));
    assert host + ":" + IntToString(n) == host + [':'] + IntToString(n);
    ParseIntRoundTrip(n);
  }

  /** `browser` when it is truthy, otherwise `address`. */
  function BrowserAddress(browser: Option<string>, address: string): string {
    if Truthy(browser) then browser.value else address
  }

  /** The label passed on to the SSH connection. */
  function MachineLabel(givenLabel: Option<string>, image: string, ssh: Endpoint): (r: Option<string>)
    ensures Truthy(givenLabel) || image == "unknown" ==> r == givenLabel
    ensures !Truthy(givenLabel) && image != "unknown" ==>
              r == Some(image + "-" + ssh.host + "-" + IntToString(ssh.port))
  {
    if !Truthy(givenLabel) && image != "unknown" then
      Some(image + "-" + ssh.host + "-" + IntToString(ssh.port))
    else givenLabel
  }

  /** A generated label ends with the SSH port, which can be read back from it. */
  lemma LabelEndsWithPort(image: string, ssh: Endpoint)
    requires image != "unknown" && ssh.port >= 0
    ensures var p := RPartition(MachineLabel(None, image, ssh).value, '-');
            ParseInt(p.tail) == Some(ssh.port)
  {
    var digits := NatToString(ssh.port);
    assert IntToString(ssh.port) == digits;
    assert '-' !in digits by {
      assert AllDigits(digits);
    }
    var l := MachineLabel(None, image, ssh).value;
    assert l == (image + "-" + ssh.host) + ['-'] + digits;
    RPartitionUnique(image + "-" + ssh.host, '-', digits);
    ParseIntRoundTrip(ssh.port);
  }

  // -----------------------------------------------------------------------
  // The machine

  class Machine {
    const user: string
    const sshAddress: string
    const sshPort: int
    const identityFile: string
    const verbose: bool
    const machineLabel: Option<string>
    const arch: string
    const image: string
    const ostreeImage: bool
    const webAddress: string
    const webPort: int

    constructor Init(user: string, ssh: Endpoint, identityFile: string, verbose: bool,
                     machineLabel: Option<string>, arch: string, image: string, ostreeImage: bool, web: Endpoint)
      ensures this.user == user && sshAddress == ssh.host && sshPort == ssh.port
      ensures this.identityFile == identityFile && this.verbose == verbose && this.machineLabel == machineLabel
      ensures this.arch == arch && this.image == image && this.ostreeImage == ostreeImage
      ensures webAddress == web.host && webPort == web.port
    {
      this.user := user;
      sshAddress, sshPort := ssh.host, ssh.port;
      this.identityFile := identityFile;
      this.verbose := verbose;
      this.machineLabel := machineLabel;
      this.arch := arch;
      this.image := image;
      this.ostreeImage := ostreeImage;
      webAddress, webPort := web.host, web.port;
    }

    /**
     * `Machine.__init__`: split `address` into the SSH endpoint, default the
     * label and the browser address, and split the browser address into the
     * web endpoint. A port that is not an integer is the ValueError of `int()`,
     * raised for `address` before `browser` is looked at.
     */
    static method Create(address: string := "127.0.0.1", image: string := "unknown", verbose: bool := false,
                         givenLabel: Option<string> := None, browser: Option<string> := None, user: string := "root",
                         identityFile: Option<string> := None, arch: string := "x86_64", sshPort: int := 22,
                         webPort: int := 9090, defaultIdentityFile: string, ostreeImages: set<string>)
      returns (r: Result<Machine, MachineError>)
      ensures SplitAddress(address, sshPort).Failure? ==> r == Failure(SplitAddress(address, sshPort).error)
      ensures SplitAddress(address, sshPort).Success? ==>
                var ssh := SplitAddress(address, sshPort).value;
                var web := SplitAddress(BrowserAddress(browser, address), webPort);
                && (web.Failure? ==> r == Failure(web.error))
                && (web.Success? ==>
                      && r.Success? && fresh(r.value)
                      && r.value.user == user
                      && r.value.sshAddress == ssh.host && r.value.sshPort == ssh.port
                      && r.value.identityFile == (if Truthy(identityFile) then identityFile.value else defaultIdentityFile)
                      && r.value.verbose == verbose
                      && r.value.machineLabel == MachineLabel(givenLabel, image, ssh)
                      && r.value.arch == arch && r.value.image == image
                      && r.value.ostreeImage == (image in ostreeImages)
                      && r.value.webAddress == web.value.host && r.value.webPort == web.value.port)
    {
      var identity := if Truthy(identityFile) then identityFile.value else defaultIdentityFile;
      var ssh := SplitAddress(address, sshPort);
      if ssh.Failure? {
        return Failure(ssh.error);
      }
      var b := if Truthy(browser) then browser.value else address;
      var lbl := givenLabel;
      if !Truthy(givenLabel) && image != "unknown" {
        lbl := Some(image + "-" + ssh.value.host + "-" + IntToString(ssh.value.port));
      }
      var web := SplitAddress(b, webPort);
      if web.Failure? {
        return Failure(web.error);
      }
      var m := new Machine.Init(user, ssh.value, identity, verbose, lbl, arch, image, image in ostreeImages, web.value);
      return Success(m);
    }

    /** `diagnose(tty)`: the login banner (when `tty`) followed by the access summary. */
    function Diagnose(tty: bool := true): (msg: string)
      ensures tty <==> StartsWith(msg, TtyHeading)
      ensures tty ==> msg == LocalMessage(user) + RemoteMessage(user, sshAddress, sshPort, webAddress, webPort)
      ensures !tty ==> msg == RemoteMessage(user, sshAddress, sshPort, webAddress, webPort)
    {
      var remote := RemoteMessage(user, sshAddress, sshPort, webAddress, webPort);
      if tty then
        var local := LocalMessage(user);
        assert (local + remote)[..|TtyHeading|] == local[..|TtyHeading|];
        local + remote
      else remote
    }

    /** `get_admin_group()` */
    function AdminGroup(): (g: string)
      ensures g == "sudo" <==> Contains(image, "debian") || Contains(image, "ubuntu")
      ensures g != "sudo" ==> g == "wheel"
    {
      if Contains(image, "debian") || Contains(image, "ubuntu") then "sudo" else "wheel"
    }

    /** `allowed_messages()`: the journal patterns tolerated on this image, in code order. */
    method AllowedMessages() returns (allowed: seq<string>)
      ensures allowed == AllowedFor(image, ostreeImage)
    {
      allowed := [];
      if StartsWith(image, "debian") || ostreeImage {
        allowed := allowed + [LocalePattern];
      }
      assert allowed == LocaleRow(image, ostreeImage);
      if image == "arch" {
        allowed := allowed + [ArchPamPattern];
      }
      assert allowed == LocaleRow(image, ostreeImage) + ArchRow(image);
      if image in ["fedora-37"] {
        allowed := allowed + [GptAutoPattern];
      }
      assert allowed == LocaleRow(image, ostreeImage) + ArchRow(image) + GptAutoRow(image);
      if image in ["fedora-37", "fedora-coreos"] {
        allowed := allowed + [DispatcherPattern];
      }
      assert allowed == LocaleRow(image, ostreeImage) + ArchRow(image) + GptAutoRow(image) + DispatcherRow(image);
      if image in ["fedora-38", "fedora-coreos"] {
        allowed := allowed + [NetworkGeneratorSendtoPattern];
        allowed := allowed + [NetworkGeneratorKmsgPattern];
      }
      assert allowed == LocaleRow(image, ostreeImage) + ArchRow(image) + GptAutoRow(image) + DispatcherRow(image) +
                        NetworkGeneratorRow(image);
      if image in ["debian-testing", "ubuntu-stable"] {
        allowed := allowed + [QemuApparmorPattern];
      }
      assert allowed == LocaleRow(image, ostreeImage) + ArchRow(image) + GptAutoRow(image) + DispatcherRow(image) +
                        NetworkGeneratorRow(image) + QemuRow(image);
      if image in ["rhel-8-6", "rhel-9-0"] {
        allowed := allowed + [GpgAdminHomePattern];
        allowed := allowed + [InsightsPattern];
      }
    }

    /**
     * `curl(*args, headers=headers)`: the argument vector handed to the
     * machine, `curl --silent --show-error`, a `--header "key: value"` pair
     * per header in order, then the arguments in order.
     */
    method Curl(args: seq<string>, headers: Option<seq<(string, string)>> := None) returns (cmd: seq<string>)
      ensures var h := headers.GetOr([]);
              && |cmd| == 3 + 2 * |h| + |args|
              && cmd[..3] == ["curl", "--silent", "--show-error"]
              && (forall i :: 0 <= i < |h| ==> cmd[3 + 2 * i] == "--header" && cmd[4 + 2 * i] == h[i].0 + ": " + h[i].1)
              && cmd[3 + 2 * |h|..] == args
    {
      cmd := ["curl", "--silent", "--show-error"];
      var h := headers.GetOr([]);
      if headers.Some? {
        var i := 0;
        while i < |h|
          invariant 0 <= i <= |h|
          invariant |cmd| == 3 + 2 * i
          invariant cmd[..3] == ["curl", "--silent", "--show-error"]
          invariant forall j :: 0 <= j < i ==> cmd[3 + 2 * j] == "--header" && cmd[4 + 2 * j] == h[j].0 + ": " + h[j].1
        {
          var (key, value) := h[i];
          cmd := cmd + ["--header", key + ": " + value];
          i := i + 1;
        }
      }
      cmd := cmd + args;
    }
  }

  /** The first line of the local-terminal banner. */
  const TtyHeading := "\nTTY LOGIN\n"

  /** The text `diagnose` shows for a local terminal. */
  function LocalMessage(user: string): (msg: string)
    ensures StartsWith(msg, TtyHeading)
  {
    TtyHeading + "  User: " + user + "/admin  Password: foobar\n" +
    "  To quit use Ctrl+], Ctrl+5 (depending on locale)\n\n"
  }

  /** The text `diagnose` shows for SSH and web access. */
  function RemoteMessage(user: string, sshAddress: string, sshPort: int, webAddress: string, webPort: int): (msg: string)
    ensures !StartsWith(msg, TtyHeading)
  {
    var msg := "\nSSH ACCESS\n  $ ssh -p " + IntToString(sshPort) + " -i bots/machine/identity " + user + "@" + sshAddress + "\n" +
               "\nCOCKPIT\n  http://" + webAddress + ":" + IntToString(webPort) + "\n";
    assert msg[1] == 'S' && TtyHeading[1] == 'T';
    assert |msg| >= |TtyHeading| ==> msg[..|TtyHeading|][1] == 'S';
    msg
  }

  // -----------------------------------------------------------------------
  // pull: where an image file is looked for

  /** Where `pull` looks for an image: the absolute form of a path, or a file in the image directory. */
  datatype ImageFile = AbsolutePathOf(path: string) | InImagesDir(path: string)

  /** `os.path.join(a, b)` for a relative `b`. */
  function PathJoin(a: string, b: string): string {
    if a == [] then b else if a[|a| - 1] == '/' then a + b else a + "/" + b
  }

  /** The path choice of `pull(image)`; the download itself is left out. */
  function PullPath(image: string, botsDir: string): (r: ImageFile)
    ensures r.AbsolutePathOf? <==> '/' in image
    ensures r.AbsolutePathOf? ==> r.path == image
  {
    if '/' in image then AbsolutePathOf(image) else InImagesDir(PathJoin(PathJoin(botsDir, "images"), image))
  }

  /**
   * For an image name without `/`, `pull` looks for `<botsDir>/images/<image>`:
   * the path splits at its last `/` into the image directory and the image,
   * and the image directory starts with the bots directory and ends in `images`.
   */
  lemma PullPathLastComponent(image: string, botsDir: string)
    requires '/' !in image
    ensures PullPath(image, botsDir).InImagesDir?
    ensures RPartition(PullPath(image, botsDir).path, '/') == Partition(PathJoin(botsDir, "images"), "/", image)
    ensures StartsWith(PathJoin(botsDir, "images"), botsDir)
    ensures RPartition(PathJoin(botsDir, "images"), '/').tail == "images"
  {
    var dir := PathJoin(botsDir, "images");
    assert dir != [] && dir[|dir| - 1] == 's';
    assert PathJoin(dir, image) == dir + ['/'] + image;
    RPartitionUnique(dir, '/', image);
    ImagesDir(botsDir);
  }

  /** `os.path.join(botsDir, "images")` starts with the bots directory and ends in the component `images`. */
  lemma ImagesDir(botsDir: string)
    ensures StartsWith(PathJoin(botsDir, "images"), botsDir)
    ensures RPartition(PathJoin(botsDir, "images"), '/').tail == "images"
  {
    var dir := PathJoin(botsDir, "images");
    if botsDir == [] {
      assert '/' !in dir;
    } else if botsDir[|botsDir| - 1] == '/' {
      assert dir == botsDir[..|botsDir| - 1] + ['/'] + "images";
      RPartitionUnique(botsDir[..|botsDir| - 1], '/', "images");
    } else {
      assert dir == botsDir + ['/'] + "images";
      RPartitionUnique(botsDir, '/', "images");
    }
  }

  // -----------------------------------------------------------------------
  // Journal and audit messages

  /** A character of the journal field-name class `[a-zA-Z0-9_]`. */
  predicate IsFieldChar(c: char) {
    ('a' <= c <= 'z') || ('A' <= c <= 'Z') || ('0' <= c <= '9') || c == '_'
  }

  /** The length of the run of field-name characters that starts `m`. */
  function FieldNameLength(m: string): (n: nat)
    ensures n <= |m|
    ensures forall i :: 0 <= i < n ==> IsFieldChar(m[i])
    ensures n < |m| ==> !IsFieldChar(m[n])
  {
    if m != [] && IsFieldChar(m[0]) then 1 + FieldNameLength(m[1..]) else 0
  }

  /** `re.match("[a-zA-Z0-9_]+=", m)`, decided greedily: the longest field-name run is followed by `=`. */
  predicate HasFieldPrefix(m: string) {
    var n := FieldNameLength(m);
    0 < n < |m| && m[n] == '='
  }

  /** `m[..k]` is a non-empty field name and `m[k]` is `=`. */
  predicate FieldPrefixAt(m: string, k: int) {
    0 < k < |m| && m[k] == '=' && forall i :: 0 <= i < k ==> IsFieldChar(m[i])
  }

  /** The greedy test accepts exactly the strings the regular expression matches. */
  lemma HasFieldPrefixIff(m: string)
    ensures HasFieldPrefix(m) <==> exists k :: FieldPrefixAt(m, k)
  {
    var n := FieldNameLength(m);
    if HasFieldPrefix(m) {
      assert FieldPrefixAt(m, n);
    }
    if k :| FieldPrefixAt(m, k) {
      assert !IsFieldChar('=');
      assert n == k;
    }
  }

  const SyslogIdentifierField := "SYSLOG_IDENTIFIER="

  /** A match expression without a field name matches on `SYSLOG_IDENTIFIER`. */
  function NormaliseMatch(m: string): (r: string)
    ensures HasFieldPrefix(r)
    ensures r == m || r == SyslogIdentifierField + m
  {
    if HasFieldPrefix(m) then m
    else
      var r := SyslogIdentifierField + m;
      assert FieldPrefixAt(r, |SyslogIdentifierField| - 1);
      HasFieldPrefixIff(r);
      r
  }

  /** The list comprehension of `journal_messages` over all match expressions. */
  function NormaliseMatches(matches: seq<string>): (r: seq<string>)
    ensures |r| == |matches|
    ensures forall i :: 0 <= i < |matches| ==> r[i] == NormaliseMatch(matches[i])
  {
    seq(|matches|, i requires 0 <= i < |matches| => NormaliseMatch(matches[i]))
  }

  /**
   * A match is kept exactly when it already names a field; otherwise it is
   * prefixed with `SYSLOG_IDENTIFIER=`. Either way the result names a field.
   */
  lemma NormaliseMatchShape(m: string)
    ensures NormaliseMatch(m) == m <==> exists k :: FieldPrefixAt(m, k)
    ensures NormaliseMatch(m) != m ==> NormaliseMatch(m) == SyslogIdentifierField + m
    ensures exists k :: FieldPrefixAt(NormaliseMatch(m), k)
  {
    HasFieldPrefixIff(m);
    var r := NormaliseMatch(m);
    if !HasFieldPrefix(m) {
      assert |r| == |SyslogIdentifierField| + |m|;
      assert FieldPrefixAt(r, 17);
    } else {
      assert exists k :: FieldPrefixAt(r, k);
    }
  }

  /** Normalising the match list twice is normalising it once. */
  lemma NormaliseMatchesIdempotent(matches: seq<string>)
    ensures NormaliseMatches(NormaliseMatches(matches)) == NormaliseMatches(matches)
  {
    forall i | 0 <= i < |matches|
      ensures NormaliseMatch(NormaliseMatch(matches[i])) == NormaliseMatch(matches[i])
    {
      NormaliseMatchShape(matches[i]);
      HasFieldPrefixIff(NormaliseMatch(matches[i]));
    }
  }

  /** `--cursor '<cursor>'` for a truthy cursor, otherwise nothing. */
  function CursorArg(cursor: Option<string>): string {
    if Truthy(cursor) then "--cursor '" + cursor.value + "'" else ""
  }

  /** The shell command `journal_messages` runs to read the journal. */
  function JournalCommand(matches: seq<string>, logLevel: int, cursor: Option<string> := None): (cmd: string)
    ensures var prefix := "journalctl 2>&1 " + CursorArg(cursor) + " -o cat -p " + IntToString(logLevel) + " ";
            && StartsWith(cmd, prefix)
            && |cmd| >= |prefix| + |" || true"|
            && cmd[|cmd| - |" || true"|..] == " || true"
            && cmd[|prefix|..|cmd| - |" || true"|] == Join(" + ", NormaliseMatches(matches))
  {
    "journalctl 2>&1 " + CursorArg(cursor) + " -o cat -p " + IntToString(logLevel) + " " +
    Join(" + ", NormaliseMatches(matches)) + " || true"
  }

  /** The shell command `audit_messages` runs to read kernel audit records. */
  function AuditCommand(typePref: string, cursor: Option<string> := None): (cmd: string)
    ensures var prefix := "journalctl " + CursorArg(cursor) + " -o cat SYSLOG_IDENTIFIER=kernel 2>&1 | grep 'type=";
            && StartsWith(cmd, prefix)
            && |cmd| >= |prefix| + |".*audit' || true"|
            && cmd[|cmd| - |".*audit' || true"|..] == ".*audit' || true"
            && cmd[|prefix|..|cmd| - |".*audit' || true"|] == typePref
  {
    "journalctl " + CursorArg(cursor) + " -o cat SYSLOG_IDENTIFIER=kernel 2>&1 | grep 'type=" + typePref + ".*audit' || true"
  }

  const CannotAssignMarker := "Cannot assign requested address"
  const NoEntriesMarker := "-- No entries --"

  /** The output is a single line that `journal_messages` reads as "no messages". */
  predicate JournalEmptyMarker(lines: seq<string>) {
    |lines| == 1 && (Contains(lines[0], CannotAssignMarker) || Contains(lines[0], NoEntriesMarker))
  }

  /** The output is a single line that `audit_messages` reads as "no messages". */
  predicate AuditEmptyMarker(lines: seq<string>) {
    |lines| == 1 && Contains(lines[0], CannotAssignMarker)
  }

  /**
   * `journal_messages`, given what the journal command printed: no output is
   * an assertion failure; a single marker line means no messages; any other
   * output is all of its lines, in order.
   */
  function JournalMessages(output: Option<string>): (r: Result<seq<string>, MachineError>)
    ensures r.Failure? <==> !Truthy(output)
    ensures r.Failure? ==> r.error == NoOutput
    ensures r.Success? ==> (r.value == [] <==> JournalEmptyMarker(SplitLines(output.value)))
    ensures r.Success? && r.value != [] ==> r.value == SplitLines(output.value)
  {
    if !Truthy(output) then Failure(NoOutput)
    else
      var messages := SplitLines(output.value);
      if JournalEmptyMarker(messages) then Success([]) else Success(messages)
  }

  /** `audit_messages`: the same reading as `journal_messages`, with only the first marker. */
  function AuditMessages(output: Option<string>): (r: Result<seq<string>, MachineError>)
    ensures r.Failure? <==> !Truthy(output)
    ensures r.Failure? ==> r.error == NoOutput
    ensures r.Success? ==> (r.value == [] <==> AuditEmptyMarker(SplitLines(output.value)))
    ensures r.Success? && r.value != [] ==> r.value == SplitLines(output.value)
  {
    if !Truthy(output) then Failure(NoOutput)
    else
      var messages := SplitLines(output.value);
      if AuditEmptyMarker(messages) then Success([]) else Success(messages)
  }

  /** Output that `audit_messages` reads as empty, `journal_messages` reads as empty too; never the other way round for `-- No entries --`. */
  lemma AuditEmptyImpliesJournalEmpty(output: Option<string>)
    ensures AuditMessages(output) == Success([]) ==> JournalMessages(output) == Success([])
    ensures output == Some(NoEntriesMarker) ==>
              JournalMessages(output) == Success([]) && AuditMessages(output) == Success([NoEntriesMarker])
  {
    if output == Some(NoEntriesMarker) {
      NoEntriesIsOneLine();
      NoEntriesLacksCannotAssign();
      assert StartsWith(NoEntriesMarker, NoEntriesMarker);
    }
  }

  lemma NoEntriesIsOneLine()
    ensures SplitLines(NoEntriesMarker) == [NoEntriesMarker]
  {
    assert NoLineBreak(NoEntriesMarker);
    SplitLinesSingle(NoEntriesMarker);
  }

  lemma NoEntriesLacksCannotAssign()
    ensures !Contains(NoEntriesMarker, CannotAssignMarker)
  {
    ContainsIff(NoEntriesMarker, CannotAssignMarker);
  }

  // -----------------------------------------------------------------------
  // allowed_messages: the per-image table

  const LocalePattern := "invalid or unusable locale: .*"
  const ArchPamPattern := ".*cockpit-session: pam: Web console: .*"
  const GptAutoPattern := "audit.*denied  { sys_admin } .* comm=\"systemd-gpt-aut\".*"
  const DispatcherPattern := "audit.*denied  { sys_admin } .* comm=\"mv\" .*NetworkManager_dispatcher_console_t.*"
  const NetworkGeneratorSendtoPattern :=
    "audit.*denied  { sendto } .* comm=\"systemd-network\" " +
    "path=\"/run/systemd/journal/socket\".*systemd_network_generator_t.*"
  const NetworkGeneratorKmsgPattern :=
    "audit.*denied  { write } .* comm=\"systemd-network\" " +
    "name=\"kmsg\" .*systemd_network_generator_t.*"
  const QemuApparmorPattern :=
    "audit.* apparmor=\"DENIED\" operation=\"open\" class=\"file\" " +
    "profile=\".*\" name=\"/sys/devices/system/cpu/possible\" .* " +
    "comm=\"qemu-system-x86\" requested_mask=\"r\" denied_mask=\"r\".*"
  const GpgAdminHomePattern :=
    "audit.*denied  { read .* for.*comm=\"gpg\" .* tcontext=unconfined_u:object_r:admin_home_t.*"
  const InsightsPattern := "Error importing insights.client.*newest.egg: No module named 'insights'"

  /** The patterns each condition of `allowed_messages` contributes, in code order. */
  function AllowedFor(image: string, ostree: bool): (r: seq<string>)
    ensures |r| <= 4
    ensures r == [] <==>
              !StartsWith(image, "debian") && !ostree &&
              image !in ["arch", "fedora-37", "fedora-38", "fedora-coreos", "debian-testing", "ubuntu-stable", "rhel-8-6", "rhel-9-0"]
  {
    LocaleRow(image, ostree) + ArchRow(image) + GptAutoRow(image) + DispatcherRow(image) +
    NetworkGeneratorRow(image) + QemuRow(image) + GpgRow(image)
  }

  /** The locale pattern, on Debian-family and ostree images. */
  function LocaleRow(image: string, ostree: bool): seq<string> {
    if StartsWith(image, "debian") || ostree then [LocalePattern] else []
  }

  /** The PAM pattern, on Arch. */
  function ArchRow(image: string): seq<string> {
    if image == "arch" then [ArchPamPattern] else []
  }

  /** The `systemd-gpt-auto` denial, on Fedora 37. */
  function GptAutoRow(image: string): seq<string> {
    if image in ["fedora-37"] then [GptAutoPattern] else []
  }

  /** The NetworkManager dispatcher denial, on Fedora 37 and Fedora CoreOS. */
  function DispatcherRow(image: string): seq<string> {
    if image in ["fedora-37", "fedora-coreos"] then [DispatcherPattern] else []
  }

  /** The two `systemd-network-generator` denials, on Fedora 38 and Fedora CoreOS. */
  function NetworkGeneratorRow(image: string): seq<string> {
    if image in ["fedora-38", "fedora-coreos"] then [NetworkGeneratorSendtoPattern, NetworkGeneratorKmsgPattern] else []
  }

  /** The AppArmor denial for QEMU, on Debian testing and Ubuntu stable. */
  function QemuRow(image: string): seq<string> {
    if image in ["debian-testing", "ubuntu-stable"] then [QemuApparmorPattern] else []
  }

  /** The gpg denial and the insights import error, on RHEL 8.6 and 9.0. */
  function GpgRow(image: string): seq<string> {
    if image in ["rhel-8-6", "rhel-9-0"] then [GpgAdminHomePattern, InsightsPattern] else []
  }

  /** A pattern is allowed exactly when it belongs to a condition that holds for the image. */
  lemma AllowedForIff(image: string, ostree: bool, p: string)
    ensures p in AllowedFor(image, ostree) <==>
              || ((StartsWith(image, "debian") || ostree) && p == LocalePattern)
              || (image == "arch" && p == ArchPamPattern)
              || (image in ["fedora-37"] && p == GptAutoPattern)
              || (image in ["fedora-37", "fedora-coreos"] && p == DispatcherPattern)
              || (image in ["fedora-38", "fedora-coreos"] && p in [NetworkGeneratorSendtoPattern, NetworkGeneratorKmsgPattern])
              || (image in ["debian-testing", "ubuntu-stable"] && p == QemuApparmorPattern)
              || (image in ["rhel-8-6", "rhel-9-0"] && p in [GpgAdminHomePattern, InsightsPattern])
  {
  }

  /** The locale pattern is allowed exactly on Debian-family and ostree images. */
  lemma LocaleAllowedIff(image: string, ostree: bool)
    ensures LocalePattern in AllowedFor(image, ostree) <==> StartsWith(image, "debian") || ostree
  {
    AllowedForIff(image, ostree, LocalePattern);
    // the other patterns all differ from the locale pattern in length
    assert |LocalePattern| == 30;
    assert |ArchPamPattern| == 39 && |GptAutoPattern| == 56 && |DispatcherPattern| == 81;
    assert |NetworkGeneratorSendtoPattern| == 117 && |NetworkGeneratorKmsgPattern| == 94;
    assert |QemuApparmorPattern| == 171 && |GpgAdminHomePattern| == 89 && |InsightsPattern| == 71;
  }
}
