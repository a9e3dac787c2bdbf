/**
 * The cross-platform PrintManager. print-station/src/printManager.js and
 * print-server/src/print-manager.js share their first 251 lines (the guard,
 * the command builders, the status and list commands and the parser of the
 * printer list); the station's copy adds printRawContent and printRawFile.
 * Running a command is a parameter: what `exec` reports (its standard
 * output or its error message).
 */
module PrintManager {
  import opened Common
  import opened EscPos

  /** `os.platform()`, as far as the manager distinguishes it. */
  datatype Platform = Win32 | Darwin | Linux | OtherPlatform(name: string)

  function PlatformName(p: Platform): string {
    match p
    case Win32 => "win32"
    case Darwin => "darwin"
    case Linux => "linux"
    case OtherPlatform(name) => name
  }

  predicate IsUnix(p: Platform) {
    p.Darwin? || p.Linux?
  }

  const PLACEHOLDER := "YOUR_PRINTER_NAME_HERE"

  /** The rejection of an unconfigured printer name. */
  const NOT_CONFIGURED := "Nome stampante non configurato"
  /** The rejection of raw content that is neither an array, a buffer nor a string. */
  const UNSUPPORTED_FORMAT := "Formato comandi non supportato"
  /** The prefix `printRawContent` puts before every failure reason. */
  const RAW_FAILED := "Stampa raw fallita: "

  /** `printerName && printerName !== 'YOUR_PRINTER_NAME_HERE'`; a missing name is the empty one. */
  predicate Configured(printerName: string) {
    printerName != [] && printerName != PLACEHOLDER
  }

  // ---------------------------------------------------------------------
  // Commands

  /** `copy /b "<file>" "\\localhost\<printer>"` in raw mode, `notepad /p "<file>"` otherwise. */
  function WindowsPrintCommand(filePath: string, printerName: string, rawMode: bool): string {
    if rawMode then "copy /b \"" + filePath + "\" \"\\\\localhost\\" + printerName + "\""
    else "notepad /p \"" + filePath + "\""
  }

  /** `lp -d "<printer>"`, ` -o raw` in raw mode, then ` "<file>"`. */
  function UnixPrintCommand(filePath: string, printerName: string, rawMode: bool): string {
    "lp -d \"" + printerName + "\"" + (if rawMode then " -o raw" else "") + " \"" + filePath + "\""
  }

  /** `options.raw !== false`: raw printing unless it is explicitly switched off. */
  predicate RawMode(raw: Option<bool>) {
    raw != Some(false)
  }

  /** `buildPrintCommand`: throws on a platform that is neither Windows, macOS nor Linux. */
  function BuildPrintCommand(platform: Platform, filePath: string, printerName: string, raw: Option<bool>): (r: Result<string, string>)
    ensures r.Err? <==> platform.OtherPlatform?
    ensures r.Err? ==> r.error == "Piattaforma non supportata: " + platform.name
  {
    if platform.Win32? then Ok(WindowsPrintCommand(filePath, printerName, RawMode(raw)))
    else if IsUnix(platform) then Ok(UnixPrintCommand(filePath, printerName, RawMode(raw)))
    else Err("Piattaforma non supportata: " + platform.name)
  }

  /** The Unix command names the printer, asks for raw mode exactly when raw, and ends with the quoted file. */
  lemma UnixPrintCommandShape(filePath: string, printerName: string, rawMode: bool)
    ensures var c := UnixPrintCommand(filePath, printerName, rawMode);
      && c[..7 + |printerName|] == "lp -d \"" + printerName
      && c[|c| - |filePath| - 3..] == " \"" + filePath + "\""
      && (rawMode <==> |c| == 7 + |printerName| + 1 + 7 + |filePath| + 3)
  {
    var c := UnixPrintCommand(filePath, printerName, rawMode);
    var head := "lp -d \"" + printerName + "\"" + (if rawMode then " -o raw" else "");
    assert c == head + (" \"" + filePath + "\"");
    assert c[..7 + |printerName|] == head[..7 + |printerName|];
  }

  /** Raw mode is the default: with no option, and with `raw: true`, the command is the raw one. */
  lemma RawByDefault(platform: Platform, filePath: string, printerName: string)
    ensures BuildPrintCommand(platform, filePath, printerName, None)
         == BuildPrintCommand(platform, filePath, printerName, Some(true))
    ensures platform.Win32? ==>
      BuildPrintCommand(platform, filePath, printerName, None) == Ok(WindowsPrintCommand(filePath, printerName, true))
    ensures IsUnix(platform) ==>
      BuildPrintCommand(platform, filePath, printerName, None) == Ok(UnixPrintCommand(filePath, printerName, true))
  {
  }

  /** `buildStatusCommand`: every non-Windows platform uses lpstat. */
  function StatusCommand(platform: Platform, printerName: string): string {
    if platform.Win32? then "wmic printer where name=\"" + printerName + "\" get status"
    else "lpstat -p \"" + printerName + "\""
  }

  /** `buildListCommand`. */
  function ListCommand(platform: Platform): string {
    if platform.Win32? then "wmic printer list brief" else "lpstat -p"
  }

  // ---------------------------------------------------------------------
  // Running commands

  /** What a call ran, if anything, and what it resolved or rejected with. */
  datatype Attempt<T> = Attempt(command: Option<string>, result: Result<T, string>)

  /** The resolution of `printFile`. */
  datatype PrintJob = PrintJob(command: string, output: string, platform: string)

  /**
   * `printFile(filePath, options)`: an unset or placeholder printer name is
   * rejected before any command is built; an unsupported platform rejects
   * without running anything; otherwise the command runs once.
   */
  function PrintFile(platform: Platform, printerName: string, filePath: string, raw: Option<bool>,
                     exec: Result<string, string>): (a: Attempt<PrintJob>)
    ensures !Configured(printerName) ==> a == Attempt(None, Err(NOT_CONFIGURED))
    ensures Configured(printerName) && platform.OtherPlatform? ==>
      a.command.None? && a.result == Err("Piattaforma non supportata: " + platform.name)
    ensures Configured(printerName) && !platform.OtherPlatform? ==>
      && a.command == Some(BuildPrintCommand(platform, filePath, printerName, raw).value)
      && (a.result.Ok? <==> exec.Ok?)
      && (exec.Ok? ==> a.result.value.output == Trim(exec.value) && a.result.value.command == a.command.value)
      && (exec.Err? ==> a.result.error == "Stampa fallita: " + exec.error)
  {
    if !Configured(printerName) then Attempt(None, Err(NOT_CONFIGURED))
    else
      var command := BuildPrintCommand(platform, filePath, printerName, raw);
      if command.Err? then Attempt(None, Err(command.error))
      else
        Attempt(Some(command.value), match exec
          case Ok(stdout) => Ok(PrintJob(command.value, Trim(stdout), PlatformName(platform)))
          case Err(message) => Err("Stampa fallita: " + message))
  }

  /** The resolution of `checkPrinterStatus`. */
  datatype PrinterStatus = PrinterStatus(printer: string, platform: string, status: string, available: bool)

  /** `checkPrinterStatus()`: the same guard, then the status command. */
  function CheckPrinterStatus(platform: Platform, printerName: string, exec: Result<string, string>): (a: Attempt<PrinterStatus>)
    ensures !Configured(printerName) ==> a == Attempt(None, Err(NOT_CONFIGURED))
    ensures Configured(printerName) ==>
      && a.command == Some(StatusCommand(platform, printerName))
      && (a.result.Ok? <==> exec.Ok?)
      && (exec.Ok? ==> a.result.value == PrinterStatus(printerName, PlatformName(platform), Trim(exec.value), true))
      && (exec.Err? ==> a.result.error == "Stampante non trovata: " + exec.error)
  {
    if !Configured(printerName) then Attempt(None, Err(NOT_CONFIGURED))
    else
      Attempt(Some(StatusCommand(platform, printerName)), match exec
        case Ok(stdout) => Ok(PrinterStatus(printerName, PlatformName(platform), Trim(stdout), true))
        case Err(message) => Err("Stampante non trovata: " + message))
  }

  /** `str.startsWith(prefix)`. */
  predicate StartsWith(s: string, prefix: string) {
    |prefix| <= |s| && s[..|prefix|] == prefix
  }

  /** `str.includes(part)`. */
  predicate Includes(s: string, part: string) {
    StartsWith(s, part) || (s != [] && Includes(s[1..], part))
  }

  /** The run of non-space characters at the start of `s` (`s.split(/\s+/)[0]` when `s` is trimmed). */
  function FirstToken(s: string): (r: string)
    ensures |r| <= |s| && r == s[..|r|] && NoSpace(r)
    ensures |r| < |s| ==> IsSpace(s[|r|])
  {
    if s == [] || IsSpace(s[0]) then [] else [s[0]] + FirstToken(s[1..])
  }

  // ---------------------------------------------------------------------
  // parsePrinterList

  /** A printer record: the Windows branch records no status. */
  datatype Printer = Printer(name: string, platform: string, status: Option<string>)

  /** `line.match(/printer (\S+)/)` succeeds at position i. */
  predicate MatchesAt(line: string, i: nat) {
    i + 9 <= |line| && line[i..i + 8] == "printer " && !IsSpace(line[i + 8])
  }

  /** The leftmost match at or after `from`. */
  function FindPrinter(line: string, from: nat): (r: Option<nat>)
    ensures r.Some? ==> from <= r.value && MatchesAt(line, r.value)
    ensures r.Some? ==> forall j :: from <= j < r.value ==> !MatchesAt(line, j)
    ensures r.None? ==> forall j :: from <= j ==> !MatchesAt(line, j)
    decreases |line| - from
  {
    if from + 9 > |line| then None
    else if MatchesAt(line, from) then Some(from)
    else FindPrinter(line, from + 1)
  }

  /** One line of `lpstat -p`: a record when it mentions "printer <name>", idle iff the line says "idle". */
  function UnixEntry(platform: Platform, line: string): (r: Option<Printer>)
    ensures r.Some? <==> exists j :: MatchesAt(line, j)
    ensures r.Some? ==>
      && r.value.name != [] && NoSpace(r.value.name) && r.value.platform == PlatformName(platform)
      && r.value.status == Some(if Includes(line, "idle") then "idle" else "unknown")
  {
    var m := FindPrinter(line, 0);
    if m.None? then None
    else
      var name := FirstToken(line[m.value + 8..]);
      Some(Printer(name, PlatformName(platform), Some(if Includes(line, "idle") then "idle" else "unknown")))
  }

  /** One line of `wmic printer list brief`: skipped when blank or a "Name" heading, else its first word. */
  function WindowsEntry(line: string): (r: Option<Printer>)
    ensures r.Some? <==> Trim(line) != [] && !StartsWith(Trim(line), "Name")
    ensures r.Some? ==>
      && r.value.name != [] && NoSpace(r.value.name) && !StartsWith(r.value.name, "Name")
      && StartsWith(Trim(line), r.value.name)
      && r.value == Printer(r.value.name, "windows", None)
  {
    var trimmed := Trim(line);
    if trimmed != [] && !StartsWith(trimmed, "Name") then
      var name := FirstToken(trimmed);
      Some(Printer(name, "windows", None))
    else None
  }

  /** The entry of one line in the branch the platform selects. */
  function Entry(platform: Platform, line: string): Option<Printer> {
    if platform.Win32? then WindowsEntry(line) else UnixEntry(platform, line)
  }

  /** The lines the parser reads: Windows drops the heading line. */
  function ListLines(platform: Platform, output: string): seq<string> {
    var lines := Split(output, '\n');
    if platform.Win32? then lines[1..] else lines
  }

  /** The records of `lines`, in order. */
  function Entries(platform: Platform, lines: seq<string>): (ps: seq<Printer>)
    ensures |ps| <= |lines|
  {
    if lines == [] then []
    else
      var e := Entry(platform, lines[|lines| - 1]);
      Entries(platform, lines[..|lines| - 1]) + (if e.Some? then [e.value] else [])
  }

  function ParsedPrinters(platform: Platform, output: string): seq<Printer> {
    Entries(platform, ListLines(platform, output))
  }

  /** `parsePrinterList(output)`. */
  method ParsePrinterList(platform: Platform, output: string) returns (printers: seq<Printer>)
    ensures printers == ParsedPrinters(platform, output)
  {
    var lines := ListLines(platform, output);
    printers := [];
    var i := 0;
    while i < |lines|
      invariant 0 <= i <= |lines|
      invariant printers == Entries(platform, lines[..i])
    {
      var entry := Entry(platform, lines[i]);
      if entry.Some? {
        printers := printers + [entry.value];
      }
      EntriesStep(platform, lines, i);
      i := i + 1;
    }
    assert lines[..|lines|] == lines;
  }

  lemma EntriesStep(platform: Platform, lines: seq<string>, i: nat)
    requires i < |lines|
    ensures var e := Entry(platform, lines[i]);
      Entries(platform, lines[..i + 1]) == Entries(platform, lines[..i]) + (if e.Some? then [e.value] else [])
  {
    assert lines[..i + 1][..i] == lines[..i];
  }

  /** Every record comes from some line and has the shape its branch promises. */
  lemma {:induction false} EntriesShape(platform: Platform, lines: seq<string>)
    ensures forall p :: p in Entries(platform, lines) ==>
      exists k :: 0 <= k < |lines| && Entry(platform, lines[k]) == Some(p)
    ensures forall p :: p in Entries(platform, lines) ==> p.name != [] && NoSpace(p.name)
    ensures platform.Win32? ==> forall p :: p in Entries(platform, lines) ==>
      (p.platform == "windows" && p.status.None? && !StartsWith(p.name, "Name"))
    ensures !platform.Win32? ==> forall p :: p in Entries(platform, lines) ==>
      (p.platform == PlatformName(platform) && (p.status == Some("idle") || p.status == Some("unknown")))
  {
    if lines != [] {
      var init := lines[..|lines| - 1];
      EntriesShape(platform, init);
      forall p | p in Entries(platform, lines)
        ensures exists k :: 0 <= k < |lines| && Entry(platform, lines[k]) == Some(p)
      {
        if p in Entries(platform, init) {
          var k :| 0 <= k < |init| && Entry(platform, init[k]) == Some(p);
          assert lines[k] == init[k];
        } else {
          assert Entry(platform, lines[|lines| - 1]) == Some(p);
        }
      }
    }
  }

  /** The Windows parser never reads the first line of the output: any heading gives the same list. */
  lemma WindowsSkipsHeading(heading: string, other: string, rest: string)
    requires '\n' !in heading && '\n' !in other
    ensures ParsedPrinters(Win32, heading + "\n" + rest) == ParsedPrinters(Win32, other + "\n" + rest)
  {
    HeadingDropped(heading, rest);
    HeadingDropped(other, rest);
  }

  lemma HeadingDropped(heading: string, rest: string)
    requires '\n' !in heading
    ensures ListLines(Win32, heading + "\n" + rest) == Split(rest, '\n')
  {
    assert heading + "\n" + rest == heading + ['\n'] + rest;
    SplitFirstLine(heading, rest, '\n');
    assert ([heading] + Split(rest, '\n'))[1..] == Split(rest, '\n');
  }

  /** The resolution of `listPrinters`. */
  datatype PrinterList = PrinterList(platform: string, printers: seq<Printer>, count: nat)

  /** `listPrinters()`: the list command, then the parsed output with its count. */
  function ListPrinters(platform: Platform, exec: Result<string, string>): (a: Attempt<PrinterList>)
    ensures a.command == Some(ListCommand(platform))
    ensures a.result.Ok? <==> exec.Ok?
    ensures exec.Ok? ==>
      (a.result.value.printers == ParsedPrinters(platform, exec.value) && a.result.value.count == |a.result.value.printers|)
    ensures exec.Err? ==> a.result.error == "Errore nel listare stampanti: " + exec.error
  {
    Attempt(Some(ListCommand(platform)), match exec
      case Ok(stdout) =>
        var printers := ParsedPrinters(platform, stdout);
        Ok(PrinterList(PlatformName(platform), printers, |printers|))
      case Err(message) => Err("Errore nel listare stampanti: " + message))
  }

  // ---------------------------------------------------------------------
  // printRawContent and printRawFile (print station only)

  /** What `printRawContent` may be given. */
  datatype RawCommands =
    | CommandArray(values: seq<int>)   // an array of byte values
    | CommandBuffer(data: Bytes)       // a Buffer
    | CommandString(text: Text)        // a string
    | Unsupported                      // anything else

  /** The bytes written to the job file, or the reason the input is refused. */
  function RawData(commands: RawCommands): (r: Result<Bytes, string>)
    ensures r.Err? <==> commands.Unsupported?
    ensures r.Err? ==> r.error == UNSUPPORTED_FORMAT
    ensures commands.CommandArray? ==> |r.value| == |commands.values|
    ensures commands.CommandArray? ==> forall i :: 0 <= i < |commands.values| ==> r.value[i] == commands.values[i] % 256
    ensures commands.CommandBuffer? ==> r.value == commands.data
    ensures commands.CommandString? ==> r.value == TextToBytes(commands.text)
  {
    match commands
    case CommandArray(values) => Ok(seq(|values|, i requires 0 <= i < |values| => values[i] % 256))
    case CommandBuffer(data) => Ok(data)
    case CommandString(text) => Ok(TextToBytes(text))
    case Unsupported => Err(UNSUPPORTED_FORMAT)
  }

  /** `printRawFile`: the raw command of the platform, or a rejection. */
  function RawFileCommand(platform: Platform, filePath: string, printerName: string): (r: Result<string, string>)
    ensures r == BuildPrintCommand(platform, filePath, printerName, Some(true))
  {
    if platform.Win32? then Ok("copy /b \"" + filePath + "\" \"\\\\localhost\\" + printerName + "\"")
    else if IsUnix(platform) then
      var head := "lp -d \"" + printerName;
      assert "\" -o raw \"" == "\"" + " -o raw" + " \"";
      assert head + "\" -o raw \"" == head + "\"" + " -o raw" + " \"";
      var command := head + "\" -o raw \"" + filePath + "\"";
      Ok(command)
    else Err("Piattaforma non supportata: " + PlatformName(platform))
  }

  /** The success record of `printRawContent`. */
  datatype RawPrint = RawPrint(jobId: string, message: string, bytes: nat, platform: string)

  /** `path.sep`: a backslash on Windows, a slash elsewhere. */
  function PathSep(platform: Platform): string {
    if platform.Win32? then "\\" else "/"
  }

  /**
   * The job file, `path.join(os.tmpdir(), 'print-station', 'print-<jobId or millis>.bin')`,
   * for a temporary directory without a trailing separator (as `os.tmpdir()` gives it).
   */
  function RawFilePath(platform: Platform, tmpDir: string, jobId: string, millis: string): string {
    var sep := PathSep(platform);
    tmpDir + sep + "print-station" + sep + "print-" + (if jobId != [] then jobId else millis) + ".bin"
  }

  /**
   * The job file lies under the temporary directory and ends in ".bin"; on
   * Windows the part after the directory uses backslashes only.
   */
  lemma RawFileInTemp(platform: Platform, tmpDir: string, jobId: string, millis: string)
    ensures var p := RawFilePath(platform, tmpDir, jobId, millis);
      && |p| > |tmpDir| + 4 && p[..|tmpDir|] == tmpDir && p[|p| - 4..] == ".bin"
      && (platform.Win32? && '/' !in jobId && '/' !in millis ==> '/' !in p[|tmpDir|..])
  {
    var p := RawFilePath(platform, tmpDir, jobId, millis);
    var sep := PathSep(platform);
    var id := if jobId != [] then jobId else millis;
    var rest := sep + "print-station" + sep + "print-" + id + ".bin";
    assert p == tmpDir + rest;
    assert p[|tmpDir|..] == rest;
    if platform.Win32? && '/' !in jobId && '/' !in millis {
      assert '/' !in id;
      assert forall c :: c in rest ==> c in sep || c in "print-station" || c in "print-" || c in id || c in ".bin";
    }
  }

  /** What `printRawContent` writes and runs, and what it resolves with (it never rejects). */
  datatype RawRun = RawRun(file: Option<(string, Bytes)>, command: Option<string>, result: Result<RawPrint, string>)

  /**
   * `printRawContent(commands, jobId)`: the guard, the normalisation, the job
   * file, the raw command; every failure becomes a result with
   * "Stampa raw fallita: ..." instead of an exception.
   */
  function PrintRawContent(platform: Platform, printerName: string, commands: RawCommands, jobId: string,
                           tmpDir: string, millis: string, writeError: Option<string>, exec: Result<string, string>): (r: RawRun)
    ensures !Configured(printerName) ==>
      r == RawRun(None, None, Err(RAW_FAILED + NOT_CONFIGURED))
    ensures Configured(printerName) && commands.Unsupported? ==>
      r == RawRun(None, None, Err(RAW_FAILED + UNSUPPORTED_FORMAT))
    ensures r.result.Ok? <==>
      Configured(printerName) && !commands.Unsupported? && writeError.None? && !platform.OtherPlatform? && exec.Ok?
    ensures r.result.Ok? ==>
      && r.file == Some((RawFilePath(platform, tmpDir, jobId, millis), RawData(commands).value))
      && r.command == Some(BuildPrintCommand(platform, RawFilePath(platform, tmpDir, jobId, millis), printerName, None).value)
      && r.result.value.bytes == |RawData(commands).value|
      && r.result.value.jobId == (if jobId != [] then jobId else "UNKNOWN")
    ensures r.result.Err? ==> StartsWith(r.result.error, RAW_FAILED)
  {
    if !Configured(printerName) then
      RawFailurePrefix(NOT_CONFIGURED);
      RawRun(None, None, Err(RAW_FAILED + NOT_CONFIGURED))
    else
      var data := RawData(commands);
      if data.Err? then
        RawFailurePrefix(data.error);
        RawRun(None, None, Err(RAW_FAILED + data.error))
      else
        RawJob(platform, printerName, data.value, RawFilePath(platform, tmpDir, jobId, millis), jobId, writeError, exec)
  }

  /**
   * Writing the job file and running the raw command, once the input is
   * accepted. `writeError` is what `mkdirSync` or `writeFileSync` throws,
   * None when the file is written; nothing is run after a failed write.
   */
  function RawJob(platform: Platform, printerName: string, data: Bytes, path: string, jobId: string,
                  writeError: Option<string>, exec: Result<string, string>): (r: RawRun)
    ensures writeError.Some? ==> r == RawRun(None, None, Err(RAW_FAILED + writeError.value))
    ensures writeError.None? ==> r.file == Some((path, data))
    ensures r.result.Ok? <==> writeError.None? && !platform.OtherPlatform? && exec.Ok?
    ensures r.result.Ok? ==>
      && r.command == Some(BuildPrintCommand(platform, path, printerName, None).value)
      && r.result.value.bytes == |data|
      && r.result.value.jobId == (if jobId != [] then jobId else "UNKNOWN")
    ensures r.result.Err? ==> StartsWith(r.result.error, RAW_FAILED)
  {
    if writeError.Some? then
      RawFailurePrefix(writeError.value);
      RawRun(None, None, Err(RAW_FAILED + writeError.value))
    else
      var command := RawFileCommand(platform, path, printerName);
      if command.Err? then
        RawFailurePrefix(command.error);
        RawRun(Some((path, data)), None, Err(RAW_FAILED + command.error))
      else if exec.Ok? then
        RawRun(Some((path, data)), Some(command.value),
               Ok(RawPrint(if jobId != [] then jobId else "UNKNOWN", "Comandi ESC/POS stampati",
                           |data|, PlatformName(platform))))
      else
        RawFailurePrefix("Stampa fallita: " + exec.error);
        RawRun(Some((path, data)), Some(command.value), Err(RAW_FAILED + ("Stampa fallita: " + exec.error)))
  }

  lemma RawFailurePrefix(reason: string)
    ensures StartsWith(RAW_FAILED + reason, RAW_FAILED)
  {
    assert (RAW_FAILED + reason)[..|RAW_FAILED|] == RAW_FAILED;
  }
}
