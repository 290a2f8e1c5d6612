/** `src/commands/run.ts`: `RunCommand.run`, which checks the program's
    folders, writes the emulator's configuration file for the program and
    launches the emulator on it. */
module RunCommand {
  import opened Outcomes
  import opened JsStrings
  import opened NodeFs
  import opened Utils
  import opened Dosbox
  import opened ConfigSections

  /** What `run` reads from the user's configuration. */
  datatype UserConfig = UserConfig(hddPath: Option<Path>, dosboxConf: Conf, filePath: string)

  /** The paths `run` derives from the tool's root folder, the user's
      configuration, the program's configuration and the program's name. */
  datatype Layout = Layout(
    hddRoot: Path,
    progFolder: Path,
    folderName: string,
    programHddFolder: Path,
    configRoot: Path,
    commonConfig: Path,
    configFile: Path,
    captures: Path)

  /** The programs live under `hddPath`, or `<root>/hdd` when it is not set;
      the program's system folder is `c/<folder name>` inside the program
      folder, the folder name being `cFolderPath` or else the program's
      name; the output is `<root>/data/config/<appName>.conf`. */
  function LayoutOf(root: Path, user: UserConfig, program: ProgramConfig, appName: string): (l: Layout)
    ensures l.hddRoot == (if user.hddPath.Some? then user.hddPath.value else PathJoin(root, "hdd"))
    ensures l.progFolder == PathJoin(l.hddRoot, appName)
    ensures l.folderName == (if program.cFolderPath.Some? then program.cFolderPath.value else appName)
    ensures l.configRoot == PathJoin(PathJoin(root, "data"), "config")
    ensures l.programHddFolder == PathJoin(PathJoin(l.progFolder, "c"), l.folderName)
    ensures l.configFile == PathJoin(l.configRoot, appName + ".conf")
  {
    var hddRoot := user.hddPath.GetOr(PathJoin(root, "hdd"));
    var progFolder := PathJoin(hddRoot, appName);
    var folderName := program.cFolderPath.GetOr(appName);
    var configRoot := PathJoin(PathJoin(root, "data"), "config");
    Layout(hddRoot, progFolder, folderName,
           PathJoin(PathJoin(progFolder, "c"), program.cFolderPath.GetOr(folderName)),
           configRoot, PathJoin(PathJoin(root, "data"), "common.conf"),
           PathJoin(configRoot, appName + ".conf"), PathJoin(progFolder, "captures"))
  }

  /** The checks made before anything is created: the hdd root and the
      program folder must be directories; the system folder is only looked
      at, and whether it exists is the result. */
  function Checks(d: Disk, l: Layout): (r: Result<bool>)
    ensures r.Ok? <==> DirectoryExists(d, l.hddRoot) == Ok(true) && DirectoryExists(d, l.progFolder) == Ok(true)
                       && DirectoryExists(d, l.programHddFolder).Ok?
    ensures r.Ok? ==> r.value == DirectoryExists(d, l.programHddFolder).value
    ensures DirectoryExists(d, l.hddRoot) == Ok(false) ==> r == Err(DBWError("No folder at '" + l.hddRoot + "'"))
    ensures DirectoryExists(d, l.hddRoot) == Ok(true) && DirectoryExists(d, l.progFolder) == Ok(false) ==>
              r == Err(DBWError("No folder at '" + l.progFolder + "'"))
  {
    match DirectoryExists(d, l.hddRoot)
    case Err(e) => Err(e)
    case Ok(false) => Err(DBWError("No folder at '" + l.hddRoot + "'"))
    case Ok(true) =>
      match DirectoryExists(d, l.progFolder)
      case Err(e) => Err(e)
      case Ok(false) => Err(DBWError("No folder at '" + l.progFolder + "'"))
      case Ok(true) => DirectoryExists(d, l.programHddFolder)
  }

  /** The placeholders of program-level values, in the order they are
      replaced. */
  function Placeholders(l: Layout): (subst: Substitution)
    ensures Patterns(subst)
  {
    [("{{hddFolder}}", l.progFolder), ("{{cFolder}}", l.programHddFolder)]
  }

  /** The template literal that changes to the system folder and starts the
      program. */
  function CdBlock(program: ProgramConfig, l: Layout): string {
    Block(Spaces(8), ["cd " + CdTarget(l.folderName), program.exePreCommand.GetOr(""),
                      RunCommandLine(program.exeToLaunch, l.folderName)], Spaces(6))
  }

  /** The `cd` block is written as its three lines between EOLs, each line
      as `appendFile` writes it: the `cd` to the backslashed folder name,
      the pre-command, and the run command. An undefined pre-command
      leaves an empty line. */
  lemma CdBlockWritten(program: ProgramConfig, l: Layout)
    ensures var lines := ["cd " + CdTarget(l.folderName), program.exePreCommand.GetOr(""),
                          RunCommandLine(program.exeToLaunch, l.folderName)];
            LineTrimmed(CdBlock(program, l)) == Lines(EachLineTrimmed(lines))
            && (program.exePreCommand.None? ==> EachLineTrimmed(lines)[1] == "")
  {
    var lines := ["cd " + CdTarget(l.folderName), program.exePreCommand.GetOr(""),
                  RunCommandLine(program.exeToLaunch, l.folderName)];
    BlockWritten(Spaces(8), lines, Spaces(6));
    LineTrimmedBlank("");
  }

  /** What is appended before the CD-ROM drives: the user's sections, the
      `[dosbox]` block and the floppy step's text. */
  function HeadText(l: Layout, user: UserConfig, floppyText: string): string {
    SectionsText(user.dosboxConf, 10, user.filePath, []) + LineTrimmed(DosboxBlock(6, l.captures)) + floppyText
  }

  /** The `cd` block is appended only when the system folder exists; a
      failing stat of that folder is passed on. */
  function CdText(d: Disk, l: Layout, program: ProgramConfig): (r: Result<string>)
    ensures r.Err? <==> DirectoryExists(d, l.programHddFolder).Err?
    ensures r == Ok("") <== DirectoryExists(d, l.programHddFolder) == Ok(false)
  {
    match DirectoryExists(d, l.programHddFolder)
    case Err(e) => Err(e)
    case Ok(found) => Ok(if found then LineTrimmed(CdBlock(program, l)) else "")
  }

  /** What is appended after the CD-ROM drives: the system mount, `c:`, the
      `cd` block when the system folder exists, and the program's sections;
      a failing stat of the system folder stops it after `c:`. */
  function TailText(d: Disk, l: Layout, program: ProgramConfig): Emitted {
    var text := SystemDirective(SystemDrive(PathJoin(l.progFolder, "c"), 900)) + LineTrimmed("c:");
    var cd := CdText(d, l, program);
    if cd.Err? then Emitted(text, Fail(cd.error))
    else Emitted(text + cd.value + SectionsText(program.dosboxConf, 10, program.filePath, Placeholders(l)), Pass)
  }

  /** Everything appended after the template copy, in order, and how the
      appending ends: a stat failure while mounting the CD-ROM drives stops
      it there. */
  function Written(d: Disk, l: Layout, user: UserConfig, program: ProgramConfig, floppyText: string): Emitted {
    var drives := DrivesOutput(d, CdDrives(l.progFolder), l.folderName);
    var mounted := HeadText(l, user, floppyText) + drives.text;
    if drives.outcome.Fail? then Emitted(mounted, drives.outcome)
    else
      var tail := TailText(d, l, program);
      Emitted(mounted + tail.text, tail.outcome)
  }

  /** A whole run: the disk it leaves and the command line it launches, or
      the error it throws. */
  function Ran(d: Disk, root: Path, platform: string, user: UserConfig, program: ProgramConfig,
               floppyText: string, appName: string): (Disk, Result<string>)
    requires d.Valid()
  {
    var l := LayoutOf(root, user, program, appName);
    var checked := Checks(d, l);
    if checked.Err? then (d, Err(checked.error))
    else
      var (d1, o) := Prepared(d, l.configRoot, l.captures, l.commonConfig, l.configFile);
      if o.Fail? then (d1, Err(o.error))
      else
        var w := Written(d1, l, user, program, floppyText);
        var d2 := Appended(d1, l.configFile, w.text);
        if w.outcome.Fail? then (d2, Err(w.outcome.error))
        else (d2, Launch(d2, l.configFile, platform))
  }

  /** A failed check throws before any folder is created or the template
      is copied: the disk is left as it was. */
  lemma FailedChecksWriteNothing(d: Disk, root: Path, platform: string, user: UserConfig, program: ProgramConfig,
                                 floppyText: string, appName: string)
    requires d.Valid()
    ensures var l := LayoutOf(root, user, program, appName);
            Checks(d, l).Err? ==> Ran(d, root, platform, user, program, floppyText, appName) == (d, Err(Checks(d, l).error))
  {
  }

  /** Once the template is copied, the output file holds the template
      followed by, in this order: the user's sections, the `[dosbox]`
      block, the floppy mounts, the CD-ROM mounts d to p, the system mount,
      `c:`, the `cd` block and the program's sections. What the output file
      held before the run plays no part. */
  lemma RunWritesInOrder(d: Disk, root: Path, platform: string, user: UserConfig, program: ProgramConfig,
                         floppyText: string, appName: string)
    requires d.Valid()
    ensures var l := LayoutOf(root, user, program, appName);
            var d1 := Prepared(d, l.configRoot, l.captures, l.commonConfig, l.configFile).0;
            var ran := Ran(d, root, platform, user, program, floppyText, appName);
            Checks(d, l).Ok? && Prepared(d, l.configRoot, l.captures, l.commonConfig, l.configFile).1.Pass?
            && DrivesOutput(d1, CdDrives(l.progFolder), l.folderName).outcome.Pass?
            && CdText(d1, l, program).Ok? ==>
              l.configFile in ran.0.contents
              && ran.0.contents[l.configFile]
                 == d.contents[l.commonConfig]
                    + SectionsText(user.dosboxConf, 10, user.filePath, [])
                    + LineTrimmed(DosboxBlock(6, l.captures))
                    + floppyText
                    + DrivesOutput(d1, CdDrives(l.progFolder), l.folderName).text
                    + SystemDirective(SystemDrive(PathJoin(l.progFolder, "c"), 900))
                    + LineTrimmed("c:")
                    + CdText(d1, l, program).value
                    + SectionsText(program.dosboxConf, 10, program.filePath, Placeholders(l))
  {
    var l := LayoutOf(root, user, program, appName);
    if Checks(d, l).Ok? && Prepared(d, l.configRoot, l.captures, l.commonConfig, l.configFile).1.Pass? {
      var d1 := Prepared(d, l.configRoot, l.captures, l.commonConfig, l.configFile).0;
      var drives := DrivesOutput(d1, CdDrives(l.progFolder), l.folderName);
      var cd := CdText(d1, l, program);
      if drives.outcome.Pass? && cd.Ok? {
        Reassociated(d.contents[l.commonConfig], SectionsText(user.dosboxConf, 10, user.filePath, []),
                     LineTrimmed(DosboxBlock(6, l.captures)), floppyText, drives.text,
                     SystemDirective(SystemDrive(PathJoin(l.progFolder, "c"), 900)), LineTrimmed("c:"), cd.value,
                     SectionsText(program.dosboxConf, 10, program.filePath, Placeholders(l)));
      }
    }
  }

  /** Regroups the appended parts; a separate lemma keeps the large terms
      out of the solver's way. */
  lemma Reassociated(t: string, a: string, b: string, c: string, e: string, f: string, g: string, h: string, i: string)
    ensures t + (((a + b) + c) + e + ((f + g) + h + i)) == t + a + b + c + e + f + g + h + i
  {
  }

  /** A run that wrote its whole configuration file never reports the file
      missing: it launches the emulator for the platform on that file, or
      fails on an unknown platform. */
  lemma LaunchesAfterWriting(d: Disk, root: Path, platform: string, user: UserConfig, program: ProgramConfig,
                             floppyText: string, appName: string)
    requires d.Valid()
    ensures var l := LayoutOf(root, user, program, appName);
            var ran := Ran(d, root, platform, user, program, floppyText, appName);
            Checks(d, l).Ok? && Prepared(d, l.configRoot, l.captures, l.commonConfig, l.configFile).1.Pass?
            && Written(Prepared(d, l.configRoot, l.captures, l.commonConfig, l.configFile).0, l, user, program,
                       floppyText).outcome.Pass? ==>
              ran.1 == if DosboxCall(platform).Ok?
                       then Ok(DosboxCall(platform).value + " -conf \"" + l.configFile + "\" -exit")
                       else Err(DosboxCall(platform).error)
  {
    var l := LayoutOf(root, user, program, appName);
    if Checks(d, l).Ok? && Prepared(d, l.configRoot, l.captures, l.commonConfig, l.configFile).1.Pass? {
      var d1 := Prepared(d, l.configRoot, l.captures, l.commonConfig, l.configFile).0;
      var w := Written(d1, l, user, program, floppyText);
      assert Appended(d1, l.configFile, w.text).IsFile(l.configFile);
    }
  }

  /** Everything appended depends only on the shape of the disk. */
  lemma WrittenIgnoresContents(d: Disk, e: Disk, l: Layout, user: UserConfig, program: ProgramConfig, floppyText: string)
    requires d.SameShape(e)
    ensures Written(d, l, user, program, floppyText) == Written(e, l, user, program, floppyText)
  {
    DrivesOutputIgnoresContents(d, e, CdDrives(l.progFolder), l.folderName);
    TailIgnoresContents(d, e, l, program);
  }

  /** A run overwrites its output file: on two disks that differ only in
      what files hold, and agree on the template, the run ends the same way
      and writes the same configuration file, whatever the file held before. */
  lemma RunIgnoresOldContents(d: Disk, e: Disk, root: Path, platform: string, user: UserConfig, program: ProgramConfig,
                              floppyText: string, appName: string)
    requires d.Valid() && e.Valid() && d.SameShape(e)
    requires var common := LayoutOf(root, user, program, appName).commonConfig;
             common in d.contents ==> d.contents[common] == e.contents[common]
    ensures var ran := Ran(d, root, platform, user, program, floppyText, appName);
            var ran' := Ran(e, root, platform, user, program, floppyText, appName);
            var l := LayoutOf(root, user, program, appName);
            ran.1 == ran'.1
            && (Checks(d, l).Ok? && Prepared(d, l.configRoot, l.captures, l.commonConfig, l.configFile).1.Pass? ==>
                  l.configFile in ran.0.contents && l.configFile in ran'.0.contents
                  && ran.0.contents[l.configFile] == ran'.0.contents[l.configFile])
  {
    var l := LayoutOf(root, user, program, appName);
    ExistsIgnoresContents(d, e, l.hddRoot);
    ExistsIgnoresContents(d, e, l.progFolder);
    ExistsIgnoresContents(d, e, l.programHddFolder);
    if Checks(d, l).Ok? {
      PreparedIgnoresContents(d, e, l.configRoot, l.captures, l.commonConfig, l.configFile);
      var d1 := Prepared(d, l.configRoot, l.captures, l.commonConfig, l.configFile).0;
      var e1 := Prepared(e, l.configRoot, l.captures, l.commonConfig, l.configFile).0;
      if Prepared(d, l.configRoot, l.captures, l.commonConfig, l.configFile).1.Pass? {
        WrittenIgnoresContents(d1, e1, l, user, program, floppyText);
        var text := Written(d1, l, user, program, floppyText).text;
        ExistsIgnoresContents(Appended(d1, l.configFile, text), Appended(e1, l.configFile, text), l.configFile);
      }
    }
  }

  /** The appends of `run` before the CD-ROM drives. */
  method AppendHead(fs: FileSystem, l: Layout, user: UserConfig, floppyText: string)
    requires fs.Valid() && fs.Snapshot().IsFile(l.configFile)
    modifies fs
    ensures fs.Valid()
    ensures fs.Snapshot() == Appended(old(fs.Snapshot()), l.configFile, HeadText(l, user, floppyText))
  {
    ghost var d1 := fs.Snapshot();
    AppendSections(fs, l.configFile, user.dosboxConf, 10, user.filePath, []);
    ghost var text := SectionsText(user.dosboxConf, 10, user.filePath, []);
    var written := AppendFile(fs, l.configFile, DosboxBlock(6, l.captures));
    AppendedTwice(d1, l.configFile, text, LineTrimmed(DosboxBlock(6, l.captures)));
    text := text + LineTrimmed(DosboxBlock(6, l.captures));
    written := fs.Append(l.configFile, floppyText);
    AppendedTwice(d1, l.configFile, text, floppyText);
  }

  /** The `cd` step of `run`: when the system folder exists, change to it,
      run the pre-command if any, and start the program. */
  method AppendCd(fs: FileSystem, l: Layout, program: ProgramConfig, cmdToLaunch: Option<string>) returns (r: Outcome)
    requires fs.Valid() && fs.Snapshot().IsFile(l.configFile)
    requires cmdToLaunch == if program.exeToLaunch.None? then Some(RunCommandLine(None, l.folderName)) else None
    modifies fs
    ensures fs.Valid()
    ensures CdText(old(fs.Snapshot()), l, program).Err? ==>
              r == Fail(CdText(old(fs.Snapshot()), l, program).error) && fs.Snapshot() == old(fs.Snapshot())
    ensures CdText(old(fs.Snapshot()), l, program).Ok? ==>
              r == Pass
              && fs.Snapshot() == Appended(old(fs.Snapshot()), l.configFile, CdText(old(fs.Snapshot()), l, program).value)
  {
    AppendedNothing(fs.Snapshot(), l.configFile);
    r := Pass;
    var cdExists := DirectoryExists(fs.Snapshot(), l.programHddFolder);
    if cdExists.Err? {
      return Fail(cdExists.error);
    }
    if cdExists.value {
      var runCommand := "";
      if program.exeToLaunch.Some? {
        runCommand := program.exeToLaunch.value;
      } else if cmdToLaunch.Some? {
        runCommand := cmdToLaunch.value;
      }
      var programHddFolderNameWithBackslashes := ReplaceAll(l.folderName, "/", "\\");
      assert programHddFolderNameWithBackslashes == CdTarget(l.folderName);
      var written := AppendFile(fs, l.configFile,
        Block(Spaces(8), ["cd " + programHddFolderNameWithBackslashes, program.exePreCommand.GetOr(""), runCommand], Spaces(6)));
    }
  }

  /** The appends of `run` after the CD-ROM drives; `cmdToLaunch` is the
      conditional start command `run` chose when no executable is
      configured. */
  method AppendTail(fs: FileSystem, l: Layout, program: ProgramConfig, cmdToLaunch: Option<string>) returns (r: Outcome)
    requires fs.Valid() && fs.Snapshot().IsFile(l.configFile)
    requires cmdToLaunch == if program.exeToLaunch.None? then Some(RunCommandLine(None, l.folderName)) else None
    modifies fs
    ensures fs.Valid()
    ensures fs.Snapshot() == Appended(old(fs.Snapshot()), l.configFile, TailText(old(fs.Snapshot()), l, program).text)
    ensures r == TailText(old(fs.Snapshot()), l, program).outcome
  {
    ghost var d1 := fs.Snapshot();
    MountSystem(fs, SystemDrive(PathJoin(l.progFolder, "c"), 900), l.configFile);
    ghost var text := SystemDirective(SystemDrive(PathJoin(l.progFolder, "c"), 900));
    var written := AppendFile(fs, l.configFile, "c:");
    AppendedTwice(d1, l.configFile, text, LineTrimmed("c:"));
    text := text + LineTrimmed("c:");

    ExistsIgnoresContents(fs.Snapshot(), d1, l.programHddFolder);
    assert CdText(fs.Snapshot(), l, program) == CdText(d1, l, program);
    r := AppendCd(fs, l, program, cmdToLaunch);
    if r.Fail? {
      return;
    }
    AppendedTwice(d1, l.configFile, text, CdText(d1, l, program).value);
    text := text + CdText(d1, l, program).value;

    AppendSections(fs, l.configFile, program.dosboxConf, 10, program.filePath, Placeholders(l));
    AppendedTwice(d1, l.configFile, text, SectionsText(program.dosboxConf, 10, program.filePath, Placeholders(l)));
  }

  /** The appends of `run` after the template copy, in the order of the
      source. */
  method WriteConfig(fs: FileSystem, l: Layout, user: UserConfig, program: ProgramConfig,
                     cmdToLaunch: Option<string>, floppyText: string) returns (r: Outcome)
    requires fs.Valid() && fs.Snapshot().IsFile(l.configFile)
    requires cmdToLaunch == if program.exeToLaunch.None? then Some(RunCommandLine(None, l.folderName)) else None
    modifies fs
    ensures fs.Valid()
    ensures fs.Snapshot()
            == Appended(old(fs.Snapshot()), l.configFile, Written(old(fs.Snapshot()), l, user, program, floppyText).text)
    ensures r == Written(old(fs.Snapshot()), l, user, program, floppyText).outcome
  {
    ghost var d1 := fs.Snapshot();
    AppendHead(fs, l, user, floppyText);
    ghost var text := HeadText(l, user, floppyText);
    var drives := CdDrives(l.progFolder);
    DrivesOutputIgnoresContents(fs.Snapshot(), d1, drives, l.folderName);
    r := MountDrives(fs, drives, l.folderName, l.configFile);
    AppendedTwice(d1, l.configFile, text, DrivesOutput(d1, drives, l.folderName).text);
    text := text + DrivesOutput(d1, drives, l.folderName).text;
    if r.Fail? {
      return;
    }
    ghost var d2 := fs.Snapshot();
    TailIgnoresContents(d2, d1, l, program);
    r := AppendTail(fs, l, program, cmdToLaunch);
    AppendedTwice(d1, l.configFile, text, TailText(d1, l, program).text);
  }

  /** What is appended after the drives depends only on the shape of the
      disk. */
  lemma TailIgnoresContents(d: Disk, e: Disk, l: Layout, program: ProgramConfig)
    requires d.SameShape(e)
    ensures TailText(d, l, program) == TailText(e, l, program)
  {
    ExistsIgnoresContents(d, e, l.programHddFolder);
  }

  /** `RunCommand.run(appName)`. The floppy step appends `floppyText`, the
      text of the floppy mounts, as it is. */
  method Run(fs: FileSystem, root: Path, platform: string, user: UserConfig, program: ProgramConfig,
             floppyText: string, appName: string) returns (r: Result<string>)
    requires fs.Valid()
    modifies fs
    ensures fs.Valid()
    ensures (fs.Snapshot(), r) == Ran(old(fs.Snapshot()), root, platform, user, program, floppyText, appName)
  {
    var hddRoot := user.hddPath.GetOr(PathJoin(root, "hdd"));
    var dosboxGeneratedConfigRoot := PathJoin(PathJoin(root, "data"), "config");
    var commonConfigPath := PathJoin(PathJoin(root, "data"), "common.conf");

    var hddExists := DirectoryExists(fs.Snapshot(), hddRoot);
    if hddExists.Err? {
      return Err(hddExists.error);
    }
    if !hddExists.value {
      return Err(DBWError("No folder at '" + hddRoot + "'"));
    }

    var progFolder := PathJoin(hddRoot, appName);
    var programHddFolderName := program.cFolderPath.GetOr(appName);
    var programHddFolder := PathJoin(PathJoin(progFolder, "c"), program.cFolderPath.GetOr(programHddFolderName));
    var dosboxConfigFile := PathJoin(dosboxGeneratedConfigRoot, appName + ".conf");
    var capturesFolder := PathJoin(progFolder, "captures");
    var l := Layout(hddRoot, progFolder, programHddFolderName, programHddFolder,
                    dosboxGeneratedConfigRoot, commonConfigPath, dosboxConfigFile, capturesFolder);
    assert l == LayoutOf(root, user, program, appName);
    var exeToLaunch := program.exeToLaunch;
    var cmdToLaunch: Option<string> := None;

    var progExists := DirectoryExists(fs.Snapshot(), progFolder);
    if progExists.Err? {
      return Err(progExists.error);
    }
    if !progExists.value {
      return Err(DBWError("No folder at '" + progFolder + "'"));
    }
    var hddFolderExists := DirectoryExists(fs.Snapshot(), programHddFolder);
    if hddFolderExists.Err? {
      return Err(hddFolderExists.error);
    }
    if exeToLaunch.None? {
      cmdToLaunch := Some("if exist " + programHddFolderName + ".exe " + programHddFolderName + ".exe");
    }

    var o := fs.MakeDirectory(dosboxGeneratedConfigRoot);
    if o.Fail? {
      return Err(o.error);
    }
    o := fs.MakeDirectory(capturesFolder);
    if o.Fail? {
      return Err(o.error);
    }
    o := fs.CopyFile(commonConfigPath, dosboxConfigFile);
    if o.Fail? {
      return Err(o.error);
    }

    ghost var d1 := fs.Snapshot();
    o := WriteConfig(fs, l, user, program, cmdToLaunch, floppyText);
    if o.Fail? {
      return Err(o.error);
    }
    ExistsIgnoresContents(fs.Snapshot(), d1, dosboxConfigFile);
    r := Launch(fs.Snapshot(), dosboxConfigFile, platform);
  }
}
