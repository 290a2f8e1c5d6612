/** `src/main.ts`: the earlier pipeline, `main(args)`, and the `wrapper`
    that runs it. Programs live under a `bin` folder, a missing system
    folder is fatal, and only floppy `a` is mounted, from its folder. */
module LegacyMain {
  import opened Outcomes
  import opened JsStrings
  import opened NodeFs
  import opened Utils
  import opened Dosbox
  import opened ConfigSections

  /** What `main` reads from the user's configuration. */
  datatype UserConfig = UserConfig(binPath: Option<Path>, dosboxConf: Conf, filePath: string)

  /** The paths `main` derives from the tool's root folder, the user's
      configuration, the program's configuration and the program's name. */
  datatype Layout = Layout(
    binRoot: Path,
    progFolder: Path,
    folderName: string,
    programBinFolder: Path,
    configRoot: Path,
    commonConfig: Path,
    configFile: Path,
    captures: Path)

  /** The programs live under `binPath`, or `<root>/bin` when it is not set;
      the program's system folder is `c/<folder name>` inside the program
      folder, the folder name being `cFolderPath` or else the program's
      name; the output is `<root>/data/config/<progName>.conf`. */
  function LayoutOf(root: Path, user: UserConfig, program: ProgramConfig, progName: string): (l: Layout)
    ensures l.binRoot == (if user.binPath.Some? then user.binPath.value else PathJoin(root, "bin"))
    ensures l.progFolder == PathJoin(l.binRoot, progName)
    ensures l.folderName == (if program.cFolderPath.Some? then program.cFolderPath.value else progName)
    ensures l.configRoot == PathJoin(PathJoin(root, "data"), "config")
    ensures l.programBinFolder == PathJoin(PathJoin(l.progFolder, "c"), l.folderName)
    ensures l.configFile == PathJoin(l.configRoot, progName + ".conf")
  {
    var binRoot := user.binPath.GetOr(PathJoin(root, "bin"));
    var progFolder := PathJoin(binRoot, progName);
    var folderName := program.cFolderPath.GetOr(progName);
    var configRoot := PathJoin(PathJoin(root, "data"), "config");
    Layout(binRoot, progFolder, folderName,
           PathJoin(PathJoin(progFolder, "c"), program.cFolderPath.GetOr(folderName)),
           configRoot, PathJoin(PathJoin(root, "data"), "common.conf"),
           PathJoin(configRoot, progName + ".conf"), PathJoin(progFolder, "captures"))
  }

  /** The checks made before anything is created: the bin root, the
      program folder and the program's system folder must all be
      directories, or `main` throws. */
  function Checks(d: Disk, l: Layout): (r: Outcome)
    ensures r.Pass? <==> DirectoryExists(d, l.binRoot) == Ok(true) && DirectoryExists(d, l.progFolder) == Ok(true)
                         && DirectoryExists(d, l.programBinFolder) == Ok(true)
    ensures DirectoryExists(d, l.binRoot) == Ok(false) ==> r == Fail(DBWError("No folder at '" + l.binRoot + "'"))
    ensures DirectoryExists(d, l.binRoot) == Ok(true) && DirectoryExists(d, l.progFolder) == Ok(false) ==>
              r == Fail(DBWError("No folder at '" + l.progFolder + "'"))
    ensures DirectoryExists(d, l.binRoot) == Ok(true) && DirectoryExists(d, l.progFolder) == Ok(true)
            && DirectoryExists(d, l.programBinFolder) == Ok(false) ==>
              r == Fail(DBWError("No bin folder at '" + l.programBinFolder + "'"))
  {
    match DirectoryExists(d, l.binRoot)
    case Err(e) => Fail(e)
    case Ok(false) => Fail(DBWError("No folder at '" + l.binRoot + "'"))
    case Ok(true) =>
      match DirectoryExists(d, l.progFolder)
      case Err(e) => Fail(e)
      case Ok(false) => Fail(DBWError("No folder at '" + l.progFolder + "'"))
      case Ok(true) =>
        match DirectoryExists(d, l.programBinFolder)
        case Err(e) => Fail(e)
        case Ok(false) => Fail(DBWError("No bin folder at '" + l.programBinFolder + "'"))
        case Ok(true) => Pass
  }

  /** The placeholders of program-level values, in the order they are
      replaced. */
  function Placeholders(l: Layout): (subst: Substitution)
    ensures Patterns(subst)
  {
    [("{{binfolder}}", l.progFolder), ("{{cfolder}}", l.programBinFolder)]
  }

  /** What is appended right after the template copy: the user's sections
      and the `[dosbox]` block. */
  function HeadText(l: Layout, user: UserConfig): string {
    SectionsText(user.dosboxConf, 8, user.filePath, []) + LineTrimmed(DosboxBlock(4, l.captures))
  }

  /** Floppy `a`, mounted from the `a` folder of the program. */
  function FloppyA(l: Layout): Drive {
    Drive("a", PathJoin(l.progFolder, "a"), None, None, None)
  }

  /** What `mountFloppy` writes for floppy `a`: the `mount a` directive,
      unchanged, when its folder exists, nothing when it does not; a failing
      stat of the folder is passed on. */
  function FloppyText(d: Disk, l: Layout): (r: Result<string>)
    ensures r.Err? <==> DirectoryExists(d, PathJoin(l.progFolder, "a")).Err?
    ensures DirectoryExists(d, PathJoin(l.progFolder, "a")) == Ok(false) ==> r == Ok("")
    ensures DirectoryExists(d, PathJoin(l.progFolder, "a")) == Ok(true) && '\n' !in l.progFolder ==>
              r == Ok(FloppyRaw(FloppyA(l)))
  {
    match DirectoryExists(d, FloppyA(l).folderPath)
    case Err(e) => Err(e)
    case Ok(found) =>
      if found then
        FloppyAWritten(l);
        Ok(LineTrimmed(FloppyRaw(FloppyA(l))))
      else Ok("")
  }

  /** The `mount a` directive holds no EOL and is written as it is when the
      program folder has no EOL. */
  lemma FloppyAWritten(l: Layout)
    ensures '\n' !in l.progFolder ==>
              '\n' !in FloppyRaw(FloppyA(l)) && LineTrimmed(FloppyRaw(FloppyA(l))) == FloppyRaw(FloppyA(l))
  {
    if '\n' !in l.progFolder {
      var p := PathJoin(l.progFolder, "a");
      assert p[..|l.progFolder|] == l.progFolder && p[|l.progFolder|..] == "/a";
      assert '\n' !in p;
      FloppyDirectiveText(FloppyA(l));
    }
  }

  /** What is appended for floppy `a` and the CD-ROM drives d to p, and how
      it ends: a failing stat stops it. */
  function MountsText(d: Disk, l: Layout): Emitted {
    var floppy := FloppyText(d, l);
    if floppy.Err? then Emitted("", Fail(floppy.error))
    else
      var drives := DrivesOutput(d, CdDrives(l.progFolder), l.folderName);
      Emitted(floppy.value + drives.text, drives.outcome)
  }

  /** The floppy directive and the CD-ROM directives are appended with no
      line break between them: for a program folder without EOL, all of
      them end up glued on one line. */
  lemma MountsOnOneLine(d: Disk, l: Layout)
    requires '\n' !in l.progFolder && '\n' !in l.folderName
    ensures '\n' !in MountsText(d, l).text
  {
    var floppy := FloppyText(d, l);
    if floppy.Ok? {
      FloppyAWritten(l);
      CdDrivesEolFree(l.progFolder);
      DrivesOutputOnOneLine(d, CdDrives(l.progFolder), l.folderName);
    }
  }

  /** The template literal that changes to the system drive and folder and
      starts the program. */
  function CdBlock(program: ProgramConfig, l: Layout): string {
    Block(Spaces(6), ["c:", "cd " + CdTarget(l.folderName), program.exePreCommand.GetOr(""),
                      RunCommandLine(program.exeToLaunch, l.folderName)], Spaces(4))
  }

  /** The `c:`/`cd` block is written as its four lines between EOLs, each
      line as `appendFile` writes it: `c:`, the `cd` to the backslashed
      folder name, the pre-command, and the run command. An undefined
      pre-command leaves an empty line. */
  lemma CdBlockWritten(program: ProgramConfig, l: Layout)
    ensures var lines := ["c:", "cd " + CdTarget(l.folderName), program.exePreCommand.GetOr(""),
                          RunCommandLine(program.exeToLaunch, l.folderName)];
            LineTrimmed(CdBlock(program, l)) == Lines(EachLineTrimmed(lines))
            && (program.exePreCommand.None? ==> EachLineTrimmed(lines)[2] == "")
  {
    var lines := ["c:", "cd " + CdTarget(l.folderName), program.exePreCommand.GetOr(""),
                  RunCommandLine(program.exeToLaunch, l.folderName)];
    BlockWritten(Spaces(6), lines, Spaces(4));
    LineTrimmedBlank("");
  }

  /** The `c:`/`cd` block is appended only when the system folder exists;
      a failing stat of that folder is passed on. */
  function CdText(d: Disk, l: Layout, program: ProgramConfig): (r: Result<string>)
    ensures r.Err? <==> DirectoryExists(d, l.programBinFolder).Err?
    ensures r == Ok("") <== DirectoryExists(d, l.programBinFolder) == Ok(false)
  {
    match DirectoryExists(d, l.programBinFolder)
    case Err(e) => Err(e)
    case Ok(found) => Ok(if found then LineTrimmed(CdBlock(program, l)) else "")
  }

  /** What is appended after the system mount: the `c:`/`cd` block, then
      the program's sections; a failing stat of the system folder stops it
      before either. */
  function ProgramText(d: Disk, l: Layout, program: ProgramConfig): Emitted {
    var cd := CdText(d, l, program);
    if cd.Err? then Emitted("", Fail(cd.error))
    else Emitted(cd.value + SectionsText(program.dosboxConf, 8, program.filePath, Placeholders(l)), Pass)
  }

  /** What is appended after the CD-ROM drives: the system mount, the
      `c:`/`cd` block and the program's sections. */
  function TailText(d: Disk, l: Layout, program: ProgramConfig): Emitted {
    var rest := ProgramText(d, l, program);
    Emitted(SystemDirective(SystemDrive(PathJoin(l.progFolder, "c"), 900)) + rest.text, rest.outcome)
  }

  /** Everything appended after the template copy, in order, and how the
      appending ends. */
  function Written(d: Disk, l: Layout, user: UserConfig, program: ProgramConfig): Emitted {
    var mounts := MountsText(d, l);
    var mounted := HeadText(l, user) + mounts.text;
    if mounts.outcome.Fail? then Emitted(mounted, mounts.outcome)
    else
      var tail := TailText(d, l, program);
      Emitted(mounted + tail.text, tail.outcome)
  }

  /** A whole run of `main(args)`: the disk it leaves and the command line
      it launches, or the error it throws. */
  function Ran(d: Disk, args: seq<string>, root: Path, platform: string, user: UserConfig, program: ProgramConfig)
    : (Disk, Result<string>)
    requires d.Valid()
  {
    if |args| < 1 then (d, Err(DBWError("No name provided")))
    else
      var l := LayoutOf(root, user, program, args[0]);
      var checked := Checks(d, l);
      if checked.Fail? then (d, Err(checked.error))
      else
        var (d1, o) := Prepared(d, l.configRoot, l.captures, l.commonConfig, l.configFile);
        if o.Fail? then (d1, Err(o.error))
        else
          var w := Written(d1, l, user, program);
          var d2 := Appended(d1, l.configFile, w.text);
          if w.outcome.Fail? then (d2, Err(w.outcome.error))
          else (d2, Launch(d2, l.configFile, platform))
  }

  /** Without a program name `main` throws before touching the disk. */
  lemma NoNameNoRun(d: Disk, args: seq<string>, root: Path, platform: string, user: UserConfig, program: ProgramConfig)
    requires d.Valid() && |args| < 1
    ensures Ran(d, args, root, platform, user, program) == (d, Err(DBWError("No name provided")))
  {
  }

  /** A missing bin root, program folder or system folder throws before any
      folder is created or the template is copied: the disk is left as it
      was. */
  lemma FailedChecksWriteNothing(d: Disk, args: seq<string>, root: Path, platform: string, user: UserConfig,
                                 program: ProgramConfig)
    requires d.Valid() && |args| >= 1
    ensures var l := LayoutOf(root, user, program, args[0]);
            Checks(d, l).Fail? ==> Ran(d, args, root, platform, user, program) == (d, Err(Checks(d, l).error))
  {
  }

  /** Once the checks have passed and the template is copied, the system
      folder is still there when `main` looks at it again: the `c:`/`cd`
      block is always written. */
  lemma CdBlockAlwaysWritten(d: Disk, l: Layout, program: ProgramConfig)
    requires d.Valid() && Checks(d, l).Pass?
    requires Prepared(d, l.configRoot, l.captures, l.commonConfig, l.configFile).1.Pass?
    ensures CdText(Prepared(d, l.configRoot, l.captures, l.commonConfig, l.configFile).0, l, program)
            == Ok(LineTrimmed(CdBlock(program, l)))
  {
    PreparedKeepsDirectories(d, l.configRoot, l.captures, l.commonConfig, l.configFile, l.programBinFolder);
  }

  /** Once the template is copied and the mounts went through, the output
      file holds the template followed by, in this order: the user's
      sections, the `[dosbox]` block, the floppy mount, the CD-ROM mounts d
      to p, the system mount, the `c:`/`cd` block and the program's
      sections. What the output file held before the run plays no part. */
  lemma RunWritesInOrder(d: Disk, args: seq<string>, root: Path, platform: string, user: UserConfig,
                         program: ProgramConfig)
    requires d.Valid() && |args| >= 1
    ensures var l := LayoutOf(root, user, program, args[0]);
            var d1 := Prepared(d, l.configRoot, l.captures, l.commonConfig, l.configFile).0;
            var ran := Ran(d, args, root, platform, user, program);
            Checks(d, l).Pass? && Prepared(d, l.configRoot, l.captures, l.commonConfig, l.configFile).1.Pass?
            && FloppyText(d1, l).Ok? && DrivesOutput(d1, CdDrives(l.progFolder), l.folderName).outcome.Pass? ==>
              l.configFile in ran.0.contents
              && ran.0.contents[l.configFile]
                 == d.contents[l.commonConfig]
                    + SectionsText(user.dosboxConf, 8, user.filePath, [])
                    + LineTrimmed(DosboxBlock(4, l.captures))
                    + FloppyText(d1, l).value
                    + DrivesOutput(d1, CdDrives(l.progFolder), l.folderName).text
                    + SystemDirective(SystemDrive(PathJoin(l.progFolder, "c"), 900))
                    + LineTrimmed(CdBlock(program, l))
                    + SectionsText(program.dosboxConf, 8, program.filePath, Placeholders(l))
  {
    var l := LayoutOf(root, user, program, args[0]);
    if Checks(d, l).Pass? && Prepared(d, l.configRoot, l.captures, l.commonConfig, l.configFile).1.Pass? {
      var d1 := Prepared(d, l.configRoot, l.captures, l.commonConfig, l.configFile).0;
      if FloppyText(d1, l).Ok? && DrivesOutput(d1, CdDrives(l.progFolder), l.folderName).outcome.Pass? {
        CdBlockAlwaysWritten(d, l, program);
        Reassociated(d.contents[l.commonConfig], SectionsText(user.dosboxConf, 8, user.filePath, []),
                     LineTrimmed(DosboxBlock(4, l.captures)), FloppyText(d1, l).value,
                     DrivesOutput(d1, CdDrives(l.progFolder), l.folderName).text,
                     SystemDirective(SystemDrive(PathJoin(l.progFolder, "c"), 900)), LineTrimmed(CdBlock(program, l)),
                     SectionsText(program.dosboxConf, 8, program.filePath, Placeholders(l)));
      }
    }
  }

  /** Regroups the appended parts; a separate lemma keeps the large terms
      out of the solver's way. */
  lemma Reassociated(t: string, a: string, b: string, c: string, e: string, f: string, g: string, h: string)
    ensures t + ((a + b) + (c + e) + (f + (g + h))) == t + a + b + c + e + f + g + h
  {
  }

  /** A run that wrote its whole configuration file never reports the file
      missing: it launches the emulator for the platform on that file, or
      fails on an unknown platform. */
  lemma LaunchesAfterWriting(d: Disk, args: seq<string>, root: Path, platform: string, user: UserConfig,
                             program: ProgramConfig)
    requires d.Valid() && |args| >= 1
    ensures var l := LayoutOf(root, user, program, args[0]);
            var prepared := Prepared(d, l.configRoot, l.captures, l.commonConfig, l.configFile);
            var ran := Ran(d, args, root, platform, user, program);
            Checks(d, l).Pass? && prepared.1.Pass? && Written(prepared.0, l, user, program).outcome.Pass? ==>
              ran.1 == if DosboxCall(platform).Ok?
                       then Ok(DosboxCall(platform).value + " -conf \"" + l.configFile + "\" -exit")
                       else Err(DosboxCall(platform).error)
  {
    var l := LayoutOf(root, user, program, args[0]);
    if Checks(d, l).Pass? && Prepared(d, l.configRoot, l.captures, l.commonConfig, l.configFile).1.Pass? {
      var d1 := Prepared(d, l.configRoot, l.captures, l.commonConfig, l.configFile).0;
      var w := Written(d1, l, user, program);
      assert Appended(d1, l.configFile, w.text).IsFile(l.configFile);
    }
  }

  /** What is appended for the mounts depends only on the shape of the
      disk. */
  lemma MountsIgnoreContents(d: Disk, e: Disk, l: Layout)
    requires d.SameShape(e)
    ensures MountsText(d, l) == MountsText(e, l)
  {
    ExistsIgnoresContents(d, e, PathJoin(l.progFolder, "a"));
    DrivesOutputIgnoresContents(d, e, CdDrives(l.progFolder), l.folderName);
  }

  /** What is appended after the drives depends only on the shape of the
      disk. */
  lemma TailIgnoresContents(d: Disk, e: Disk, l: Layout, program: ProgramConfig)
    requires d.SameShape(e)
    ensures TailText(d, l, program) == TailText(e, l, program)
  {
    ExistsIgnoresContents(d, e, l.programBinFolder);
  }

  /** The appends of `main` before the floppy drive. */
  method AppendHead(fs: FileSystem, l: Layout, user: UserConfig)
    requires fs.Valid() && fs.Snapshot().IsFile(l.configFile)
    modifies fs
    ensures fs.Valid()
    ensures fs.Snapshot() == Appended(old(fs.Snapshot()), l.configFile, HeadText(l, user))
  {
    ghost var d1 := fs.Snapshot();
    AppendSections(fs, l.configFile, user.dosboxConf, 8, user.filePath, []);
    var written := AppendFile(fs, l.configFile, DosboxBlock(4, l.captures));
    AppendedTwice(d1, l.configFile, SectionsText(user.dosboxConf, 8, user.filePath, []),
                  LineTrimmed(DosboxBlock(4, l.captures)));
  }

  /** Floppy `a`, then the CD-ROM drives d to p. */
  method AppendMounts(fs: FileSystem, l: Layout) returns (r: Outcome)
    requires fs.Valid() && fs.Snapshot().IsFile(l.configFile)
    modifies fs
    ensures fs.Valid()
    ensures fs.Snapshot() == Appended(old(fs.Snapshot()), l.configFile, MountsText(old(fs.Snapshot()), l).text)
    ensures r == MountsText(old(fs.Snapshot()), l).outcome
  {
    ghost var d1 := fs.Snapshot();
    AppendedNothing(d1, l.configFile);
    r := MountFloppy(fs, Drive("a", PathJoin(l.progFolder, "a"), None, None, None), l.configFile);
    if r.Fail? {
      return;
    }
    ghost var floppy := FloppyText(d1, l).value;
    var drives := CdDrives(l.progFolder);
    DrivesOutputIgnoresContents(fs.Snapshot(), d1, drives, l.folderName);
    r := MountDrives(fs, drives, l.folderName, l.configFile);
    AppendedTwice(d1, l.configFile, floppy, DrivesOutput(d1, drives, l.folderName).text);
  }

  /** The `c:`/`cd` step of `main`: when the system folder exists, change
      to it, run the pre-command if any, and start the program. */
  method AppendCd(fs: FileSystem, l: Layout, program: ProgramConfig, cmdToLaunch: Option<string>) returns (r: Outcome)
    requires fs.Valid() && fs.Snapshot().IsFile(l.configFile)
    requires cmdToLaunch == if program.exeToLaunch.None? then Some(RunCommandLine(None, l.folderName)) else None
    modifies fs
    ensures fs.Valid()
    ensures CdText(old(fs.Snapshot()), l, program).Err? ==>
              r == Fail(CdText(old(fs.Snapshot()), l, program).error) && fs.Snapshot() == old(fs.Snapshot())
    ensures CdText(old(fs.Snapshot()), l, program).Ok? ==>
              r == Pass
              && fs.Snapshot() == Appended(old(fs.Snapshot()), l.configFile, CdText(old(fs.Snapshot()), l, program).value)
  {
    AppendedNothing(fs.Snapshot(), l.configFile);
    r := Pass;
    var binExists := DirectoryExists(fs.Snapshot(), l.programBinFolder);
    if binExists.Err? {
      return Fail(binExists.error);
    }
    if binExists.value {
      var runCommand := "";
      if program.exeToLaunch.Some? {
        runCommand := program.exeToLaunch.value;
      } else if cmdToLaunch.Some? {
        runCommand := cmdToLaunch.value;
      }
      var programBinFolderNameWithBackslashes := ReplaceAll(l.folderName, "/", "\\");
      assert programBinFolderNameWithBackslashes == CdTarget(l.folderName);
      var written := AppendFile(fs, l.configFile,
        Block(Spaces(6), ["c:", "cd " + programBinFolderNameWithBackslashes, program.exePreCommand.GetOr(""), runCommand],
              Spaces(4)));
    }
  }

  /** The appends of `main` after the system mount. */
  method AppendProgram(fs: FileSystem, l: Layout, program: ProgramConfig, cmdToLaunch: Option<string>)
    returns (r: Outcome)
    requires fs.Valid() && fs.Snapshot().IsFile(l.configFile)
    requires cmdToLaunch == if program.exeToLaunch.None? then Some(RunCommandLine(None, l.folderName)) else None
    modifies fs
    ensures fs.Valid()
    ensures fs.Snapshot() == Appended(old(fs.Snapshot()), l.configFile, ProgramText(old(fs.Snapshot()), l, program).text)
    ensures r == ProgramText(old(fs.Snapshot()), l, program).outcome
  {
    ghost var d1 := fs.Snapshot();
    r := AppendCd(fs, l, program, cmdToLaunch);
    if r.Fail? {
      AppendedNothing(d1, l.configFile);
      return;
    }
    AppendSections(fs, l.configFile, program.dosboxConf, 8, program.filePath, Placeholders(l));
    AppendedTwice(d1, l.configFile, CdText(d1, l, program).value,
                  SectionsText(program.dosboxConf, 8, program.filePath, Placeholders(l)));
  }

  /** The appends of `main` after the CD-ROM drives; `cmdToLaunch` is the
      conditional start command `main` chose when no executable is
      configured. */
  method AppendTail(fs: FileSystem, l: Layout, program: ProgramConfig, cmdToLaunch: Option<string>) returns (r: Outcome)
    requires fs.Valid() && fs.Snapshot().IsFile(l.configFile)
    requires cmdToLaunch == if program.exeToLaunch.None? then Some(RunCommandLine(None, l.folderName)) else None
    modifies fs
    ensures fs.Valid()
    ensures fs.Snapshot() == Appended(old(fs.Snapshot()), l.configFile, TailText(old(fs.Snapshot()), l, program).text)
    ensures r == TailText(old(fs.Snapshot()), l, program).outcome
  {
    ghost var d1 := fs.Snapshot();
    MountSystem(fs, SystemDrive(PathJoin(l.progFolder, "c"), 900), l.configFile);
    ExistsIgnoresContents(fs.Snapshot(), d1, l.programBinFolder);
    assert ProgramText(fs.Snapshot(), l, program) == ProgramText(d1, l, program);
    r := AppendProgram(fs, l, program, cmdToLaunch);
    AppendedTwice(d1, l.configFile, SystemDirective(SystemDrive(PathJoin(l.progFolder, "c"), 900)),
                  ProgramText(d1, l, program).text);
  }

  /** The appends of `main` after the template copy, in the order of the
      source. */
  method WriteConfig(fs: FileSystem, l: Layout, user: UserConfig, program: ProgramConfig, cmdToLaunch: Option<string>)
    returns (r: Outcome)
    requires fs.Valid() && fs.Snapshot().IsFile(l.configFile)
    requires cmdToLaunch == if program.exeToLaunch.None? then Some(RunCommandLine(None, l.folderName)) else None
    modifies fs
    ensures fs.Valid()
    ensures fs.Snapshot() == Appended(old(fs.Snapshot()), l.configFile, Written(old(fs.Snapshot()), l, user, program).text)
    ensures r == Written(old(fs.Snapshot()), l, user, program).outcome
  {
    ghost var d1 := fs.Snapshot();
    AppendHead(fs, l, user);
    MountsIgnoreContents(fs.Snapshot(), d1, l);
    r := AppendMounts(fs, l);
    AppendedTwice(d1, l.configFile, HeadText(l, user), MountsText(d1, l).text);
    if r.Fail? {
      return;
    }
    ghost var text := HeadText(l, user) + MountsText(d1, l).text;
    TailIgnoresContents(fs.Snapshot(), d1, l, program);
    r := AppendTail(fs, l, program, cmdToLaunch);
    AppendedTwice(d1, l.configFile, text, TailText(d1, l, program).text);
  }

  /** `main(args)`: the checks, the folders, the template copy, the appends
      and the launch, in the order of the source. */
  method RunMain(fs: FileSystem, args: seq<string>, root: Path, platform: string, user: UserConfig,
                 program: ProgramConfig) returns (r: Result<string>)
    requires fs.Valid()
    modifies fs
    ensures fs.Valid()
    ensures (fs.Snapshot(), r) == Ran(old(fs.Snapshot()), args, root, platform, user, program)
  {
    if |args| < 1 {
      return Err(DBWError("No name provided"));
    }
    var binRoot := user.binPath.GetOr(PathJoin(root, "bin"));
    var dosboxGeneratedConfigRoot := PathJoin(PathJoin(root, "data"), "config");
    var commonConfigPath := PathJoin(PathJoin(root, "data"), "common.conf");

    var binExists := DirectoryExists(fs.Snapshot(), binRoot);
    if binExists.Err? {
      return Err(binExists.error);
    }
    if !binExists.value {
      return Err(DBWError("No folder at '" + binRoot + "'"));
    }

    var progName := args[0];
    var progFolder := PathJoin(binRoot, progName);
    var programBinFolderName := program.cFolderPath.GetOr(progName);
    var programBinFolder := PathJoin(PathJoin(progFolder, "c"), program.cFolderPath.GetOr(programBinFolderName));
    var dosboxConfigFile := PathJoin(dosboxGeneratedConfigRoot, progName + ".conf");
    var capturesFolder := PathJoin(progFolder, "captures");
    var l := Layout(binRoot, progFolder, programBinFolderName, programBinFolder,
                    dosboxGeneratedConfigRoot, commonConfigPath, dosboxConfigFile, capturesFolder);
    assert l == LayoutOf(root, user, program, progName);
    var exeToLaunch := program.exeToLaunch;
    var cmdToLaunch: Option<string> := None;

    var progExists := DirectoryExists(fs.Snapshot(), progFolder);
    if progExists.Err? {
      return Err(progExists.error);
    }
    if !progExists.value {
      return Err(DBWError("No folder at '" + progFolder + "'"));
    }
    var binFolderExists := DirectoryExists(fs.Snapshot(), programBinFolder);
    if binFolderExists.Err? {
      return Err(binFolderExists.error);
    }
    if !binFolderExists.value {
      return Err(DBWError("No bin folder at '" + programBinFolder + "'"));
    }
    if exeToLaunch.None? {
      cmdToLaunch := Some("if exist " + programBinFolderName + ".exe " + programBinFolderName + ".exe");
    }

    var o := fs.MakeDirectory(dosboxGeneratedConfigRoot);
    if o.Fail? {
      return Err(o.error);
    }
    o := fs.MakeDirectory(capturesFolder);
    if o.Fail? {
      return Err(o.error);
    }
    o := fs.CopyFile(commonConfigPath, dosboxConfigFile);
    if o.Fail? {
      return Err(o.error);
    }

    ghost var d1 := fs.Snapshot();
    o := WriteConfig(fs, l, user, program, cmdToLaunch);
    if o.Fail? {
      return Err(o.error);
    }
    ExistsIgnoresContents(fs.Snapshot(), d1, dosboxConfigFile);
    r := Launch(fs.Snapshot(), dosboxConfigFile, platform);
  }

  /** `wrapper`: runs `main` and catches whatever it throws; the error is
      reported, not passed on, and what `main` wrote before throwing stays
      on disk. */
  method Wrapper(fs: FileSystem, args: seq<string>, root: Path, platform: string, user: UserConfig,
                 program: ProgramConfig) returns (caught: Option<Error>)
    requires fs.Valid()
    modifies fs
    ensures fs.Valid()
    ensures var ran := Ran(old(fs.Snapshot()), args, root, platform, user, program);
            fs.Snapshot() == ran.0 && caught == if ran.1.Err? then Some(ran.1.error) else None
  {
    var r := RunMain(fs, args, root, platform, user, program);
    caught := if r.Err? then Some(r.error) else None;
  }
}
