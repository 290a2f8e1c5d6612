/** `src/dosbox.ts`: the mount directives appended to the emulator's
    configuration file, and the command that launches the emulator. */
module Dosbox {
  import opened Outcomes
  import opened JsStrings
  import opened NodeFs
  import opened Utils

  datatype SystemDrive = SystemDrive(folderPath: Path, freeSize: nat)

  /** A drive letter with its folder and optional disk images. */
  datatype Drive = Drive(letter: string, folderPath: Path, isoPath: Option<Path>, cuePath: Option<Path>, binPath: Option<Path>)

  /** The value of a string of decimal digits. */
  function DigitsValue(s: string): nat
    requires forall i :: 0 <= i < |s| ==> '0' <= s[i] <= '9'
  {
    if |s| == 0 then 0 else DigitsValue(s[..|s| - 1]) * 10 + (s[|s| - 1] as int - '0' as int)
  }

  /** `${n}` for a non-negative integral number. */
  function Decimal(n: nat): (r: string)
    ensures |r| >= 1 && forall i :: 0 <= i < |r| ==> '0' <= r[i] <= '9'
  {
    var last := ('0' as int + n % 10) as char;
    if n < 10 then [last] else Decimal(n / 10) + [last]
  }

  /** Reading the digits back gives the number. */
  lemma {:induction false} DecimalValue(n: nat)
    ensures DigitsValue(Decimal(n)) == n
  {
    var r := Decimal(n);
    assert r[..|r| - 1] == if n < 10 then [] else Decimal(n / 10);
    if n >= 10 {
      DecimalValue(n / 10);
    }
  }

  // ---------------------------------------------------------------------
  // System drive c:

  /** The directive `mountSystem` writes for the system drive. */
  function SystemLine(drive: SystemDrive): string {
    "mount c \"" + drive.folderPath + "\" -freesize " + Decimal(drive.freeSize)
  }

  /** The template literal of `mountSystem`. */
  function SystemRaw(drive: SystemDrive): string {
    Block(Spaces(6), [SystemLine(drive)], Spaces(4))
  }

  function SystemDirective(drive: SystemDrive): string {
    LineTrimmed(SystemRaw(drive))
  }

  /** `mountSystem`: appends the `mount c` directive, whatever exists on disk. */
  method MountSystem(fs: FileSystem, drive: SystemDrive, configFilePath: Path)
    requires fs.Valid() && fs.Snapshot().IsFile(configFilePath)
    modifies fs
    ensures fs.Valid()
    ensures fs.Snapshot() == Appended(old(fs.Snapshot()), configFilePath, SystemDirective(drive))
  {
    var written := AppendFile(fs, configFilePath, SystemRaw(drive));
  }

  /** The `mount c` line has no EOL and no whitespace at either end when
      the folder path has no EOL. */
  lemma SystemLineClean(drive: SystemDrive)
    requires '\n' !in drive.folderPath
    ensures LineTrimmed(SystemLine(drive)) == SystemLine(drive)
  {
    var line := SystemLine(drive);
    var digits := Decimal(drive.freeSize);
    assert line[|line| - 1] == digits[|digits| - 1];
    LineTrimmedUnchanged(line);
  }

  /** For a folder path without EOL, the system directive is written as the
      line `mount c "<folder>" -freesize <n>` between two EOLs, with the
      template's indentation gone. */
  lemma SystemDirectiveText(drive: SystemDrive)
    requires '\n' !in drive.folderPath
    ensures SystemDirective(drive) == Lines([SystemLine(drive)])
  {
    SystemLineClean(drive);
    OneLineBlockWritten(Spaces(6), SystemLine(drive), Spaces(4));
  }

  // ---------------------------------------------------------------------
  // Floppy drive a:

  function FloppyRaw(drive: Drive): string {
    "mount a \"" + drive.folderPath + "\" -t floppy -freesize 1440"
  }

  /** `mountFloppy`: appends `mount a "<folder>" -t floppy -freesize 1440`
      when the folder is a directory and nothing otherwise; the letter is `a`
      whatever `drive.letter` says. A stat failure other than ENOENT is
      passed on. */
  method MountFloppy(fs: FileSystem, drive: Drive, configFilePath: Path) returns (r: Outcome)
    requires fs.Valid() && fs.Snapshot().IsFile(configFilePath)
    modifies fs
    ensures fs.Valid()
    ensures DirectoryExists(old(fs.Snapshot()), drive.folderPath) == Ok(true) ==>
              r == Pass && fs.Snapshot() == Appended(old(fs.Snapshot()), configFilePath, LineTrimmed(FloppyRaw(drive)))
    ensures DirectoryExists(old(fs.Snapshot()), drive.folderPath) == Ok(false) ==>
              r == Pass && fs.Snapshot() == old(fs.Snapshot())
    ensures DirectoryExists(old(fs.Snapshot()), drive.folderPath).Err? ==>
              r == Fail(DirectoryExists(old(fs.Snapshot()), drive.folderPath).error) && fs.Snapshot() == old(fs.Snapshot())
  {
    var isDir := DirectoryExists(fs.Snapshot(), drive.folderPath);
    if isDir.Err? {
      return Fail(isDir.error);
    }
    if isDir.value {
      var written := AppendFile(fs, configFilePath, FloppyRaw(drive));
    }
    r := Pass;
  }

  /** For a folder path without EOL the floppy directive holds no EOL and is
      written as is. */
  lemma FloppyDirectiveText(drive: Drive)
    requires '\n' !in drive.folderPath
    ensures '\n' !in FloppyRaw(drive) && LineTrimmed(FloppyRaw(drive)) == FloppyRaw(drive)
  {
    var x := FloppyRaw(drive);
    assert x[0] == 'm' && x[|x| - 1] == '0';
    LineTrimmedUnchanged(x);
  }

  // ---------------------------------------------------------------------
  // CD-ROM drives

  /** What a CD-ROM letter can be mounted from. */
  datatype Source = FolderSource(path: Path) | ImageSource(path: Path)

  /** Whether a candidate exists: a directory for a folder, a regular file
      for an image. */
  function Present(d: Disk, s: Source): Result<bool> {
    match s
    case FolderSource(p) => DirectoryExists(d, p)
    case ImageSource(p) => FileExists(d, p)
  }

  function ImageCandidates(images: seq<Option<Path>>): (cs: seq<Source>)
    ensures |cs| <= |images|
  {
    if |images| == 0 then []
    else (if images[0].Some? then [ImageSource(images[0].value)] else []) + ImageCandidates(images[1..])
  }

  /** The candidates of a drive in preference order: folder, ISO, CUE, BIN,
      leaving out the images that are undefined. */
  function Candidates(drive: Drive): (cs: seq<Source>)
    ensures 1 <= |cs| <= 4 && cs[0] == FolderSource(drive.folderPath)
  {
    [FolderSource(drive.folderPath)] + ImageCandidates([drive.isoPath, drive.cuePath, drive.binPath])
  }

  /** Reference definition of first-match selection: the index of the first
      candidate that exists, every earlier one being absent; a stat failure
      met before any match ends the search with that failure. */
  function FirstPresent(d: Disk, cs: seq<Source>): (r: Result<Option<nat>>)
    ensures r.Ok? && r.value.Some? ==>
              r.value.value < |cs| && Present(d, cs[r.value.value]) == Ok(true)
              && forall j :: 0 <= j < r.value.value ==> Present(d, cs[j]) == Ok(false)
    ensures r.Ok? && r.value.None? ==> forall j :: 0 <= j < |cs| ==> Present(d, cs[j]) == Ok(false)
    ensures r.Err? ==> exists j :: 0 <= j < |cs| && Present(d, cs[j]) == Err(r.error)
                                   && forall k :: 0 <= k < j ==> Present(d, cs[k]) == Ok(false)
  {
    if |cs| == 0 then Ok(None)
    else match Present(d, cs[0])
      case Err(e) => Err(e)
      case Ok(found) =>
        if found then Ok(Some(0))
        else
          var rest := FirstPresent(d, cs[1..]);
          match rest
          case Err(e) =>
            assert forall k :: 1 <= k < |cs| ==> cs[k] == cs[1..][k - 1];
            Err(e)
          case Ok(None) => Ok(None)
          case Ok(Some(i)) => Ok(Some(i + 1))
  }

  /** `path !== undefined && await fileExists(path)`. */
  function ImageExists(d: Disk, path: Option<Path>): Result<bool> {
    if path.None? then Ok(false) else FileExists(d, path.value)
  }

  /** The if/else-if chain of `mountDrives` for one drive: the source it
      mounts, if any. */
  function Choice(d: Disk, drive: Drive): Result<Option<Source>> {
    match DirectoryExists(d, drive.folderPath)
    case Err(e) => Err(e)
    case Ok(true) => Ok(Some(FolderSource(drive.folderPath)))
    case Ok(false) => ImageChoice(d, drive)
  }

  /** The branches of the chain after the folder: ISO, then CUE, then BIN. */
  function ImageChoice(d: Disk, drive: Drive): Result<Option<Source>> {
    match ImageExists(d, drive.isoPath)
    case Err(e) => Err(e)
    case Ok(true) => Ok(Some(ImageSource(drive.isoPath.value)))
    case Ok(false) =>
      match ImageExists(d, drive.cuePath)
      case Err(e) => Err(e)
      case Ok(true) => Ok(Some(ImageSource(drive.cuePath.value)))
      case Ok(false) =>
        match ImageExists(d, drive.binPath)
        case Err(e) => Err(e)
        case Ok(true) => Ok(Some(ImageSource(drive.binPath.value)))
        case Ok(false) => Ok(None)
  }

  function Resolve(cs: seq<Source>, r: Result<Option<nat>>): Result<Option<Source>> {
    match r
    case Err(e) => Err(e)
    case Ok(None) => Ok(None)
    case Ok(Some(i)) => if i < |cs| then Ok(Some(cs[i])) else Ok(None)
  }

  /** What the chain chooses depends only on the shape of the disk, not on
      what the files hold. */
  lemma ChoiceIgnoresContents(d: Disk, e: Disk, drive: Drive)
    requires d.SameShape(e)
    ensures Choice(d, drive) == Choice(e, drive)
  {
    ExistsIgnoresContents(d, e, drive.folderPath);
    if drive.isoPath.Some? { ExistsIgnoresContents(d, e, drive.isoPath.value); }
    if drive.cuePath.Some? { ExistsIgnoresContents(d, e, drive.cuePath.value); }
    if drive.binPath.Some? { ExistsIgnoresContents(d, e, drive.binPath.value); }
  }

  /** Putting an optional image in front of the remaining candidates. */
  lemma FirstPresentImage(d: Disk, image: Option<Path>, rest: seq<Source>)
    ensures var cs := (if image.Some? then [ImageSource(image.value)] else []) + rest;
            && (ImageExists(d, image).Err? ==> Resolve(cs, FirstPresent(d, cs)) == Err(ImageExists(d, image).error))
            && (ImageExists(d, image) == Ok(true) ==> Resolve(cs, FirstPresent(d, cs)) == Ok(Some(ImageSource(image.value))))
            && (ImageExists(d, image) == Ok(false) ==> Resolve(cs, FirstPresent(d, cs)) == Resolve(rest, FirstPresent(d, rest)))
  {
    if image.Some? {
      var cs := [ImageSource(image.value)] + rest;
      assert cs[1..] == rest;
    } else {
      assert [] + rest == rest;
    }
  }

  lemma ImageChoiceIsFirstPresent(d: Disk, drive: Drive)
    ensures var iso := ImageCandidates([drive.isoPath, drive.cuePath, drive.binPath]);
            ImageChoice(d, drive) == Resolve(iso, FirstPresent(d, iso))
  {
    var images := [drive.isoPath, drive.cuePath, drive.binPath];
    var bin := ImageCandidates([drive.binPath]);
    var cue := ImageCandidates([drive.cuePath, drive.binPath]);
    assert [drive.binPath][1..] == [] && ImageCandidates([]) == [];
    assert [drive.cuePath, drive.binPath][1..] == [drive.binPath];
    assert images[1..] == [drive.cuePath, drive.binPath];
    assert bin == (if drive.binPath.Some? then [ImageSource(drive.binPath.value)] else []) + [];
    FirstPresentImage(d, drive.binPath, []);
    FirstPresentImage(d, drive.cuePath, bin);
    FirstPresentImage(d, drive.isoPath, cue);
  }

  /** The chain in the source picks exactly the first existing candidate. */
  lemma ChoiceIsFirstPresent(d: Disk, drive: Drive)
    ensures Choice(d, drive) == Resolve(Candidates(drive), FirstPresent(d, Candidates(drive)))
  {
    var iso := ImageCandidates([drive.isoPath, drive.cuePath, drive.binPath]);
    ImageChoiceIsFirstPresent(d, drive);
    var cs := Candidates(drive);
    assert cs[1..] == iso;
  }

  /** The directive a drive gets for the source chosen: folders get a label
      `<progName>_<letter>`, images none. */
  function SourceRaw(drive: Drive, s: Source, progName: string): string {
    match s
    case FolderSource(p) => "mount " + drive.letter + " \"" + p + "\" -t cdrom -label " + progName + "_" + drive.letter
    case ImageSource(p) => "imgmount " + drive.letter + " \"" + p + "\" -t cdrom"
  }

  /** The directive written for the source the chain chose, if any. */
  function DriveDirective(chosen: Option<Source>, drive: Drive, progName: string): string {
    if chosen.None? then "" else LineTrimmed(SourceRaw(drive, chosen.value, progName))
  }

  /** What `mountDrives` writes for the drives in order, and how it ends: at
      most one directive per drive, nothing for a drive without any existing
      candidate, and no drive handled after a stat failure. */
  function DrivesOutput(d: Disk, drives: seq<Drive>, progName: string): Emitted
    decreases |drives|
  {
    if |drives| == 0 then Emitted("", Pass)
    else
      var prev := DrivesOutput(d, drives[..|drives| - 1], progName);
      var drive := drives[|drives| - 1];
      var choice := Choice(d, drive);
      if prev.outcome.Fail? then prev
      else if choice.Err? then Emitted(prev.text, Fail(choice.error))
      else Emitted(prev.text + DriveDirective(choice.value, drive, progName), Pass)
  }

  /** What `mountDrives` writes depends only on the shape of the disk. */
  lemma {:induction false} DrivesOutputIgnoresContents(d: Disk, e: Disk, drives: seq<Drive>, progName: string)
    requires d.SameShape(e)
    ensures DrivesOutput(d, drives, progName) == DrivesOutput(e, drives, progName)
    decreases |drives|
  {
    if |drives| > 0 {
      DrivesOutputIgnoresContents(d, e, drives[..|drives| - 1], progName);
      ChoiceIgnoresContents(d, e, drives[|drives| - 1]);
    }
  }

  /** Once a drive's stat fails, the drives after it are not looked at:
      the output of the whole list is the output up to the failure. */
  lemma {:induction false} MountStopsOnFailure(d: Disk, drives: seq<Drive>, k: nat, progName: string)
    requires k <= |drives| && DrivesOutput(d, drives[..k], progName).outcome.Fail?
    ensures DrivesOutput(d, drives, progName) == DrivesOutput(d, drives[..k], progName)
    decreases |drives| - k
  {
    if k < |drives| {
      assert drives[..|drives| - 1][..k] == drives[..k];
      MountStopsOnFailure(d, drives[..|drives| - 1], k, progName);
    } else {
      assert drives[..k] == drives;
    }
  }

  /** No EOL in the drive's letter or in any of its paths. */
  predicate EolFree(drive: Drive) {
    '\n' !in drive.letter && '\n' !in drive.folderPath
    && (drive.isoPath.Some? ==> '\n' !in drive.isoPath.value)
    && (drive.cuePath.Some? ==> '\n' !in drive.cuePath.value)
    && (drive.binPath.Some? ==> '\n' !in drive.binPath.value)
  }

  /** The chain only ever mounts the drive's folder or one of its images. */
  lemma ChoiceFromDrive(d: Disk, drive: Drive)
    ensures var c := Choice(d, drive);
            c.Ok? && c.value.Some? ==>
              c.value.value == FolderSource(drive.folderPath)
              || (drive.isoPath.Some? && c.value.value == ImageSource(drive.isoPath.value))
              || (drive.cuePath.Some? && c.value.value == ImageSource(drive.cuePath.value))
              || (drive.binPath.Some? && c.value.value == ImageSource(drive.binPath.value))
  {
  }

  /** A directive built from EOL-free parts is written without an EOL. */
  lemma DirectiveOnOneLine(drive: Drive, s: Source, progName: string)
    requires '\n' !in drive.letter && '\n' !in s.path && '\n' !in progName
    ensures '\n' !in LineTrimmed(SourceRaw(drive, s, progName))
  {
    var raw := SourceRaw(drive, s, progName);
    assert '\n' !in raw;
    LineTrimmedSingleLine(raw);
    TrimKeepsOut(raw, '\n');
  }

  /** `appendFile` adds no line break of its own, so all the CD-ROM
      directives of one `mountDrives` call end up glued on a single line:
      the text written holds no EOL at all. */
  lemma {:induction false} DrivesOutputOnOneLine(d: Disk, drives: seq<Drive>, progName: string)
    requires '\n' !in progName
    requires forall i :: 0 <= i < |drives| ==> EolFree(drives[i])
    ensures '\n' !in DrivesOutput(d, drives, progName).text
    decreases |drives|
  {
    if |drives| > 0 {
      DrivesOutputOnOneLine(d, drives[..|drives| - 1], progName);
      var drive := drives[|drives| - 1];
      var choice := Choice(d, drive);
      if choice.Ok? && choice.value.Some? {
        ChoiceFromDrive(d, drive);
        DirectiveOnOneLine(drive, choice.value.value, progName);
      }
    }
  }

  /** The body of the loop of `mountDrives` for one drive: the if/else-if
      chain folder, ISO, CUE, BIN, appending the directive of the first
      candidate that exists. */
  method MountDrive(fs: FileSystem, drive: Drive, progName: string, configFilePath: Path) returns (r: Outcome)
    requires fs.Valid() && fs.Snapshot().IsFile(configFilePath)
    modifies fs
    ensures fs.Valid()
    ensures Choice(old(fs.Snapshot()), drive).Err? ==>
              r == Fail(Choice(old(fs.Snapshot()), drive).error) && fs.Snapshot() == old(fs.Snapshot())
    ensures Choice(old(fs.Snapshot()), drive).Ok? ==>
              r == Pass
              && fs.Snapshot() == Appended(old(fs.Snapshot()), configFilePath,
                                           DriveDirective(Choice(old(fs.Snapshot()), drive).value, drive, progName))
  {
    var d := fs.Snapshot();
    AppendedNothing(d, configFilePath);
    r := Pass;
    var isDir := DirectoryExists(d, drive.folderPath);
    if isDir.Err? {
      r := Fail(isDir.error);
    } else if isDir.value {
      var written := AppendFile(fs, configFilePath, SourceRaw(drive, FolderSource(drive.folderPath), progName));
    } else {
      var isIso := ImageExists(d, drive.isoPath);
      if isIso.Err? {
        r := Fail(isIso.error);
      } else if isIso.value {
        var written := AppendFile(fs, configFilePath, SourceRaw(drive, ImageSource(drive.isoPath.value), progName));
      } else {
        var isCue := ImageExists(d, drive.cuePath);
        if isCue.Err? {
          r := Fail(isCue.error);
        } else if isCue.value {
          var written := AppendFile(fs, configFilePath, SourceRaw(drive, ImageSource(drive.cuePath.value), progName));
        } else {
          var isBin := ImageExists(d, drive.binPath);
          if isBin.Err? {
            r := Fail(isBin.error);
          } else if isBin.value {
            var written := AppendFile(fs, configFilePath, SourceRaw(drive, ImageSource(drive.binPath.value), progName));
          }
        }
      }
    }
  }

  /** `mountDrives`: the drives in list order, each through the if/else-if
      chain. */
  method MountDrives(fs: FileSystem, drives: seq<Drive>, progName: string, configFilePath: Path) returns (r: Outcome)
    requires fs.Valid() && fs.Snapshot().IsFile(configFilePath)
    modifies fs
    ensures fs.Valid()
    ensures fs.Snapshot() == Appended(old(fs.Snapshot()), configFilePath, DrivesOutput(old(fs.Snapshot()), drives, progName).text)
    ensures r == DrivesOutput(old(fs.Snapshot()), drives, progName).outcome
  {
    ghost var d0 := fs.Snapshot();
    AppendedNothing(d0, configFilePath);
    r := Pass;
    for i := 0 to |drives|
      invariant fs.Valid() && fs.Snapshot().IsFile(configFilePath) && fs.Snapshot().SameShape(d0)
      invariant fs.Snapshot() == Appended(d0, configFilePath, DrivesOutput(d0, drives[..i], progName).text)
      invariant DrivesOutput(d0, drives[..i], progName).outcome == Pass && r == Pass
    {
      ghost var d := fs.Snapshot();
      ghost var prev := DrivesOutput(d0, drives[..i], progName).text;
      assert drives[..i + 1][..i] == drives[..i];
      ChoiceIgnoresContents(d, d0, drives[i]);
      r := MountDrive(fs, drives[i], progName, configFilePath);
      if r.Fail? {
        MountStopsOnFailure(d0, drives, i + 1, progName);
        return;
      }
      AppendedTwice(d0, configFilePath, prev, DriveDirective(Choice(d0, drives[i]).value, drives[i], progName));
    }
    assert drives[..|drives|] == drives;
  }

  // ---------------------------------------------------------------------
  // Launching

  const UnixPlatforms: set<string> := {"linux", "aix", "cygwin", "freebsd", "netbsd", "openbsd", "sunos"}

  /** The emulator invocation for `process.platform`. */
  function DosboxCall(platform: string): (r: Result<string>)
    ensures r.Ok? <==> platform == "darwin" || platform in UnixPlatforms
    ensures platform == "darwin" ==> r.value == "open -a DOSBox --args"
    ensures platform in UnixPlatforms ==> r.value == "dosbox"
    ensures r.Err? ==> r.error == DBWError("Unknown platform '" + platform + "'")
  {
    if platform == "darwin" then Ok("open -a DOSBox --args")
    else if platform in UnixPlatforms then Ok("dosbox")
    else Err(DBWError("Unknown platform '" + platform + "'"))
  }

  /** `launch`, up to the subprocess call: the command line it runs. The
      configuration file must be a regular file, which is checked before the
      platform. */
  function Launch(d: Disk, configFilePath: Path, platform: string): (r: Result<string>)
    ensures r.Ok? <==> FileExists(d, configFilePath) == Ok(true) && DosboxCall(platform).Ok?
    ensures FileExists(d, configFilePath) == Ok(false) ==>
              r == Err(DBWError("DOSBox config file '" + configFilePath + "' not found"))
    ensures FileExists(d, configFilePath).Err? ==> r == Err(FileExists(d, configFilePath).error)
    ensures r.Ok? ==> r.value == DosboxCall(platform).value + " -conf \"" + configFilePath + "\" -exit"
  {
    match FileExists(d, configFilePath)
    case Err(e) => Err(e)
    case Ok(false) => Err(DBWError("DOSBox config file '" + configFilePath + "' not found"))
    case Ok(true) =>
      match DosboxCall(platform)
      case Err(e) => Err(e)
      case Ok(call) => Ok(call + " -conf \"" + configFilePath + "\" -exit")
  }
}
