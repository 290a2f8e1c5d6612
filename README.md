# dosbox-wrapper, modelled in Dafny

dosbox-wrapper starts an old DOS program in the DOSBox emulator. It checks
which folders and disk images the program's folder holds and writes a DOSBox
configuration file for the program. That file has:

- a template copy;
- sections from the user's and the program's configuration;
- a `[dosbox]` block;
- `mount`/`imgmount` directives for the floppy, the CD-ROM letters `d` to `p`
  and the system drive `c`;
- the commands that change to the program's folder and start it.

The tool then launches the emulator on that file.

This project models that core:

- `src/dosbox.ts`: the mount directives and the launch command line.
- `src/utils.ts`: the existence queries and `appendFile`, which trims every
  line of what it appends.
- `src/commands/run.ts`: the `run` pipeline.
- `src/main.ts`: the earlier `main` pipeline and its `wrapper`.

The modules are:

- `Outcomes`: results and errors. A thrown exception is an `Err`/`Fail`
  value; `undefined` is `None`.
- `JsStrings`: `String.prototype.split`, `join` and `trim` as JavaScript
  defines them, the split/join replace-all idiom, and template literals.
- `NodeFs`: an abstract file system as a `FileSystem` class, changed in
  place.
  - Every existing path has a kind (regular file, directory, other).
  - Regular files have a content.
  - Some paths make `stat` fail with an errno other than ENOENT.
  - `stat`, `mkdir`, `copyFile` and `appendFile` are modelled, each with a
    pure specification function on a `Disk` snapshot.
- `Utils`: `fileExists`, `directoryExists`, `appendFile`, and what
  `appendFile` writes (`LineTrimmed`).
- `Dosbox`: `mountSystem`, `mountFloppy`, `mountDrives` and `launch`.
- `ConfigSections`: the pieces both pipelines share.
  - The `[key]` sections with placeholder substitution, and the `[dosbox]`
    block.
  - The `cd` target, the run command, the CD-ROM drives `d` to `p`.
  - The folder creation and template copy.
- `RunCommand`: `RunCommand.run`. The `run` method follows the source, and
  each step becomes a helper method (`AppendHead`, `AppendCd`,
  `AppendTail`, `WriteConfig`).
- `LegacyMain`: `main` (as `RunMain`) and `wrapper`.

Each method is proved against a pure function of the disk before the call:

- `Ran` is the whole pipeline: the disk it leaves and the launch command
  or the error thrown.
- `Written`, `TailText` and `DrivesOutput` give the text appended and how
  the appending ends.

The lemmas state the source's promises about those functions:

- the order of the sections;
- the error cases;
- first-match selection of a CD-ROM source;
- that the outcome depends only on the shape of the disk;
- the gluing of directives that `appendFile` puts on one line.

Three facts about the code that are easy to miss:

- Programs live under the `hdd` root (`run`) or the `bin` root (`main`),
  not directly under the tool's root.
- `main` mounts only floppy `a`, from its folder. It has no image fallback
  and no floppy `b`.
- The conditional run line uses the folder name as configured, slashes
  included, not its basename.

## Model

| member | source | states |
|---|---|---|
| Utils.FileExists | src/utils.ts:11-21 | true exactly for an existing regular file whose stat succeeds; a missing path (ENOENT) gives false; any other stat error is rethrown with its code and path |
| Utils.DirectoryExists | src/utils.ts:23-33 | true exactly for an existing directory whose stat succeeds; ENOENT gives false; any other stat error is rethrown |
| Utils.FileAndDirectoryExclusive | src/utils.ts:11-33 | no path is reported both a regular file and a directory |
| Utils.ExistsIgnoresContents | src/utils.ts:11-33 | both queries depend only on the kinds and stat errors of the disk, never on file contents |
| Utils.AppendFile | src/utils.ts:35-38 | the file's new content is its old content followed directly by the line-trimmed text, with no separator; a missing file is created; a directory or unreachable path fails and changes nothing |
| Utils.LineTrimmed | src/utils.ts:36-37 | the text `appendFile` writes: the content split on EOL, each line trimmed, joined with EOL again; `LinesOfLineTrimmed` and the lemmas below state what that text holds |
| Utils.TrimEach | src/utils.ts:37 | `lines.map(l => l.trim())`: same length, each element the trim of the corresponding line |
| Utils.LinesOfLineTrimmed | src/utils.ts:36-37 | the appended text splits on EOL into exactly the trimmed lines of the content: as many lines as the content, none with whitespace at either end |
| Utils.LineTrimmedIdempotent | src/utils.ts:37 | appending already-trimmed content writes the same text as appending the original |
| Utils.LineTrimmedSingleLine | src/utils.ts:36-37 | a content without EOL is written as its `trim()` |
| Utils.LineTrimmedOfLines | src/utils.ts:36-37 | content given as EOL-free lines joined by EOL is written as those lines trimmed and joined |
| Utils.LineTrimmedUnchanged | src/utils.ts:36-37 | an EOL-free text with no whitespace at either end is written unchanged |
| Utils.LineTrimmedConcat | src/utils.ts:36-37 | the parts either side of an EOL are trimmed independently |
| Utils.LineTrimmedIndented | src/utils.ts:37 | indentation in front of a text does not change what is written |
| Utils.EachLineTrimmed | src/utils.ts:37 | each element is what `appendFile` writes for the corresponding line |
| Utils.LineTrimmedJoin | src/utils.ts:36-37 | `appendFile` of joined lines writes each line as `appendFile` would, joined by EOL |
| Utils.LineTrimmedBlank | src/utils.ts:37 | a whitespace-only line is written as nothing |
| Utils.BlockWritten | src/utils.ts:36-37 | a multi-line template literal is written as an EOL, each line trimmed and followed by an EOL: indentation and closing indentation vanish |
| Utils.OneLineBlockWritten | src/utils.ts:36-37 | a one-line template literal whose line is already clean is written as that line between two EOLs |
| Utils.CleanLinesWritten | src/utils.ts:37 | lines without EOL and without surrounding whitespace are written as they are |
| JsStrings.Trim | src/utils.ts:37 | `trim()` leaves no whitespace at either end and never lengthens the text |
| JsStrings.TrimStripsOnlyWhitespace | src/utils.ts:37 | the trimmed text is an infix of the original, whitespace only cut off the ends |
| JsStrings.TrimIdempotent | src/utils.ts:37 | trimming twice is trimming once |
| JsStrings.TrimAroundTrimmed | src/utils.ts:37 | trimming whitespace around a trimmed core gives the core |
| JsStrings.TrimKeepsOut | src/utils.ts:37 | `trim()` never introduces a character |
| JsStrings.Split | src/utils.ts:36 | `split(sep)` always yields at least one piece |
| JsStrings.JoinSplit | src/utils.ts:36-37 | joining the pieces of a split with the same separator gives the text back |
| JsStrings.SplitPiecesAreFree | src/utils.ts:36 | no piece contains the separator; the first piece is a prefix of the text |
| JsStrings.SplitSingleIffAbsent | src/utils.ts:36 | the split has one piece exactly when the separator does not occur |
| JsStrings.SplitJoinChar | src/utils.ts:36-37 | splitting on a character undoes a join by it when no piece contains it |
| JsStrings.SplitCharConcat | src/utils.ts:36 | splitting a text joined by the separator character gives the pieces of both sides |
| JsStrings.Join | src/utils.ts:37 | `join(sep)`: the pieces with the separator between each two; `JoinSplit` and `SplitJoinChar` tie it to `Split` |
| JsStrings.ReplaceAll | src/commands/run.ts:151 | the `split(pattern).join(replacement)` idiom; `ReplaceAllChar` and `ReplaceAllAbsent` state its effect |
| JsStrings.ReplaceAllChar | src/commands/run.ts:151 | replacing a character by a character keeps the length and changes exactly the positions holding it |
| JsStrings.ReplaceAllAbsent | src/commands/run.ts:168-169 | replacing a pattern that does not occur leaves the text unchanged |
| NodeFs.Stat | src/utils.ts:13 | a recorded stat error wins; otherwise an existing path reports its kind and a missing one fails with ENOENT |
| NodeFs.PathJoin | src/commands/run.ts:32-60 | `path.join` of two parts: the first part, one `/`, then the second part, with nothing dropped |
| NodeFs.MadeDirectory | src/commands/run.ts:82-83 | recursive `mkdir` succeeds exactly when the path is free or already a directory and makes it a directory; failure changes nothing |
| NodeFs.Copied | src/commands/run.ts:91 | `copyFile` succeeds exactly when the source is a readable regular file and the destination is free or a regular file; the destination then holds the source's content, whatever it held before |
| NodeFs.AppendedFile | src/utils.ts:37 | `fs.appendFile` appends to a regular file, creates a missing one, and fails without change otherwise |
| NodeFs.Appended | src/utils.ts:37 | the appended file holds its old content followed by the text; every other file is unchanged; the shape of the disk is unchanged |
| NodeFs.AppendedTwice | src/utils.ts:37 | two appends to one file are one append of both texts |
| NodeFs.MadeDirectoryIgnoresContents | src/commands/run.ts:82-83 | `mkdir` succeeds or fails depending only on the shape of the disk |
| NodeFs.CopiedIgnoresContents | src/commands/run.ts:91 | `copyFile` succeeds or fails depending only on the shape of the disk |
| NodeFs.FileSystem.Append | src/utils.ts:37 | the in-place append leaves exactly the disk and outcome of `AppendedFile` |
| NodeFs.FileSystem.MakeDirectory | src/commands/run.ts:82-83 | the in-place `mkdir` leaves exactly the disk and outcome of `MadeDirectory` |
| NodeFs.FileSystem.CopyFile | src/commands/run.ts:91 | the in-place `copyFile` leaves exactly the disk and outcome of `Copied` |
| Dosbox.Decimal | src/dosbox.ts:21 | `${freeSize}` is a non-empty string of decimal digits |
| Dosbox.DecimalValue | src/dosbox.ts:21 | reading those digits back gives the number |
| Dosbox.SystemLine | src/dosbox.ts:21 | the `mount c "<folder>" -freesize <n>` line; `SystemLineClean` and `SystemDirectiveText` state how it is written |
| Dosbox.SystemRaw | src/dosbox.ts:20-22 | the `mountSystem` template literal: the `mount c` line between an opening EOL and the closing indentation |
| Dosbox.SystemDirective | src/dosbox.ts:20-22 | what `mountSystem` appends, the line-trimmed literal; `SystemDirectiveText` states it is exactly EOL, the `mount c` line, EOL, and `MountSystem` is proved against it |
| Dosbox.MountSystem | src/dosbox.ts:19-24 | appends the system directive whatever exists on disk, and nothing else changes |
| Dosbox.SystemLineClean | src/dosbox.ts:21 | the `mount c` line is written unchanged for an EOL-free folder path |
| Dosbox.SystemDirectiveText | src/dosbox.ts:20-22 | what is appended is exactly the line `mount c "<folder>" -freesize <n>` between two EOLs |
| Dosbox.MountFloppy | src/dosbox.ts:26-31 | appends the `mount a` directive when the folder is a directory, nothing when it is not, and rethrows any other stat error without change; the letter is always `a` |
| Dosbox.FloppyRaw | src/dosbox.ts:28 | the `mount a "<folder>" -t floppy -freesize 1440` literal; `FloppyDirectiveText` states it is written unchanged |
| Dosbox.FloppyDirectiveText | src/dosbox.ts:28 | for an EOL-free folder the floppy directive `mount a "<folder>" -t floppy -freesize 1440` holds no EOL and is written unchanged |
| Dosbox.Candidates | src/dosbox.ts:35-46 | a drive's candidates start with its folder and number one to four, in the order folder, ISO, CUE, BIN |
| Dosbox.FirstPresent | src/dosbox.ts:35-46 | reference first-match: the chosen candidate exists and every earlier one is absent; with no choice all are absent; a stat failure comes from a candidate all of whose predecessors are absent |
| Dosbox.Present | src/dosbox.ts:35-46 | the existence test of one candidate: `directoryExists` for the folder, `fileExists` for an image; `FirstPresent` is defined over it |
| Dosbox.Choice | src/dosbox.ts:35-46 | the if/else-if chain for one drive: folder first, then the images; `ChoiceIsFirstPresent` proves it equal to `FirstPresent` |
| Dosbox.ImageChoice | src/dosbox.ts:38-46 | the ISO, CUE, BIN branches of the chain; `ImageChoiceIsFirstPresent` proves it equal to first-match over the defined images |
| Dosbox.ImageExists | src/dosbox.ts:38-44 | `path !== undefined && await fileExists(path)`: false for an undefined image without a stat, otherwise `fileExists`; `FirstPresentImage` states how the chain uses it |
| Dosbox.ChoiceIsFirstPresent | src/dosbox.ts:35-46 | the if/else-if chain picks exactly the first existing candidate of the reference definition |
| Dosbox.ImageChoiceIsFirstPresent | src/dosbox.ts:38-46 | after the folder, the chain picks the first existing image among ISO, CUE, BIN, skipping undefined ones |
| Dosbox.FirstPresentImage | src/dosbox.ts:38-46 | an undefined image is skipped; a defined one is chosen if it exists, and otherwise the search continues |
| Dosbox.ChoiceFromDrive | src/dosbox.ts:35-46 | only the drive's folder or one of its defined images is ever mounted |
| Dosbox.ChoiceIgnoresContents | src/dosbox.ts:35-46 | the choice depends only on the shape of the disk |
| Dosbox.DirectiveOnOneLine | src/dosbox.ts:36-45 | a `mount`/`imgmount` directive built from EOL-free parts is written without an EOL |
| Dosbox.SourceRaw | src/dosbox.ts:36-45 | a folder gives `mount <l> "<folder>" -t cdrom -label <name>_<l>`, an image `imgmount <l> "<image>" -t cdrom`; `DirectiveOnOneLine` states it is written without EOL |
| Dosbox.DriveDirective | src/dosbox.ts:36-45 | the text appended for one drive: nothing when no source was chosen, otherwise the line-trimmed directive of the chosen source; `DirectiveOnOneLine` states it holds no EOL |
| Dosbox.DrivesOutput | src/dosbox.ts:33-49 | what the loop over the drives writes and how it ends; `DrivesOutputOnOneLine`, `MountStopsOnFailure` and `DrivesOutputIgnoresContents` state its properties, `MountDrives` is proved against it |
| Dosbox.DrivesOutputOnOneLine | src/dosbox.ts:33-49 | since `appendFile` adds no separator, all directives of one `mountDrives` call end up on a single line |
| Dosbox.DrivesOutputIgnoresContents | src/dosbox.ts:33-49 | what `mountDrives` writes depends only on the shape of the disk |
| Dosbox.MountStopsOnFailure | src/dosbox.ts:33-49 | after a drive's stat fails, no later drive is looked at |
| Dosbox.MountDrive | src/dosbox.ts:35-47 | one drive: a failing stat throws without change; otherwise appends the directive of the chosen source, or nothing when none exists |
| Dosbox.MountDrives | src/dosbox.ts:33-49 | the drives in order: the file gains exactly `DrivesOutput`'s text, at most one directive per drive, and ends with its outcome |
| Dosbox.DosboxCall | src/dosbox.ts:63-79 | `darwin` gives `open -a DOSBox --args`, the Unix family gives `dosbox`, anything else fails with `Unknown platform '<p>'` |
| Dosbox.Launch | src/dosbox.ts:51-80 | the config file must be a regular file, checked before the platform; the command line is the platform prefix followed by ` -conf "<path>" -exit` |
| ConfigSections.SubstitutedAbsent | src/commands/run.ts:168-169 | a value with none of the placeholders is left as it is |
| ConfigSections.Substituted | src/commands/run.ts:168-169 | each placeholder replaced in turn by the split/join idiom; `SubstitutedAbsent` states that a value without placeholders is unchanged |
| ConfigSections.SectionRaw | src/commands/run.ts:101-105 | the section template literal: origin comment, `[key]`, value, indented; `SectionWritten` states how it is written |
| ConfigSections.SectionText | src/commands/run.ts:96-106 | one entry: nothing when undefined, otherwise its line-trimmed section; `SectionWritten` states the lines |
| ConfigSections.SectionsText | src/commands/run.ts:95-108 | the sections of the entries in order; `SectionsTextConcat`, `SectionsTextStep` and `UndefinedKeysWriteNothing` state its properties |
| ConfigSections.SectionWritten | src/commands/run.ts:99-106 | a defined key is written as its origin comment, `[key]` and the substituted value, each trimmed, between EOLs; an undefined one writes nothing |
| ConfigSections.SectionsTextConcat | src/commands/run.ts:95-108 | the sections of a map are the sections of its entries, in `for...in` order |
| ConfigSections.UndefinedKeysWriteNothing | src/commands/run.ts:95-96 | only keys with a defined value give a section |
| ConfigSections.SectionsTextStep | src/commands/run.ts:164-178 | one more key adds its section with the placeholders replaced in order, or nothing when undefined |
| ConfigSections.AppendSections | src/commands/run.ts:164-179 | the loop appends exactly the sections of the map, in order, each value substituted |
| ConfigSections.DosboxLinesClean | src/commands/run.ts:114-119 | the `[dosbox]` block's lines, including `captures="$<path>"` with its literal `$`, are written unchanged |
| ConfigSections.DosboxBlockWritten | src/commands/run.ts:112-120 | the block is written as its four lines, unindented, between EOLs |
| ConfigSections.DosboxBlock | src/commands/run.ts:114-119 | the `[dosbox]` template literal; `DosboxBlockWritten` states it is written as its four lines |
| ConfigSections.CdTarget | src/commands/run.ts:151 | every `/` of the folder name becomes `\`, nothing else changes, the length is kept and no `/` remains |
| ConfigSections.RunCommandLine | src/commands/run.ts:73-74 | the configured `exeToLaunch` when set, otherwise `if exist <name>.exe <name>.exe`, the folder name taken as configured (run.ts:145-150 choose between them) |
| ConfigSections.CdDrives | src/commands/run.ts:130-136 | thirteen CD-ROM drives, `d` to `p` |
| ConfigSections.CdDrivesEolFree | src/commands/run.ts:130-136 | inside an EOL-free program folder, no drive letter or path holds an EOL |
| ConfigSections.Prepared | src/commands/run.ts:82-91 | after both `mkdir`s and the copy the output file is a regular file holding exactly the template's content |
| ConfigSections.PreparedIgnoresContents | src/commands/run.ts:82-91 | preparing succeeds or fails depending only on the shape of the disk, and leaves disks of the same shape |
| ConfigSections.PreparedKeepsDirectories | src/main.ts:80-89 | preparing never takes away a directory that was there before |
| RunCommand.LayoutOf | src/commands/run.ts:32-60 | the hdd root is `hddPath` or `<root>/hdd`; the program folder is `<hddRoot>/<appName>`; the folder name is `cFolderPath` or the app name; the system folder is `<progFolder>/c/<folder name>`; the config root is `<root>/data/config` and the output `<configRoot>/<appName>.conf` |
| RunCommand.Checks | src/commands/run.ts:39-71 | passes exactly when the hdd root and program folder are directories and the system folder's stat succeeds; the messages are `No folder at '<path>'`; the result is whether the system folder exists |
| RunCommand.Placeholders | src/commands/run.ts:33-34 | `{{hddFolder}}` then `{{cFolder}}`, both non-empty patterns |
| RunCommand.CdText | src/commands/run.ts:144-160 | the `cd` block is written only when the system folder exists; a failing stat is passed on |
| RunCommand.CdBlock | src/commands/run.ts:152-159 | the `cd` template literal: `cd` to the backslashed folder name, the pre-command, the run command |
| RunCommand.CdBlockWritten | src/commands/run.ts:145-159 | the `cd` block is written as its three lines between EOLs, each trimmed: `cd <target>`, the pre-command (an empty line when undefined), and `RunCommandLine`'s choice |
| RunCommand.HeadText | src/commands/run.ts:95-127 | what precedes the CD-ROM mounts: user sections, `[dosbox]` block, floppy text |
| RunCommand.TailText | src/commands/run.ts:139-179 | system mount, `c:`, the `cd` block when the folder exists and the program sections; a stat failure stops after `c:` |
| RunCommand.Written | src/commands/run.ts:95-179 | everything appended after the template and how it ends; `RunWritesInOrder` and `WrittenIgnoresContents` state its properties |
| RunCommand.Ran | src/commands/run.ts:17-184 | a whole run: the disk left and the command line or error; `FailedChecksWriteNothing`, `RunWritesInOrder`, `LaunchesAfterWriting` and `RunIgnoresOldContents` state its properties |
| RunCommand.FailedChecksWriteNothing | src/commands/run.ts:39-67 | a failed check throws before any folder is created or the template copied: the disk is unchanged |
| RunCommand.RunWritesInOrder | src/commands/run.ts:91-179 | the output file is the template, then user sections, `[dosbox]`, floppies, CD-ROMs, system mount, `c:`, `cd` block and program sections, in that order, whatever it held before |
| RunCommand.LaunchesAfterWriting | src/commands/run.ts:183 | a fully written run never reports its file missing: it launches on it or fails on the platform |
| RunCommand.WrittenIgnoresContents | src/commands/run.ts:95-179 | what is appended depends only on the shape of the disk |
| RunCommand.TailIgnoresContents | src/commands/run.ts:140-179 | what follows the CD-ROMs depends only on the shape of the disk |
| RunCommand.RunIgnoresOldContents | src/commands/run.ts:91 | the template copy overwrites the output: disks that differ only in contents, with the same template, give the same result and the same file |
| RunCommand.AppendHead | src/commands/run.ts:95-127 | appends the user sections, the `[dosbox]` block and the floppy text |
| RunCommand.AppendCd | src/commands/run.ts:144-160 | appends the `cd` block with the backslashed target, the pre-command and the chosen run command when the system folder exists |
| RunCommand.AppendTail | src/commands/run.ts:140-179 | appends the system mount, `c:`, the `cd` block and the program sections |
| RunCommand.WriteConfig | src/commands/run.ts:95-179 | appends exactly `Written`'s text and ends with its outcome |
| RunCommand.Run | src/commands/run.ts:17-184 | the disk left and the result are exactly those of `Ran` |
| LegacyMain.LayoutOf | src/main.ts:32-61 | the bin root is `binPath` or `<root>/bin`; the program folder is inside it; the folder name is `cFolderPath` or the program name; the system folder is `<progFolder>/c/<folder name>`; the config root is `<root>/data/config` and the output `<configRoot>/<progName>.conf` |
| LegacyMain.Checks | src/main.ts:39-71 | passes exactly when the bin root, program folder and system folder are all directories; the messages are `No folder at '<path>'` and `No bin folder at '<path>'` |
| LegacyMain.Placeholders | src/main.ts:33-34 | `{{binfolder}}` then `{{cfolder}}`, both non-empty patterns |
| LegacyMain.FloppyText | src/main.ts:115 | floppy `a` is mounted from `<progFolder>/a` only if that folder exists, as its directive unchanged; a failing stat is passed on |
| LegacyMain.FloppyAWritten | src/main.ts:115 | for an EOL-free program folder the floppy directive holds no EOL and is written unchanged |
| LegacyMain.MountsOnOneLine | src/main.ts:115-125 | the floppy directive and all CD-ROM directives end up glued on one line |
| LegacyMain.MountsText | src/main.ts:115-125 | floppy `a`, then the CD-ROM drives, stopping on a stat failure; `AppendMounts` is proved against it, `MountsOnOneLine` and `MountsIgnoreContents` state its properties |
| LegacyMain.CdText | src/main.ts:130-144 | the `c:`/`cd` block is written only when the system folder exists; a failing stat is passed on |
| LegacyMain.CdBlock | src/main.ts:138-143 | the `c:`/`cd` template literal: `c:`, `cd` to the backslashed folder name, the pre-command, the run command |
| LegacyMain.CdBlockWritten | src/main.ts:131-143 | the block is written as its four lines between EOLs, each trimmed: `c:`, `cd <target>`, the pre-command (an empty line when undefined), and `RunCommandLine`'s choice |
| LegacyMain.ProgramText | src/main.ts:130-160 | the `c:`/`cd` block when the system folder exists, then the program sections; a failing stat of the folder writes nothing and is passed on; `AppendProgram` is proved against it |
| LegacyMain.HeadText | src/main.ts:93-112 | what precedes the mounts: user sections and the `[dosbox]` block |
| LegacyMain.TailText | src/main.ts:128-160 | system mount, then the `c:`/`cd` block and the program sections; a stat failure stops after the system mount |
| LegacyMain.Written | src/main.ts:93-160 | everything appended after the template and how it ends; `RunWritesInOrder` states the order |
| LegacyMain.Ran | src/main.ts:13-165 | a whole run of `main`: the disk left and the command line or error; `NoNameNoRun`, `FailedChecksWriteNothing`, `RunWritesInOrder` and `LaunchesAfterWriting` state its properties |
| LegacyMain.NoNameNoRun | src/main.ts:14-17 | with no argument `main` throws `No name provided` and leaves the disk as it was |
| LegacyMain.FailedChecksWriteNothing | src/main.ts:39-71 | a missing bin root, program folder or system folder throws before any folder is created or the template copied |
| LegacyMain.CdBlockAlwaysWritten | src/main.ts:69-71 | once the checks pass and the template is copied, the `c:`/`cd` block is always written |
| LegacyMain.RunWritesInOrder | src/main.ts:89-160 | the output file is the template, then user sections, `[dosbox]`, floppy `a`, CD-ROMs, system mount, the `c:`/`cd` block and program sections, in that order |
| LegacyMain.LaunchesAfterWriting | src/main.ts:164 | a fully written run never reports its file missing: it launches on it or fails on the platform |
| LegacyMain.MountsIgnoreContents | src/main.ts:115-125 | the mounts depend only on the shape of the disk |
| LegacyMain.TailIgnoresContents | src/main.ts:128-160 | what follows the CD-ROMs depends only on the shape of the disk |
| LegacyMain.AppendHead | src/main.ts:93-112 | appends the user sections and the `[dosbox]` block |
| LegacyMain.AppendMounts | src/main.ts:115-125 | appends floppy `a`, then the CD-ROM drives, stopping on a stat failure |
| LegacyMain.AppendCd | src/main.ts:130-144 | appends `c:`, `cd` with the backslashed target, the pre-command and the chosen run command when the system folder exists |
| LegacyMain.AppendProgram | src/main.ts:130-160 | appends the `c:`/`cd` block, then the program sections |
| LegacyMain.AppendTail | src/main.ts:128-160 | appends the system mount, then the `c:`/`cd` block and the program sections |
| LegacyMain.WriteConfig | src/main.ts:93-160 | appends exactly `Written`'s text and ends with its outcome |
| LegacyMain.RunMain | src/main.ts:13-165 | the disk left and the result are exactly those of `Ran` |
| LegacyMain.Wrapper | src/main.ts:167-177 | every error is caught and reported, none passed on; what `main` wrote before throwing stays on disk |

## Left out

- Loading the YAML configuration files (`~/.dosbox-wrapper`, `<progFolder>/config.yml`) and checking that they exist: the user and program configurations are input records.
- Logging, usage text and warnings: they do not change the generated file.
- The subprocess call of `launch`: the model stops at the command line it would run.
- The user configuration passed as a first argument to `launch` (`src/commands/run.ts:183`, `src/main.ts:164`) is dropped: the `launch` shown (`src/dosbox.ts:51`) takes only the configuration path.
- Resolving the tool's root from the module's location and `DBW_DIST`: the root is a parameter.
- `path.join` normalisation of `..` and repeated separators: paths are joined with `/`.
- The tree structure of the file system: paths are opaque keys with no parent/child relation, so recursive `mkdir` (`src/commands/run.ts:82-83`, `src/main.ts:80-81`) does not create missing ancestors, and a file may exist under a path that is not a directory.
- `os.EOL` is fixed to a line feed, so the file the model writes matches the source only where `os.EOL` is `\n` (macOS and the Unix family). On Windows `appendFile` splits on `\r\n`, which the template literals do not hold, so each literal would keep its inner indentation; `launch` fails there with `Unknown platform`, but only after the file is written, and `RunCommand.Ran`, `LegacyMain.Ran` and the lemmas about them do not describe that file.
- The errno codes of `copyFile` and `appendFile` on a directory or special file are approximated as EISDIR and EINVAL.
- Asynchrony: every `await` runs to completion before the next step, so the methods are sequential.
- The floppy step of `run` (`mountFloppies`, with floppies `a` and `b` and image fallback): its implementation is not part of this model, so `RunCommand.Run` appends a given floppy text as it is.
- Dosbox.MountSystem: requires the configuration file to be an existing regular file, which every caller guarantees by copying the template first; `appendFile` on a missing file is modelled only by `Utils.AppendFile`.
- Dosbox.MountFloppy: requires the configuration file to be an existing regular file, for the same reason.
- Dosbox.MountDrives: requires the configuration file to be an existing regular file, for the same reason.
- ConfigSections.AppendSections: requires the configuration file to be an existing regular file, for the same reason.
- LegacyMain.FloppyText: states the exact directive only for a program folder without EOL.
- LegacyMain.NoNameNoRun: states one direction only (no argument gives `No name provided`), not that no other failure has that message.
- RunCommand.Run: the source's one `run` method is split into helper methods (`AppendHead`, `AppendCd`, `AppendTail`, `WriteConfig`) that keep its order of steps.
- LegacyMain.RunMain: split into helper methods in the same way.
