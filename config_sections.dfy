/** The configuration text that both pipelines, `src/commands/run.ts` and
    the earlier `src/main.ts`, append around the mount directives: the
    `[key]` sections taken from configuration files, the `[dosbox]` block,
    the `cd` target and the CD-ROM drives d to p. */
module ConfigSections {
  import opened Outcomes
  import opened JsStrings
  import opened NodeFs
  import opened Utils
  import opened Dosbox

  /** What a pipeline reads from the program's configuration file. */
  datatype ProgramConfig = ProgramConfig(
    cFolderPath: Option<string>,
    exeToLaunch: Option<string>,
    exePreCommand: Option<string>,
    dosboxConf: Conf,
    filePath: string)

  /** A `dosboxConf` map of a configuration file in `for...in` order; a key
      whose value is `undefined` is `None`. */
  type Conf = seq<(string, Option<string>)>

  /** Placeholders and what replaces them, in the order the replacements
      are made. */
  type Substitution = seq<(string, string)>

  predicate Patterns(subst: Substitution) {
    forall i :: 0 <= i < |subst| ==> |subst[i].0| > 0
  }

  /** The value after `value = value.split(placeholder).join(replacement)`
      for each placeholder in turn. */
  function Substituted(value: string, subst: Substitution): string
    requires Patterns(subst)
    decreases |subst|
  {
    if |subst| == 0 then value
    else ReplaceAll(Substituted(value, subst[..|subst| - 1]), subst[|subst| - 1].0, subst[|subst| - 1].1)
  }

  /** A value holding none of the placeholders is left as it is. */
  lemma {:induction false} SubstitutedAbsent(value: string, subst: Substitution)
    requires Patterns(subst)
    requires forall i :: 0 <= i < |subst| ==> !Contains(value, subst[i].0)
    ensures Substituted(value, subst) == value
    decreases |subst|
  {
    if |subst| > 0 {
      SubstitutedAbsent(value, subst[..|subst| - 1]);
      ReplaceAllAbsent(value, subst[|subst| - 1].0, subst[|subst| - 1].1);
    }
  }

  /** The template literal of one section: where it comes from, the key,
      the value. */
  function SectionRaw(indent: nat, origin: string, key: string, value: string): string
    requires indent >= 2
  {
    Block(Spaces(indent), ["# added from " + origin, "[" + key + "]", value], Spaces(indent - 2))
  }

  /** What the loop body writes for one entry: nothing for an undefined
      value, otherwise the section with the value substituted. */
  function SectionText(entry: (string, Option<string>), indent: nat, origin: string, subst: Substitution): string
    requires indent >= 2 && Patterns(subst)
  {
    match entry.1
    case None => ""
    case Some(v) => LineTrimmed(SectionRaw(indent, origin, entry.0, Substituted(v, subst)))
  }

  /** What the loop over a `dosboxConf` map writes. */
  function SectionsText(conf: Conf, indent: nat, origin: string, subst: Substitution): string
    requires indent >= 2 && Patterns(subst)
    decreases |conf|
  {
    if |conf| == 0 then ""
    else SectionsText(conf[..|conf| - 1], indent, origin, subst) + SectionText(conf[|conf| - 1], indent, origin, subst)
  }

  /** A defined entry is written as three lines between EOLs: the origin
      comment, `[key]` and the substituted value, each line trimmed; an
      undefined one is not written at all. */
  lemma SectionWritten(entry: (string, Option<string>), indent: nat, origin: string, subst: Substitution)
    requires indent >= 2 && Patterns(subst)
    ensures entry.1.None? ==> SectionText(entry, indent, origin, subst) == ""
    ensures entry.1.Some? ==>
              SectionText(entry, indent, origin, subst)
              == Lines(EachLineTrimmed(["# added from " + origin, "[" + entry.0 + "]", Substituted(entry.1.value, subst)]))
  {
    if entry.1.Some? {
      BlockWritten(Spaces(indent), ["# added from " + origin, "[" + entry.0 + "]", Substituted(entry.1.value, subst)],
                   Spaces(indent - 2));
    }
  }

  /** The sections of a map are the sections of its entries, in order. */
  lemma {:induction false} SectionsTextConcat(a: Conf, b: Conf, indent: nat, origin: string, subst: Substitution)
    requires indent >= 2 && Patterns(subst)
    ensures SectionsText(a + b, indent, origin, subst)
            == SectionsText(a, indent, origin, subst) + SectionsText(b, indent, origin, subst)
    decreases |b|
  {
    if |b| == 0 {
      assert a + b == a;
    } else {
      var front := b[..|b| - 1];
      assert (a + b)[..|a + b| - 1] == a + front;
      assert (a + b)[|a + b| - 1] == b[|b| - 1];
      SectionsTextConcat(a, front, indent, origin, subst);
      Associative(SectionsText(a, indent, origin, subst), SectionsText(front, indent, origin, subst),
                  SectionText(b[|b| - 1], indent, origin, subst));
    }
  }

  /** Only keys with a defined value give a section. */
  lemma {:induction false} UndefinedKeysWriteNothing(conf: Conf, indent: nat, origin: string, subst: Substitution)
    requires indent >= 2 && Patterns(subst)
    requires forall i :: 0 <= i < |conf| ==> conf[i].1.None?
    ensures SectionsText(conf, indent, origin, subst) == ""
    decreases |conf|
  {
    if |conf| > 0 {
      UndefinedKeysWriteNothing(conf[..|conf| - 1], indent, origin, subst);
    }
  }

  /** One more entry of the map adds its section, or nothing when its value
      is undefined. */
  lemma SectionsTextStep(conf: Conf, i: nat, indent: nat, origin: string, subst: Substitution)
    requires i < |conf| && indent >= 2 && Patterns(subst)
    ensures conf[i].1.None? ==>
              SectionsText(conf[..i + 1], indent, origin, subst) == SectionsText(conf[..i], indent, origin, subst)
    ensures conf[i].1.Some? ==>
              SectionsText(conf[..i + 1], indent, origin, subst)
              == SectionsText(conf[..i], indent, origin, subst)
                 + LineTrimmed(SectionRaw(indent, origin, conf[i].0, Substituted(conf[i].1.value, subst)))
  {
    assert conf[..i + 1][..i] == conf[..i];
    if conf[i].1.None? {
      assert SectionsText(conf[..i], indent, origin, subst) + "" == SectionsText(conf[..i], indent, origin, subst);
    }
  }

  /** The loops of both pipelines over a `dosboxConf` map: one section per
      key whose value is defined, in order, each value substituted. */
  method AppendSections(fs: FileSystem, configFilePath: Path, conf: Conf, indent: nat, origin: string, subst: Substitution)
    requires fs.Valid() && fs.Snapshot().IsFile(configFilePath)
    requires indent >= 2 && Patterns(subst)
    modifies fs
    ensures fs.Valid()
    ensures fs.Snapshot() == Appended(old(fs.Snapshot()), configFilePath, SectionsText(conf, indent, origin, subst))
  {
    ghost var d0 := fs.Snapshot();
    AppendedNothing(d0, configFilePath);
    for i := 0 to |conf|
      invariant fs.Valid() && fs.Snapshot().IsFile(configFilePath)
      invariant fs.Snapshot() == Appended(d0, configFilePath, SectionsText(conf[..i], indent, origin, subst))
    {
      SectionsTextStep(conf, i, indent, origin, subst);
      if conf[i].1.Some? {
        var value := Substituted(conf[i].1.value, subst);
        ghost var before := SectionsText(conf[..i], indent, origin, subst);
        var written := AppendFile(fs, configFilePath, SectionRaw(indent, origin, conf[i].0, value));
        AppendedTwice(d0, configFilePath, before, LineTrimmed(SectionRaw(indent, origin, conf[i].0, value)));
      }
    }
    assert conf[..|conf|] == conf;
  }

  /** The lines of the `[dosbox]` block: captures go to the program's
      captures folder, written with a `$` in front of the path, and the
      `[autoexec]` section is opened for the mount directives that follow. */
  function DosboxLines(capturesFolder: Path): seq<string> {
    ["# added from dosbox-wrapper", "[dosbox]", "captures=\"$" + capturesFolder + "\"", "[autoexec]"]
  }

  function DosboxBlock(indent: nat, capturesFolder: Path): string
    requires indent >= 2
  {
    Block(Spaces(indent), DosboxLines(capturesFolder), Spaces(indent - 2))
  }

  lemma DosboxLinesClean(capturesFolder: Path)
    requires '\n' !in capturesFolder
    ensures EachLineTrimmed(DosboxLines(capturesFolder)) == DosboxLines(capturesFolder)
  {
    var lines := DosboxLines(capturesFolder);
    assert lines[2][|lines[2]| - 1] == '"';
    CleanLinesWritten(lines);
  }

  /** For a captures path without EOL the block is written as its four
      lines, unindented. */
  lemma DosboxBlockWritten(indent: nat, capturesFolder: Path)
    requires indent >= 2 && '\n' !in capturesFolder
    ensures LineTrimmed(DosboxBlock(indent, capturesFolder)) == Lines(DosboxLines(capturesFolder))
  {
    BlockWritten(Spaces(indent), DosboxLines(capturesFolder), Spaces(indent - 2));
    DosboxLinesClean(capturesFolder);
  }

  /** `name.split('/').join('\\')`: the `cd` target, with every `/` of the
      folder name turned into a backslash and nothing else changed. */
  function CdTarget(name: string): (r: string)
    ensures |r| == |name| && '/' !in r
    ensures forall i :: 0 <= i < |name| ==> r[i] == if name[i] == '/' then '\\' else name[i]
  {
    ReplaceAllChar(name, '/', '\\');
    ReplaceAll(name, "/", "\\")
  }

  /** The command run after the `cd`: the configured executable, or else
      the conditional start of `<name>.exe`. */
  function RunCommandLine(exeToLaunch: Option<string>, name: string): (r: string)
    ensures exeToLaunch.Some? ==> r == exeToLaunch.value
    ensures exeToLaunch.None? ==> r == "if exist " + name + ".exe " + name + ".exe"
  {
    if exeToLaunch.Some? then exeToLaunch.value else "if exist " + name + ".exe " + name + ".exe"
  }

  const CdLetters: seq<string> := ["d", "e", "f", "g", "h", "i", "j", "k", "l", "m", "n", "o", "p"]

  /** The CD-ROM drives d to p, each with its folder and its three image
      candidates inside the program folder. */
  function CdDrives(progFolder: Path): (drives: seq<Drive>)
    ensures |drives| == |CdLetters|
  {
    seq(|CdLetters|, i requires 0 <= i < |CdLetters| =>
      Drive(CdLetters[i], PathJoin(progFolder, CdLetters[i]),
            Some(PathJoin(progFolder, CdLetters[i] + ".iso")),
            Some(PathJoin(progFolder, CdLetters[i] + ".cue")),
            Some(PathJoin(progFolder, CdLetters[i] + ".bin"))))
  }

  /** Inside a program folder without EOL, no CD-ROM drive has an EOL in
      its letter or its paths. */
  lemma CdDrivesEolFree(progFolder: Path)
    requires '\n' !in progFolder
    ensures forall i :: 0 <= i < |CdDrives(progFolder)| ==> EolFree(CdDrives(progFolder)[i])
  {
    forall i | 0 <= i < |CdLetters| ensures '\n' !in CdLetters[i] && |CdLetters[i]| == 1 {
    }
  }

  /** The folders created and the template copied over the output file:
      `mkdir` of the configuration folder and of the captures folder, then
      `copyFile` of the common configuration to the output file. */
  function Prepared(d: Disk, configRoot: Path, captures: Path, commonConfig: Path, configFile: Path): (r: (Disk, Outcome))
    requires d.Valid()
    ensures r.0.Valid()
    ensures r.1.Pass? ==> d.IsFile(commonConfig) && r.0.IsFile(configFile)
                          && r.0.contents[configFile] == d.contents[commonConfig]
  {
    var (d1, o1) := MadeDirectory(d, configRoot);
    if o1.Fail? then (d1, o1)
    else
      var (d2, o2) := MadeDirectory(d1, captures);
      if o2.Fail? then (d2, o2)
      else Copied(d2, commonConfig, configFile)
  }

  /** Preparing depends only on the shape of the disk, and leaves disks of
      the same shape. */
  lemma PreparedIgnoresContents(d: Disk, e: Disk, configRoot: Path, captures: Path, commonConfig: Path, configFile: Path)
    requires d.Valid() && e.Valid() && d.SameShape(e)
    ensures Prepared(d, configRoot, captures, commonConfig, configFile).1
            == Prepared(e, configRoot, captures, commonConfig, configFile).1
    ensures Prepared(d, configRoot, captures, commonConfig, configFile).0
              .SameShape(Prepared(e, configRoot, captures, commonConfig, configFile).0)
  {
    MadeDirectoryIgnoresContents(d, e, configRoot);
    var d1, e1 := MadeDirectory(d, configRoot).0, MadeDirectory(e, configRoot).0;
    MadeDirectoryIgnoresContents(d1, e1, captures);
    CopiedIgnoresContents(MadeDirectory(d1, captures).0, MadeDirectory(e1, captures).0, commonConfig, configFile);
  }

  /** Preparing never takes a directory away: one that was there before is
      still there, and still readable, afterwards. */
  lemma PreparedKeepsDirectories(d: Disk, configRoot: Path, captures: Path, commonConfig: Path, configFile: Path,
                                 p: Path)
    requires d.Valid() && DirectoryExists(d, p) == Ok(true)
    requires Prepared(d, configRoot, captures, commonConfig, configFile).1.Pass?
    ensures DirectoryExists(Prepared(d, configRoot, captures, commonConfig, configFile).0, p) == Ok(true)
  {
    var d1 := MadeDirectory(d, configRoot).0;
    var d2 := MadeDirectory(d1, captures).0;
    assert DirectoryExists(d2, p) == Ok(true);
  }
}
