/** `src/utils.ts`: the two existence queries and `appendFile`. */
module Utils {
  import opened Outcomes
  import opened JsStrings
  import opened NodeFs

  /** `fileExists`: true for a regular file, false for a missing path or for
      anything that is not a regular file; any stat error other than ENOENT
      is passed on. */
  function FileExists(d: Disk, p: Path): (r: Result<bool>)
    ensures r == Ok(true) <==> p in d.kinds && d.kinds[p] == RegularFile && p !in d.statErrors
    ensures r.Err? <==> p in d.statErrors && d.statErrors[p] != ENOENT
    ensures r.Err? ==> r.error == SystemError(d.statErrors[p], p)
  {
    match Stat(d, p)
    case Ok(k) => Ok(k == RegularFile)
    case Err(e) => if e.code == ENOENT then Ok(false) else Err(e)
  }

  /** `directoryExists`: the same query for directories. */
  function DirectoryExists(d: Disk, p: Path): (r: Result<bool>)
    ensures r == Ok(true) <==> p in d.kinds && d.kinds[p] == Directory && p !in d.statErrors
    ensures r.Err? <==> p in d.statErrors && d.statErrors[p] != ENOENT
    ensures r.Err? ==> r.error == SystemError(d.statErrors[p], p)
  {
    match Stat(d, p)
    case Ok(k) => Ok(k == Directory)
    case Err(e) => if e.code == ENOENT then Ok(false) else Err(e)
  }

  /** No path is reported both as a regular file and as a directory. */
  lemma FileAndDirectoryExclusive(d: Disk, p: Path)
    ensures !(FileExists(d, p) == Ok(true) && DirectoryExists(d, p) == Ok(true))
  {
  }

  /** Both queries depend only on the shape of the file system, not on what
      the files hold. */
  lemma ExistsIgnoresContents(d: Disk, e: Disk, p: Path)
    requires d.SameShape(e)
    ensures FileExists(d, p) == FileExists(e, p) && DirectoryExists(d, p) == DirectoryExists(e, p)
  {
  }

  /** `lines.map(l => l.trim())`. */
  function TrimEach(lines: seq<string>): (r: seq<string>)
    ensures |r| == |lines|
    ensures forall i {:trigger r[i]} :: 0 <= i < |r| ==> r[i] == Trim(lines[i])
  {
    if |lines| == 0 then [] else [Trim(lines[0])] + TrimEach(lines[1..])
  }

  /** The text `appendFile` writes for `content`: every EOL-separated line
      trimmed, the lines joined again with EOL. EOL is `os.EOL` on every
      platform the tool can launch the emulator from (macOS and the Unix
      family), a single line feed. */
  function LineTrimmed(content: string): string {
    Join(TrimEach(Split(content, "\n")), "\n")
  }

  /** The appended text has exactly the trimmed lines of the content: as many
      lines as the content, none with whitespace at either end. */
  lemma LinesOfLineTrimmed(content: string)
    ensures Split(LineTrimmed(content), "\n") == TrimEach(Split(content, "\n"))
    ensures |Split(LineTrimmed(content), "\n")| == |Split(content, "\n")|
    ensures forall i :: 0 <= i < |Split(LineTrimmed(content), "\n")| ==>
              Trimmed(Split(LineTrimmed(content), "\n")[i])
  {
    var lines := Split(content, "\n");
    SplitCharPiecesFree(content, '\n');
    var trimmed := TrimEach(lines);
    forall i | 0 <= i < |trimmed| ensures '\n' !in trimmed[i] {
      TrimKeepsOut(lines[i], '\n');
    }
    SplitJoinChar(trimmed, '\n');
  }

  /** Appending the already trimmed content writes the same text: trimming
      the lines is idempotent. */
  lemma LineTrimmedIdempotent(content: string)
    ensures LineTrimmed(LineTrimmed(content)) == LineTrimmed(content)
  {
    LinesOfLineTrimmed(content);
    var t := TrimEach(Split(content, "\n"));
    var tt := TrimEach(t);
    forall i | 0 <= i < |t| ensures tt[i] == t[i] {
      TrimIdempotent(Split(content, "\n")[i]);
    }
    assert tt == t;
  }

  /** A content without EOL is written as its trimmed self. */
  lemma LineTrimmedSingleLine(content: string)
    requires '\n' !in content
    ensures LineTrimmed(content) == Trim(content)
  {
    SplitCharAbsent(content, '\n');
  }

  /** A content given as lines, none containing EOL, is written as those
      lines trimmed and joined with EOL. */
  lemma LineTrimmedOfLines(lines: seq<string>)
    requires |lines| >= 1
    requires forall i :: 0 <= i < |lines| ==> '\n' !in lines[i]
    ensures LineTrimmed(Join(lines, "\n")) == Join(TrimEach(lines), "\n")
  {
    SplitJoinChar(lines, '\n');
  }

  /** `appendFile(filePath, content)`: the line-trimmed content is appended
      right after what the file holds, with no separator added. */
  method AppendFile(fs: FileSystem, filePath: Path, content: string) returns (r: Outcome)
    requires fs.Valid()
    modifies fs
    ensures fs.Valid()
    ensures (fs.Snapshot(), r) == AppendedFile(old(fs.Snapshot()), filePath, LineTrimmed(content))
  {
    r := fs.Append(filePath, LineTrimmed(content));
  }

  /** What a run of `appendFile` calls wrote before it finished or threw. */
  datatype Emitted = Emitted(text: string, outcome: Outcome)

  /** `appendFile` writes an EOL-free, already trimmed text unchanged. */
  lemma LineTrimmedUnchanged(x: string)
    requires '\n' !in x && Trimmed(x)
    ensures LineTrimmed(x) == x
  {
    LineTrimmedSingleLine(x);
    TrimAroundTrimmed("", x, "");
    assert "" + x + "" == x;
  }

  lemma {:induction false} TrimEachConcat(xs: seq<string>, ys: seq<string>)
    ensures TrimEach(xs + ys) == TrimEach(xs) + TrimEach(ys)
    decreases |xs|
  {
    if |xs| == 0 {
      assert xs + ys == ys;
    } else {
      assert (xs + ys)[0] == xs[0] && (xs + ys)[1..] == xs[1..] + ys;
      TrimEachConcat(xs[1..], ys);
    }
  }

  /** `appendFile` treats the lines on either side of an EOL separately. */
  lemma LineTrimmedConcat(p: string, q: string)
    ensures LineTrimmed(p + "\n" + q) == LineTrimmed(p) + "\n" + LineTrimmed(q)
  {
    SplitCharConcat(p, '\n', q);
    TrimEachConcat(Split(p, "\n"), Split(q, "\n"));
    JoinConcat(TrimEach(Split(p, "\n")), TrimEach(Split(q, "\n")), "\n");
  }

  /** Indentation in front of a text makes no difference to what
      `appendFile` writes. */
  lemma LineTrimmedIndented(indent: string, x: string)
    requires AllWhitespace(indent) && '\n' !in indent
    ensures LineTrimmed(indent + x) == LineTrimmed(x)
  {
    var lines := Split(x, "\n");
    SplitCharPrefix(indent, '\n', x);
    TrimAfterWhitespace(indent, lines[0]);
    var t := TrimEach([indent + lines[0]] + lines[1..]);
    assert t == TrimEach(lines) by {
      assert t[0] == Trim(lines[0]);
      assert forall i :: 1 <= i < |t| ==> t[i] == Trim(lines[i]);
    }
  }

  /** The lines of `lines`, each as `appendFile` writes it. */
  function EachLineTrimmed(lines: seq<string>): (r: seq<string>)
    ensures |r| == |lines| && forall i {:trigger r[i]} :: 0 <= i < |r| ==> r[i] == LineTrimmed(lines[i])
  {
    if |lines| == 0 then [] else [LineTrimmed(lines[0])] + EachLineTrimmed(lines[1..])
  }

  /** `appendFile` of joined lines writes each of them as `appendFile` would. */
  lemma {:induction false} LineTrimmedJoin(lines: seq<string>)
    requires |lines| >= 1
    ensures LineTrimmed(Join(lines, "\n")) == Join(EachLineTrimmed(lines), "\n")
    decreases |lines|
  {
    if |lines| > 1 {
      LineTrimmedJoin(lines[1..]);
      LineTrimmedConcat(lines[0], Join(lines[1..], "\n"));
      var e := EachLineTrimmed(lines);
      assert e[1..] == EachLineTrimmed(lines[1..]);
    }
  }

  /** The text `appendFile` writes for `lines` given as a template literal:
      an EOL, then every line followed by an EOL. */
  function Lines(lines: seq<string>): string {
    Join([""] + lines + [""], "\n")
  }

  /** A whitespace-only line is written as nothing. */
  lemma LineTrimmedBlank(blank: string)
    requires AllWhitespace(blank) && '\n' !in blank
    ensures LineTrimmed(blank) == ""
  {
    LineTrimmedSingleLine(blank);
    TrimAroundTrimmed(blank, "", "");
    assert blank + "" + "" == blank;
  }

  lemma {:induction false} EachLineTrimmedConcat(xs: seq<string>, ys: seq<string>)
    ensures EachLineTrimmed(xs + ys) == EachLineTrimmed(xs) + EachLineTrimmed(ys)
    decreases |xs|
  {
    if |xs| == 0 {
      assert xs + ys == ys;
    } else {
      assert (xs + ys)[0] == xs[0] && (xs + ys)[1..] == xs[1..] + ys;
      EachLineTrimmedConcat(xs[1..], ys);
    }
  }

  lemma EachLineTrimmedIndented(indent: string, lines: seq<string>)
    requires AllWhitespace(indent) && '\n' !in indent
    ensures EachLineTrimmed(Indented(indent, lines)) == EachLineTrimmed(lines)
  {
    forall i | 0 <= i < |lines| ensures LineTrimmed(indent + lines[i]) == LineTrimmed(lines[i]) {
      LineTrimmedIndented(indent, lines[i]);
    }
  }

  /** A multi-line template literal is written as its lines without their
      indentation, each line as `appendFile` writes it, and with the
      closing indentation gone. */
  lemma BlockWritten(indent: string, lines: seq<string>, closing: string)
    requires AllWhitespace(indent) && '\n' !in indent
    requires AllWhitespace(closing) && '\n' !in closing
    ensures LineTrimmed(Block(indent, lines, closing)) == Lines(EachLineTrimmed(lines))
  {
    var body := Indented(indent, lines);
    LineTrimmedJoin([""] + body + [closing]);
    EachLineTrimmedConcat([""] + body, [closing]);
    EachLineTrimmedConcat([""], body);
    EachLineTrimmedIndented(indent, lines);
    LineTrimmedBlank("");
    LineTrimmedBlank(closing);
    assert EachLineTrimmed([""]) == [""];
    assert EachLineTrimmed([closing]) == [""];
    assert Block(indent, lines, closing) == Join([""] + body + [closing], "\n");
  }

  /** A one-line template literal whose line `appendFile` writes as it is
      gives just that line between two EOLs. */
  lemma OneLineBlockWritten(indent: string, line: string, closing: string)
    requires AllWhitespace(indent) && '\n' !in indent
    requires AllWhitespace(closing) && '\n' !in closing
    requires LineTrimmed(line) == line
    ensures LineTrimmed(Block(indent, [line], closing)) == Lines([line])
  {
    BlockWritten(indent, [line], closing);
    assert EachLineTrimmed([line]) == [line];
  }

  /** Lines that hold no EOL and no whitespace at either end are written as
      they are. */
  lemma CleanLinesWritten(lines: seq<string>)
    requires forall i :: 0 <= i < |lines| ==> '\n' !in lines[i] && Trimmed(lines[i])
    ensures EachLineTrimmed(lines) == lines
  {
    forall i | 0 <= i < |lines| ensures LineTrimmed(lines[i]) == lines[i] {
      LineTrimmedUnchanged(lines[i]);
    }
  }
}
