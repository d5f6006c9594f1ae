/**
  The manifest patcher of `add_files_to_xcode.py`: given the text of an Xcode
  `project.pbxproj` and a list of candidate source files, it registers every
  candidate whose file name the text does not yet mention, by splicing four
  kinds of lines into the text (a file reference, a build file, a group child
  and a Sources build-phase entry).

  `Run` and the functions before it specify the patch pass by pass;
  `AddFilesToProject` is the patcher as the script runs it, a sequence of
  loops that reassign `content`, proved to compute `Run`.
*/
module ManifestPatcher {
  import opened Text
  import opened XcodeIds

  /** One entry of `files_to_add`: a source path and the group it is filed under. */
  datatype Candidate = Candidate(path: string, group: string)

  /** A file scheduled for addition, keyed by its file name, with the two
      identifiers derived from its path: what `file_refs[name]` and
      `build_files[name]` hold. */
  datatype FileEntry = FileEntry(name: string, path: string, refId: string, buildId: string)

  datatype Option<T> = None | Some(value: T)

  /** How a run of the patcher ends. */
  datatype Outcome =
    | AllPresent             // every file name is already mentioned: returns before writing
    | NoFileRefSection       // the file-reference section marker is missing: returns before writing
    | NoBuildFileSection     // the build-file section marker is missing: returns before writing
    | Written(text: string)  // the patched text is written back

  /** The manifest on disk after a run: the early returns leave it as it was. */
  function FileAfter(input: string, o: Outcome): string {
    if o.Written? then o.text else input
  }

  const FileRefMarker := "/* Begin PBXFileReference section */"
  const BuildFileMarker := "/* Begin PBXBuildFile section */"
  const SourcesMarker := "/* Sources */ = {"
  const FilesListMarker := "files = ("

  /** The de-duplication key: the last '/'-component of the path. */
  function FileName(c: Candidate): string {
    LastComponent(c.path)
  }

  /** The candidates are keyed by file name; no two share one. */
  predicate DistinctFileNames(cands: seq<Candidate>) {
    forall i, j | 0 <= i < j < |cands| :: FileName(cands[i]) != FileName(cands[j])
  }

  /** `files_to_process`: the candidates whose file name does not occur in the text, in order. */
  function Missing(content: string, cands: seq<Candidate>): (todo: seq<Candidate>)
    ensures |todo| <= |cands|
    ensures forall c :: c in todo <==> c in cands && !Contains(content, FileName(c))
  {
    if cands == [] then []
    else
      var init, last := cands[..|cands| - 1], cands[|cands| - 1];
      assert forall c :: c in cands <==> c in init || c == last;
      Missing(content, init) + (if Contains(content, FileName(last)) then [] else [last])
  }

  function MakeEntry(md5: Md5, c: Candidate): FileEntry {
    FileEntry(FileName(c), c.path,
              GenerateId(md5, "fileref_" + c.path), GenerateId(md5, "buildfile_" + c.path))
  }

  /** The contents of `file_refs` and `build_files`, in insertion order. */
  function Entries(md5: Md5, todo: seq<Candidate>): (es: seq<FileEntry>)
    ensures |es| == |todo|
    ensures forall k | 0 <= k < |todo| :: es[k] == MakeEntry(md5, todo[k])
  {
    if todo == [] then [] else Entries(md5, todo[..|todo| - 1]) + [MakeEntry(md5, todo[|todo| - 1])]
  }

  /** The fixed parts of the four line formats, named so that the lines can be
      taken apart again. */
  const RefLead := " */ = {isa = PBXFileReference; " + "lastKnownFileType = sourcecode.swift; "
  const RefTrail := " sourceTree = \"<group>\"; };\n"
  const BuildLead := " in Sources */ = {isa = PBXBuildFile; "
  const BuildTrail := "; };\n"
  const GroupTrail := " */,\n"
  const SourceTrail := " in Sources */,\n"

  /** The reference line's `path = name;` field. */
  function PathField(e: FileEntry): string {
    "path = " + e.name + ";"
  }

  /** The build line's `fileRef = id /* name */` field. */
  function FileRefField(e: FileEntry): string {
    "fileRef = " + e.refId + " /* " + e.name + " */"
  }

  /** The four line formats, each a single line ended by a newline. */
  function ReferenceLine(e: FileEntry): string {
    "\t\t" + e.refId + " /* " + e.name + RefLead + PathField(e) + RefTrail
  }

  function BuildLine(e: FileEntry): string {
    "\t\t" + e.buildId + " /* " + e.name + BuildLead + FileRefField(e) + BuildTrail
  }

  function GroupLine(e: FileEntry): string {
    "\t\t\t\t" + e.refId + " /* " + e.name + GroupTrail
  }

  function SourceLine(e: FileEntry): string {
    "\t\t\t\t" + e.buildId + " /* " + e.name + SourceTrail
  }

  /** One line per entry, in order: the lists the script builds before joining them. */
  function Render(es: seq<FileEntry>, line: FileEntry -> string): (lines: seq<string>)
    ensures |lines| == |es|
    ensures forall k | 0 <= k < |es| :: lines[k] == line(es[k])
  {
    if es == [] then [] else Render(es[..|es| - 1], line) + [line(es[|es| - 1])]
  }

  function Block(es: seq<FileEntry>, line: FileEntry -> string): string {
    Join(Render(es, line))
  }

  /** `s.find("\n", start) + 1`: just past the end of the line holding `start`,
      or 0 when no newline follows. */
  function LineEnd(s: string, start: nat): (at: nat)
    ensures AtLineStart(s, at)
    ensures at == 0 <==> forall i | start <= i < |s| :: s[i] != '\n'
    ensures at > 0 ==> start < at && forall i | start <= i < at - 1 :: s[i] != '\n'
  {
    var nl := Find(s, "\n", start);
    assert forall i | 0 <= i < |s| :: OccursAt(s, "\n", i) <==> s[i] == '\n' by {
      forall i | 0 <= i < |s| ensures OccursAt(s, "\n", i) <==> s[i] == '\n' {
        assert s[i..i + 1] == [s[i]];
      }
    }
    nl + 1
  }

  /** The shape of the file-reference, build-file and Sources passes: insert
      `block` after the line holding `start`. With no newline after `start`,
      `find` gives -1 and the block is prepended to the whole text. */
  function InsertAfterLine(s: string, start: nat, block: string): (r: string)
    ensures |r| == |s| + |block|
    ensures LineEnd(s, start) == 0 ==> r == block + s
    ensures r[..LineEnd(s, start)] + r[LineEnd(s, start) + |block|..] == s
    ensures r[LineEnd(s, start)..LineEnd(s, start) + |block|] == block
  {
    SpliceAtStart(s, block);
    Splice(s, LineEnd(s, start), block)
  }

  /** Inserting after a line never breaks up a line-shaped word of the text. */
  lemma InsertAfterLineKeepsLines(s: string, start: nat, block: string)
    ensures KeepsLines(s, InsertAfterLine(s, start, block))
  {
    SpliceKeepsLines(s, LineEnd(s, start), block);
  }

  /** The group-anchor table (lines 104-117 of the script): the first row whose
      key occurs in the file's path decides; its preferred marker is used when
      the text holds it, else its fallback; no matching row gives the default. */
  datatype AnchorRule = AnchorRule(key: string, preferred: string, fallback: string)

  const DefaultAnchor := "ThinkFast /* ThinkFast */"

  const AnchorTable: seq<AnchorRule> := [
    AnchorRule("Home", "ManageAppsView.swift", "ManageAppsView.swift"),
    AnchorRule("Charts", "ChartModels.swift", "Presentation /* Presentation */"),
    AnchorRule("Auth", "Presentation /* Presentation */", "Presentation /* Presentation */"),
    AnchorRule("Data/Local", "Local /* Local */", "Local /* Local */"),
    AnchorRule("UseCase", "UseCase /* UseCase */", "UseCase /* UseCase */")
  ]

  function TableAnchor(rules: seq<AnchorRule>, path: string, content: string): string {
    if rules == [] then DefaultAnchor
    else if Contains(path, rules[0].key) then
      (if Contains(content, rules[0].preferred) then rules[0].preferred else rules[0].fallback)
    else TableAnchor(rules[1..], path, content)
  }

  /** The anchor as the script's if/elif chain picks it; it agrees with the table. */
  function Anchor(path: string, content: string): (marker: string)
    ensures marker == TableAnchor(AnchorTable, path, content)
  {
    assert AnchorTable[5..] == [];
    assert AnchorTable[4..][1..] == AnchorTable[5..];
    assert AnchorTable[3..][1..] == AnchorTable[4..];
    assert AnchorTable[2..][1..] == AnchorTable[3..];
    assert AnchorTable[1..][1..] == AnchorTable[2..];
    assert TableAnchor(AnchorTable[4..], path, content)
      == if Contains(path, "UseCase") then "UseCase /* UseCase */" else DefaultAnchor;
    assert TableAnchor(AnchorTable[3..], path, content)
      == if Contains(path, "Data/Local") then "Local /* Local */" else TableAnchor(AnchorTable[4..], path, content);
    assert TableAnchor(AnchorTable[2..], path, content)
      == if Contains(path, "Auth") then "Presentation /* Presentation */" else TableAnchor(AnchorTable[3..], path, content);
    if Contains(path, "Home") then "ManageAppsView.swift"
    else if Contains(path, "Charts") then
      (if Contains(content, "ChartModels.swift") then "ChartModels.swift" else "Presentation /* Presentation */")
    else if Contains(path, "Auth") then "Presentation /* Presentation */"
    else if Contains(path, "Data/Local") then "Local /* Local */"
    else if Contains(path, "UseCase") then "UseCase /* UseCase */"
    else DefaultAnchor
  }

  /** One iteration of the group pass: link the file after the line holding the
      first occurrence of its anchor; leave the text alone when the anchor or a
      newline after it is missing. */
  function GroupStep(c: string, e: FileEntry): string {
    var pos := Find(c, Anchor(e.path, c), 0);
    if pos == -1 then c
    else
      var nl := Find(c, "\n", pos);
      if nl == -1 then c else Splice(c, nl + 1, GroupLine(e))
  }

  /** The group pass over the entries in order, each on the text the previous one left. */
  function GroupPass(c: string, es: seq<FileEntry>): string {
    if es == [] then c else GroupStep(GroupPass(c, es[..|es| - 1]), es[|es| - 1])
  }

  /** The Sources pass: insert the Sources lines after the first `files = (`
      that follows the Sources phase marker; without either, nothing changes. */
  function SourcesPass(c: string, es: seq<FileEntry>): string {
    var sp := Find(c, SourcesMarker, 0);
    if sp == -1 then c
    else
      var fs := Find(c, FilesListMarker, sp);
      if fs == -1 then c else InsertAfterLine(c, fs, Block(es, SourceLine))
  }

  /** The file-reference and build-file passes: insert `block` after the line
      holding the first occurrence of `marker`; `None` when the text has no
      such marker, where the script prints an error and returns. */
  function SectionPass(c: string, marker: string, block: string): Option<string> {
    var pos := Find(c, marker, 0);
    if pos == -1 then None else Some(InsertAfterLine(c, pos, block))
  }

  /** The four insertion passes on the text `input`, once the entries to add
      are known: the file-reference and build-file passes stop the run when
      their section is missing; the group and Sources passes never do. */
  function Patch(input: string, es: seq<FileEntry>): Outcome {
    var refs := SectionPass(input, FileRefMarker, Block(es, ReferenceLine));
    if refs.None? then NoFileRefSection
    else
      var builds := SectionPass(refs.value, BuildFileMarker, Block(es, BuildLine));
      if builds.None? then NoBuildFileSection
      else Written(SourcesPass(GroupPass(builds.value, es), es))
  }

  /** A whole run of `add_files_to_project` on the text `input`. */
  function Run(md5: Md5, input: string, cands: seq<Candidate>): Outcome
    requires DistinctFileNames(cands)
  {
    var todo := Missing(input, cands);
    if todo == [] then AllPresent else Patch(input, Entries(md5, todo))
  }

  /** The loop that picks `files_to_process`: the candidates whose file name
      the text does not mention, in order. */
  method SelectMissing(content: string, cands: seq<Candidate>) returns (filesToProcess: seq<Candidate>)
    ensures filesToProcess == Missing(content, cands)
  {
    filesToProcess := [];
    for i := 0 to |cands|
      invariant filesToProcess == Missing(content, cands[..i])
    {
      var fileName := LastComponent(cands[i].path);
      if !Contains(content, fileName) {
        filesToProcess := filesToProcess + [cands[i]];
      }
      assert cands[..i + 1][..i] == cands[..i];
    }
    assert cands[..|cands|] == cands;
  }

  /** The loop that fills `file_refs` and `build_files`: both identifiers of
      every file to process, derived from its path. */
  method DeriveEntries(md5: Md5, filesToProcess: seq<Candidate>) returns (entries: seq<FileEntry>)
    ensures entries == Entries(md5, filesToProcess)
  {
    entries := [];
    for i := 0 to |filesToProcess|
      invariant entries == Entries(md5, filesToProcess[..i])
    {
      var c := filesToProcess[i];
      var fileRefId := GenerateId(md5, "fileref_" + c.path);
      var buildFileId := GenerateId(md5, "buildfile_" + c.path);
      entries := entries + [FileEntry(LastComponent(c.path), c.path, fileRefId, buildFileId)];
      assert filesToProcess[..i + 1][..i] == filesToProcess[..i];
    }
    assert filesToProcess[..|filesToProcess|] == filesToProcess;
  }

  /** The loop that formats one line per entry into a list, as each pass does
      before joining the list. */
  method RenderLines(es: seq<FileEntry>, line: FileEntry -> string) returns (lines: seq<string>)
    ensures lines == Render(es, line)
  {
    lines := [];
    for i := 0 to |es|
      invariant lines == Render(es[..i], line)
    {
      lines := lines + [line(es[i])];
      assert es[..i + 1][..i] == es[..i];
    }
    assert es[..|es|] == es;
  }

  /** `insert_pos = content.find("\n", start)` followed by
      `content[:insert_pos + 1] + block + content[insert_pos + 1:]`. */
  method SpliceAfterLine(content: string, start: nat, block: string) returns (r: string)
    ensures r == InsertAfterLine(content, start, block)
  {
    var insertPos := Find(content, "\n", start);
    r := Splice(content, insertPos + 1, block);
  }

  /** The group pass as the script runs it: for each entry in turn, find its
      anchor in the current text and splice its group line in after that line. */
  method LinkIntoGroups(text: string, entries: seq<FileEntry>) returns (content: string)
    ensures content == GroupPass(text, entries)
  {
    content := text;
    for i := 0 to |entries|
      invariant content == GroupPass(text, entries[..i])
    {
      var e := entries[i];
      var marker := Anchor(e.path, content);
      var pos := Find(content, marker, 0);
      if pos != -1 {
        var insertPos := Find(content, "\n", pos);
        if insertPos != -1 {
          content := Splice(content, insertPos + 1, GroupLine(e));
        }
      }
      assert entries[..i + 1][..i] == entries[..i];
    }
    assert entries[..|entries|] == entries;
  }

  /** The file-reference or build-file pass as the script runs it: find the
      section marker, format one line per entry, and splice the joined lines in
      after the marker's line; `None` where the script reports a missing section
      and returns. */
  method LinkIntoSection(text: string, marker: string, entries: seq<FileEntry>, line: FileEntry -> string)
    returns (r: Option<string>)
    ensures r == SectionPass(text, marker, Block(entries, line))
  {
    var pos := Find(text, marker, 0);
    if pos == -1 {
      return None;
    }
    var lines := RenderLines(entries, line);
    var content := SpliceAfterLine(text, pos, Join(lines));
    return Some(content);
  }

  /** The Sources pass as the script runs it: find the Sources phase, then its
      `files = (` list, and splice the Sources lines in after that line. */
  method LinkIntoSources(text: string, entries: seq<FileEntry>) returns (content: string)
    ensures content == SourcesPass(text, entries)
  {
    content := text;
    var sourcesPos := Find(content, SourcesMarker, 0);
    if sourcesPos != -1 {
      var filesStart := Find(content, FilesListMarker, sourcesPos);
      if filesStart != -1 {
        var sourceEntries := RenderLines(entries, SourceLine);
        content := SpliceAfterLine(content, filesStart, Join(sourceEntries));
      }
    }
  }

  /** `add_files_to_project` without its file read and write: `input` is what
      it reads, and the outcome says whether and what it writes. */
  method AddFilesToProject(md5: Md5, input: string, cands: seq<Candidate>) returns (o: Outcome)
    requires DistinctFileNames(cands)
    ensures o == Run(md5, input, cands)
  {
    var content := input;

    var filesToProcess := SelectMissing(content, cands);
    if filesToProcess == [] {
      return AllPresent;
    }
    var entries := DeriveEntries(md5, filesToProcess);

    var afterRefs := LinkIntoSection(content, FileRefMarker, entries, ReferenceLine);
    if afterRefs.None? {
      return NoFileRefSection;
    }
    content := afterRefs.value;

    var afterBuilds := LinkIntoSection(content, BuildFileMarker, entries, BuildLine);
    if afterBuilds.None? {
      return NoBuildFileSection;
    }
    content := afterBuilds.value;

    content := LinkIntoGroups(content, entries);

    content := LinkIntoSources(content, entries);
    assert Patch(input, entries) == Written(content);
    return Written(content);
  }
}
