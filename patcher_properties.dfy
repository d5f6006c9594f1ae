/**
  What the manifest patcher guarantees: which runs leave the file alone, that
  the inserted lines never break up the text around them, that the lines of
  one file carry the same identifiers, how the group and Sources passes
  behave when an anchor is missing, and that a second run changes nothing.
*/
module PatcherProperties {
  import opened Text
  import opened XcodeIds
  import opened ManifestPatcher

  /** No candidate path holds a newline (the script's hard-coded list has none). */
  predicate SingleLinePaths(cands: seq<Candidate>) {
    forall c | c in cands :: '\n' !in c.path
  }

  predicate SingleLineEntry(e: FileEntry) {
    '\n' !in e.name && '\n' !in e.refId && '\n' !in e.buildId
  }

  /** The entries derived from single-line paths are single-line, and their
      identifiers are well-formed object identifiers. */
  lemma EntriesAreSingleLine(md5: Md5, todo: seq<Candidate>, k: nat)
    requires SingleLinePaths(todo) && k < |todo|
    ensures SingleLineEntry(Entries(md5, todo)[k])
    ensures IsObjectId(Entries(md5, todo)[k].refId) && IsObjectId(Entries(md5, todo)[k].buildId)
  {
    var e := Entries(md5, todo)[k];
    assert todo[k] in todo;
    LastComponentHasNoNewline(todo[k].path);
    ObjectIdHasNoNewline(e.refId);
    ObjectIdHasNoNewline(e.buildId);
  }

  /** The fixed parts of the formats hold no newline but the one that ends each line. */
  lemma ReferencePartsAreSingleLine()
    ensures '\n' !in RefLead && NoInnerNewline(RefTrail)
  {
    assert '\n' !in " */ = {isa = PBXFileReference; ";
    assert '\n' !in "lastKnownFileType = sourcecode.swift; ";
    LineOfNewlineFree(" sourceTree = \"<group>\"; };");
    assert RefTrail == " sourceTree = \"<group>\"; };" + "\n";
  }

  lemma BuildPartsAreSingleLine()
    ensures '\n' !in BuildLead && NoInnerNewline(BuildTrail)
  {
    assert '\n' !in " in Sources */ = {isa = PBXBuildFile; ";
    LineOfNewlineFree("; };");
    assert BuildTrail == "; };" + "\n";
  }

  lemma ChildPartsAreSingleLine()
    ensures NoInnerNewline(GroupTrail) && NoInnerNewline(SourceTrail)
  {
    LineOfNewlineFree(" */,");
    assert GroupTrail == " */," + "\n";
    LineOfNewlineFree(" in Sources */,");
    assert SourceTrail == " in Sources */," + "\n";
  }

  /** Each of the four formats is one line. */
  lemma LinesAreSingleLines(e: FileEntry)
    requires SingleLineEntry(e)
    ensures NoInnerNewline(ReferenceLine(e)) && NoInnerNewline(BuildLine(e))
    ensures NoInnerNewline(GroupLine(e)) && NoInnerNewline(SourceLine(e))
  {
    ReferencePartsAreSingleLine();
    BuildPartsAreSingleLine();
    ChildPartsAreSingleLine();
    assert '\n' !in "\t\t" && '\n' !in "\t\t\t\t" && '\n' !in " /* ";
    assert '\n' !in "path = " && '\n' !in ";" && '\n' !in "fileRef = " && '\n' !in " */";
    LineAfterNewlineFree("\t\t" + e.refId + " /* " + e.name + RefLead + PathField(e), RefTrail);
    LineAfterNewlineFree("\t\t" + e.buildId + " /* " + e.name + BuildLead + FileRefField(e), BuildTrail);
    LineAfterNewlineFree("\t\t\t\t" + e.refId + " /* " + e.name, GroupTrail);
    LineAfterNewlineFree("\t\t\t\t" + e.buildId + " /* " + e.name, SourceTrail);
  }

  /** In the reference line the file-reference id follows the indentation,
      and the file name is the line's path. */
  lemma ReferenceLineFields(e: FileEntry)
    ensures OccursAt(ReferenceLine(e), e.refId, 2)
    ensures Contains(ReferenceLine(e), PathField(e)) && Contains(ReferenceLine(e), e.name)
  {
    var line := ReferenceLine(e);
    var head := "\t\t" + e.refId + " /* " + e.name + RefLead;
    assert line == head + PathField(e) + RefTrail;
    OccursBetween(head, PathField(e), RefTrail);
    assert line[2..2 + |e.refId|] == head[2..2 + |e.refId|] == e.refId;
    OccursBetween("path = ", e.name, ";");
    ContainsTransitive(line, PathField(e), e.name);
  }

  /** In the build line the build id follows the indentation, and the line
      refers to the file's reference id and name. */
  lemma BuildLineFields(e: FileEntry)
    ensures OccursAt(BuildLine(e), e.buildId, 2)
    ensures Contains(BuildLine(e), FileRefField(e))
  {
    var line := BuildLine(e);
    var head := "\t\t" + e.buildId + " /* " + e.name + BuildLead;
    assert line == head + FileRefField(e) + BuildTrail;
    OccursBetween(head, FileRefField(e), BuildTrail);
    assert line[2..2 + |e.buildId|] == head[2..2 + |e.buildId|] == e.buildId;
  }

  /** The group line opens with the file-reference id and the Sources line
      with the build id, after four tabs. */
  lemma ChildLineFields(e: FileEntry)
    ensures OccursAt(GroupLine(e), e.refId, 4)
    ensures OccursAt(SourceLine(e), e.buildId, 4)
  {
    assert GroupLine(e) == "\t\t\t\t" + e.refId + (" /* " + e.name + GroupTrail);
    OccursBetween("\t\t\t\t", e.refId, " /* " + e.name + GroupTrail);
    assert SourceLine(e) == "\t\t\t\t" + e.buildId + (" /* " + e.name + SourceTrail);
    OccursBetween("\t\t\t\t", e.buildId, " /* " + e.name + SourceTrail);
  }

  /** The block of a pass holds the line of every entry. */
  lemma BlockHoldsLine(es: seq<FileEntry>, line: FileEntry -> string, k: nat)
    requires k < |es|
    ensures Contains(Block(es, line), line(es[k]))
  {
    JoinContainsPart(Render(es, line), k);
  }

  /** A text holds whatever was just inserted into it. */
  lemma InsertedBlockIsThere(s: string, start: nat, block: string)
    ensures Contains(InsertAfterLine(s, start, block), block)
  {
    assert OccursAt(InsertAfterLine(s, start, block), block, LineEnd(s, start));
  }

  /** The file-reference and build-file passes: they fail exactly when the
      marker is missing; otherwise the result holds the block, is as long as
      the text and the block together, and keeps every line of the text. */
  lemma SectionPassInsertsOrFails(c: string, marker: string, block: string)
    ensures SectionPass(c, marker, block).None? <==> !Contains(c, marker)
    ensures SectionPass(c, marker, block).Some? ==>
      var r := SectionPass(c, marker, block).value;
      && |r| == |c| + |block|
      && Contains(r, block)
      && KeepsLines(c, r)
  {
    FindFromStart(c, marker);
    var pos := Find(c, marker, 0);
    if pos != -1 {
      InsertedBlockIsThere(c, pos, block);
      InsertAfterLineKeepsLines(c, pos, block);
    }
  }

  /** One step of the group pass: without the anchor, or without a newline
      after it, the text is unchanged; otherwise the group line is spliced in
      at the start of the line after the one holding the anchor, and removing
      it gives back the text. */
  lemma GroupStepLinksOrSkips(c: string, e: FileEntry)
    ensures !Contains(c, Anchor(e.path, c)) ==> GroupStep(c, e) == c
    ensures var pos := Find(c, Anchor(e.path, c), 0);
      pos != -1 && Find(c, "\n", pos) == -1 ==> GroupStep(c, e) == c
    ensures var pos := Find(c, Anchor(e.path, c), 0);
      var r, g := GroupStep(c, e), GroupLine(e);
      pos != -1 && Find(c, "\n", pos) != -1 ==>
        var at := LineEnd(c, pos);
        && pos < at && AtLineStart(c, at)
        && |r| == |c| + |g| && r[at..at + |g|] == g && r[..at] + r[at + |g|..] == c
    ensures KeepsLines(c, GroupStep(c, e))
  {
    FindFromStart(c, Anchor(e.path, c));
    var pos := Find(c, Anchor(e.path, c), 0);
    if pos != -1 {
      var nl := Find(c, "\n", pos);
      if nl != -1 {
        assert LineEnd(c, pos) == nl + 1;
        SpliceKeepsLines(c, nl + 1, GroupLine(e));
      }
    }
  }

  /** The whole group pass keeps every line of the text it starts from. */
  lemma {:induction false} GroupPassKeepsLines(c: string, es: seq<FileEntry>)
    ensures KeepsLines(c, GroupPass(c, es))
  {
    if es != [] {
      var init := es[..|es| - 1];
      GroupPassKeepsLines(c, init);
      GroupStepLinksOrSkips(GroupPass(c, init), es[|es| - 1]);
      KeepsLinesTransitive(c, GroupPass(c, init), GroupPass(c, es));
    }
  }

  /** The group step for `e` finds its anchor in `m`, and a newline after it. */
  predicate AnchorLineFound(m: string, e: FileEntry) {
    var pos := Find(m, Anchor(e.path, m), 0);
    pos != -1 && Find(m, "\n", pos) != -1
  }

  /** The Sources pass finds the Sources phase marker in `g`, and a `files = (` after it. */
  predicate SourcesListFound(g: string) {
    var sp := Find(g, SourcesMarker, 0);
    sp != -1 && Find(g, FilesListMarker, sp) != -1
  }

  /** An entry whose anchor line is found in the text its group step sees has
      its group line in the result of the whole group pass: the later steps
      only insert whole lines. */
  lemma {:induction false} GroupPassLinksEntry(c: string, es: seq<FileEntry>, k: nat)
    requires k < |es| && SingleLineEntry(es[k])
    requires AnchorLineFound(GroupPass(c, es[..k]), es[k])
    ensures Contains(GroupPass(c, es), GroupLine(es[k]))
  {
    var init, last := es[..|es| - 1], es[|es| - 1];
    assert GroupPass(c, es) == GroupStep(GroupPass(c, init), last);
    if k == |es| - 1 {
      var m := GroupPass(c, init);
      assert init == es[..k];
      GroupStepLinksOrSkips(m, last);
      var at := LineEnd(m, Find(m, Anchor(last.path, m), 0));
      assert OccursAt(GroupPass(c, es), GroupLine(last), at);
    } else {
      assert init[..k] == es[..k] && init[k] == es[k];
      GroupPassLinksEntry(c, init, k);
      GroupStepLinksOrSkips(GroupPass(c, init), last);
      LinesAreSingleLines(es[k]);
    }
  }

  /** The Sources pass: without the Sources phase marker, or without a
      `files = (` after it, nothing is inserted; otherwise every Sources line
      is in the result, the block sits right after the line holding that
      `files = (`, and removing it gives back the text. */
  lemma SourcesPassInsertsOrSkips(c: string, es: seq<FileEntry>)
    ensures !Contains(c, SourcesMarker) ==> SourcesPass(c, es) == c
    ensures var sp := Find(c, SourcesMarker, 0);
      sp != -1 && Find(c, FilesListMarker, sp) == -1 ==> SourcesPass(c, es) == c
    ensures var sp := Find(c, SourcesMarker, 0);
      var r, b := SourcesPass(c, es), Block(es, SourceLine);
      sp != -1 && Find(c, FilesListMarker, sp) != -1 ==>
        var fs := Find(c, FilesListMarker, sp);
        && sp <= fs
        && |r| == |c| + |b|
        && r[LineEnd(c, fs)..LineEnd(c, fs) + |b|] == b
        && r[..LineEnd(c, fs)] + r[LineEnd(c, fs) + |b|..] == c
        && forall k | 0 <= k < |es| :: Contains(r, SourceLine(es[k]))
    ensures KeepsLines(c, SourcesPass(c, es))
  {
    FindFromStart(c, SourcesMarker);
    var sp := Find(c, SourcesMarker, 0);
    if sp != -1 {
      var fs := Find(c, FilesListMarker, sp);
      if fs != -1 {
        var b := Block(es, SourceLine);
        InsertAfterLineKeepsLines(c, fs, b);
        InsertedBlockIsThere(c, fs, b);
        forall k | 0 <= k < |es| ensures Contains(SourcesPass(c, es), SourceLine(es[k])) {
          BlockHoldsLine(es, SourceLine, k);
          ContainsTransitive(SourcesPass(c, es), b, SourceLine(es[k]));
        }
      }
    }
  }

  /** The reference block is empty or ends with the newline of its last line. */
  lemma ReferenceBlockEndsLine(es: seq<FileEntry>)
    ensures EndsLine(Block(es, ReferenceLine))
  {
    if es != [] {
      var parts, e := Render(es, ReferenceLine), es[|es| - 1];
      assert Join(parts) == Join(parts[..|parts| - 1]) + ReferenceLine(e);
      assert ReferenceLine(e) == "\t\t" + e.refId + " /* " + e.name + RefLead + PathField(e) + RefTrail;
    }
  }

  /** The passes once the entries are known: the run stops at the file-reference
      pass exactly when its marker is missing; it stops at the build-file pass
      exactly when that marker is missing from the input and from the new
      reference lines; it writes whenever both markers are present. */
  lemma PatchOutcome(input: string, es: seq<FileEntry>)
    ensures Patch(input, es) == NoFileRefSection <==> !Contains(input, FileRefMarker)
    // The build-file marker is looked up in the text after the reference pass.
    // A missing file named `Begin PBXBuildFile section` puts the marker into
    // its own reference line, whose format writes `/* name */`, and the search
    // finds it there even when the input lacks it.
    ensures Patch(input, es) == NoBuildFileSection
        <==> (Contains(input, FileRefMarker) && !Contains(input, BuildFileMarker)
              && !Contains(Block(es, ReferenceLine), BuildFileMarker))
    ensures Contains(input, FileRefMarker) && Contains(input, BuildFileMarker) ==> Patch(input, es).Written?
    ensures Patch(input, es) != AllPresent
  {
    var refBlock := Block(es, ReferenceLine);
    var refs := SectionPass(input, FileRefMarker, refBlock);
    SectionPassInsertsOrFails(input, FileRefMarker, refBlock);
    if refs.Some? {
      var c1 := refs.value;
      SectionPassInsertsOrFails(c1, BuildFileMarker, Block(es, BuildLine));
      if Contains(input, BuildFileMarker) {
        // the input's marker line survives the reference pass
        LineOfNewlineFree(BuildFileMarker);
        assert Contains(c1, BuildFileMarker);
      } else if Contains(refBlock, BuildFileMarker) {
        ContainsTransitive(c1, refBlock, BuildFileMarker);
      } else {
        ReferenceBlockEndsLine(es);
        SpliceCreatesNoWord(input, LineEnd(input, Find(input, FileRefMarker, 0)), refBlock, BuildFileMarker);
      }
    }
  }

  /** What the passes write keeps every line of their input. */
  lemma PatchKeepsInput(input: string, es: seq<FileEntry>)
    requires Patch(input, es).Written?
    ensures KeepsLines(input, Patch(input, es).text)
  {
    var c1 := SectionPass(input, FileRefMarker, Block(es, ReferenceLine)).value;
    var c2 := SectionPass(c1, BuildFileMarker, Block(es, BuildLine)).value;
    var t := Patch(input, es).text;
    SectionPassInsertsOrFails(input, FileRefMarker, Block(es, ReferenceLine));
    SectionPassInsertsOrFails(c1, BuildFileMarker, Block(es, BuildLine));
    GroupPassKeepsLines(c2, es);
    SourcesPassInsertsOrSkips(GroupPass(c2, es), es);
    KeepsLinesTransitive(c2, GroupPass(c2, es), t);
    KeepsLinesTransitive(c1, c2, t);
    KeepsLinesTransitive(input, c1, t);
  }

  /** A written text holds the reference line and the build line of every
      entry, and with them the entry's path field, its name and the build
      line's reference to the file-reference identifier. */
  lemma PatchRegistersEntry(input: string, es: seq<FileEntry>, k: nat)
    requires Patch(input, es).Written? && k < |es| && SingleLineEntry(es[k])
    ensures var t, e := Patch(input, es).text, es[k];
      && Contains(t, ReferenceLine(e))
      && Contains(t, BuildLine(e))
      && Contains(t, FileRefField(e))
      && Contains(t, PathField(e))
      && Contains(t, e.name)
  {
    var e := es[k];
    var t := Patch(input, es).text;
    LinesAreSingleLines(e);
    ReferenceLineFields(e);
    BuildLineFields(e);
    var refs := SectionPass(input, FileRefMarker, Block(es, ReferenceLine));
    var c1 := refs.value;
    var c2 := SectionPass(c1, BuildFileMarker, Block(es, BuildLine)).value;
    SectionPassInsertsOrFails(input, FileRefMarker, Block(es, ReferenceLine));
    SectionPassInsertsOrFails(c1, BuildFileMarker, Block(es, BuildLine));
    GroupPassKeepsLines(c2, es);
    SourcesPassInsertsOrSkips(GroupPass(c2, es), es);
    KeepsLinesTransitive(c2, GroupPass(c2, es), t);
    KeepsLinesTransitive(c1, c2, t);

    // the reference line is in the first pass's block, and survives the rest
    BlockHoldsLine(es, ReferenceLine, k);
    ContainsTransitive(c1, Block(es, ReferenceLine), ReferenceLine(e));
    ContainsTransitive(t, ReferenceLine(e), PathField(e));
    ContainsTransitive(t, ReferenceLine(e), e.name);

    // the build line is in the second pass's block, and survives the rest
    BlockHoldsLine(es, BuildLine, k);
    ContainsTransitive(c2, Block(es, BuildLine), BuildLine(e));
    ContainsTransitive(t, BuildLine(e), FileRefField(e));
  }

  /** The text a writing run hands to its group pass: the input after the
      file-reference and build-file passes. */
  function AfterSections(input: string, es: seq<FileEntry>): (c2: string)
    requires Patch(input, es).Written?
    ensures Patch(input, es) == Written(SourcesPass(GroupPass(c2, es), es))
    ensures KeepsLines(input, c2)
  {
    var c1 := SectionPass(input, FileRefMarker, Block(es, ReferenceLine)).value;
    SectionPassInsertsOrFails(input, FileRefMarker, Block(es, ReferenceLine));
    SectionPassInsertsOrFails(c1, BuildFileMarker, Block(es, BuildLine));
    var c2 := SectionPass(c1, BuildFileMarker, Block(es, BuildLine)).value;
    KeepsLinesTransitive(input, c1, c2);
    c2
  }

  /** After the group and Sources passes on `c2`, the text holds an entry's
      group line when its anchor line was found during the group pass, and
      its Sources line when the Sources pass found its list: the two lines
      that carry the ids into the group tree and the build phase. */
  lemma LaterPassesLinkEntry(c2: string, es: seq<FileEntry>, k: nat)
    requires k < |es| && SingleLineEntry(es[k])
    ensures var t := SourcesPass(GroupPass(c2, es), es);
      && (AnchorLineFound(GroupPass(c2, es[..k]), es[k]) ==> Contains(t, GroupLine(es[k])))
      && (SourcesListFound(GroupPass(c2, es)) ==> Contains(t, SourceLine(es[k])))
  {
    var g := GroupPass(c2, es);
    SourcesPassInsertsOrSkips(g, es);
    if AnchorLineFound(GroupPass(c2, es[..k]), es[k]) {
      GroupPassLinksEntry(c2, es, k);
      LinesAreSingleLines(es[k]);
    }
  }

  /** A run that gets past the selection is the passes on the derived entries. */
  lemma RunIsPatch(md5: Md5, input: string, cands: seq<Candidate>)
    requires DistinctFileNames(cands)
    ensures Missing(input, cands) == [] ==> Run(md5, input, cands) == AllPresent
    ensures Missing(input, cands) != [] ==>
      Run(md5, input, cands) == Patch(input, Entries(md5, Missing(input, cands)))
  {
  }

  /** The runs that return before writing leave the file as it was: when every
      file name is already mentioned, when the file-reference section marker
      is missing, and exactly when the build-file section marker is missing
      from the input and from the new reference lines. A run with a file to add and
      both section markers writes. */
  lemma EarlyExitsLeaveFileUnchanged(md5: Md5, input: string, cands: seq<Candidate>)
    requires DistinctFileNames(cands)
    ensures Run(md5, input, cands) == AllPresent
        <==> forall c | c in cands :: Contains(input, FileName(c))
    ensures Run(md5, input, cands) == NoFileRefSection
        <==> (exists c | c in cands :: !Contains(input, FileName(c))) && !Contains(input, FileRefMarker)
    ensures Run(md5, input, cands) == NoBuildFileSection
        <==> ((exists c | c in cands :: !Contains(input, FileName(c)))
              && Contains(input, FileRefMarker) && !Contains(input, BuildFileMarker)
              && !Contains(Block(Entries(md5, Missing(input, cands)), ReferenceLine), BuildFileMarker))
    ensures (exists c | c in cands :: !Contains(input, FileName(c)))
        && Contains(input, FileRefMarker) && Contains(input, BuildFileMarker)
        ==> Run(md5, input, cands).Written?
    ensures !Run(md5, input, cands).Written? ==> FileAfter(input, Run(md5, input, cands)) == input
  {
    var todo := Missing(input, cands);
    RunIsPatch(md5, input, cands);
    if todo != [] {
      assert todo[0] in todo;
      PatchOutcome(input, Entries(md5, todo));
    }
  }

  /** A run that writes keeps every line of its input. */
  lemma WrittenKeepsInput(md5: Md5, input: string, cands: seq<Candidate>)
    requires DistinctFileNames(cands)
    requires Run(md5, input, cands).Written?
    ensures KeepsLines(input, Run(md5, input, cands).text)
  {
    RunIsPatch(md5, input, cands);
    PatchKeepsInput(input, Entries(md5, Missing(input, cands)));
  }

  /** Every file a writing run processes gets its reference line and its build
      line, both carrying identifiers derived from its path alone; the build
      line refers to the reference line's identifier, and the file name is in
      the written text. */
  lemma WrittenRegistersEveryFile(md5: Md5, input: string, cands: seq<Candidate>, k: nat)
    requires DistinctFileNames(cands) && SingleLinePaths(cands)
    requires Run(md5, input, cands).Written?
    requires k < |Missing(input, cands)|
    ensures var c, e, t := Missing(input, cands)[k], Entries(md5, Missing(input, cands))[k], Run(md5, input, cands).text;
      && e.name == FileName(c)
      && e.refId == GenerateId(md5, "fileref_" + c.path)
      && e.buildId == GenerateId(md5, "buildfile_" + c.path)
      && IsObjectId(e.refId) && IsObjectId(e.buildId)
      && Contains(t, ReferenceLine(e))
      && Contains(t, BuildLine(e))
      && Contains(t, FileRefField(e))
      && Contains(t, e.name)
  {
    var todo := Missing(input, cands);
    var es := Entries(md5, todo);
    assert forall c | c in todo :: c in cands;
    EntriesAreSingleLine(md5, todo, k);
    RunIsPatch(md5, input, cands);
    PatchRegistersEntry(input, es, k);
  }

  /** Every file a writing run processes gets its group line, opening with
      its file-reference id, when the group pass finds its anchor line, and
      its Sources line, opening with its build id, when the Sources pass finds
      its list. */
  lemma WrittenLinksEveryFile(md5: Md5, input: string, cands: seq<Candidate>, k: nat)
    requires DistinctFileNames(cands) && SingleLinePaths(cands)
    requires Run(md5, input, cands).Written?
    requires k < |Missing(input, cands)|
    ensures var es := Entries(md5, Missing(input, cands));
      var c2, t := AfterSections(input, es), Run(md5, input, cands).text;
      && OccursAt(GroupLine(es[k]), es[k].refId, 4)
      && OccursAt(SourceLine(es[k]), es[k].buildId, 4)
      && (AnchorLineFound(GroupPass(c2, es[..k]), es[k]) ==> Contains(t, GroupLine(es[k])))
      && (SourcesListFound(GroupPass(c2, es)) ==> Contains(t, SourceLine(es[k])))
  {
    var todo := Missing(input, cands);
    var es := Entries(md5, todo);
    assert forall c | c in todo :: c in cands;
    EntriesAreSingleLine(md5, todo, k);
    RunIsPatch(md5, input, cands);
    ChildLineFields(es[k]);
    LaterPassesLinkEntry(AfterSections(input, es), es, k);
  }

  /** After a run that writes, every candidate's file name is in the text:
      those already mentioned stay, the added ones arrive with their lines. */
  lemma WrittenMentionsEveryCandidate(md5: Md5, input: string, cands: seq<Candidate>)
    requires DistinctFileNames(cands) && SingleLinePaths(cands)
    requires Run(md5, input, cands).Written?
    ensures forall c | c in cands :: Contains(Run(md5, input, cands).text, FileName(c))
  {
    var t := Run(md5, input, cands).text;
    var todo := Missing(input, cands);
    WrittenKeepsInput(md5, input, cands);
    forall c | c in cands ensures Contains(t, FileName(c)) {
      if c in todo {
        var k :| 0 <= k < |todo| && todo[k] == c;
        WrittenRegistersEveryFile(md5, input, cands, k);
      } else {
        LastComponentHasNoNewline(c.path);
        LineOfNewlineFree(FileName(c));
      }
    }
  }

  /** Idempotence: after a run, every candidate's file name is in the file, so
      a second run on the file returns before writing and the file stays as
      the first run left it. */
  lemma SecondRunChangesNothing(md5: Md5, input: string, cands: seq<Candidate>)
    requires DistinctFileNames(cands) && SingleLinePaths(cands)
    ensures var once := FileAfter(input, Run(md5, input, cands));
      FileAfter(once, Run(md5, once, cands)) == once
    ensures Run(md5, input, cands).Written? ==>
      Run(md5, Run(md5, input, cands).text, cands) == AllPresent
  {
    var o := Run(md5, input, cands);
    EarlyExitsLeaveFileUnchanged(md5, input, cands);
    if o.Written? {
      WrittenMentionsEveryCandidate(md5, input, cands);
      EarlyExitsLeaveFileUnchanged(md5, o.text, cands);
    }
  }
}
