# Xcode manifest patcher, modelled in Dafny

`add_files_to_xcode.py` registers Swift source files in an Xcode
`project.pbxproj`. It reads the manifest text and takes a list of candidate
`(path, group)` pairs. For every candidate whose file name (the last
`/`-component of its path) does not occur in the text, it splices up to four
lines into the text:

- a `PBXFileReference` line after the file-reference section marker;
- a `PBXBuildFile` line after the build-file section marker;
- a group-children line after the line holding a group anchor, chosen by a
  fixed priority table, when the anchor and a newline after it are found;
- a Sources build-phase line after the `files = (` that follows the Sources
  phase marker, when both are found.

Each file gets two identifiers, derived by `generate_id` from its path: the
MD5 digest of `"fileref_" + path` and of `"buildfile_" + path`, cut to 24
hex digits and upper-cased. The script returns before writing when no file
is missing, when the file-reference section marker is missing, or when the
build-file section marker is missing from the text once the reference lines
are in. Otherwise it writes the patched text back.

The project has four modules:

- `Text` (`text.dfy`) models the Python string primitives the script uses:
  `str.find`, `in`, the splice `s[:p] + block + s[p:]`, `''.join` and
  `split('/')[-1]`.
- `XcodeIds` (`xcode_ids.dfy`) models `generate_id`. MD5 is a function
  parameter whose only promise is a 32-digit lower-case hex digest.
- `ManifestPatcher` (`manifest_patcher.dfy`) holds the specification
  functions. `Run` gives the outcome of one call, and `FileAfter` gives the
  text on disk afterwards. It also holds `AddFilesToProject`, the script's
  body written as methods whose loops reassign `content`, and proves that
  method equal to `Run`.
- `PatcherProperties` (`patcher_properties.dfy`) proves what the script
  promises:
  - the early returns leave the file alone;
  - each splice only adds its block;
  - the lines of one file share its identifiers;
  - a missing group anchor or Sources list means a skip, not a failure;
  - a second run changes nothing.

Three behaviours of the code shape the model:

- **Early returns.** A missing section marker makes the script return before
  writing (lines 63-65 and 81-83), so the file keeps its old text. The model
  has the outcomes `NoFileRefSection` and `NoBuildFileSection`, and
  `FileAfter` keeps the input text for both. The build-file marker is looked
  up after the reference lines went in (line 80). A missing file named
  `Begin PBXBuildFile section` puts the marker into its own reference line,
  since line 73 writes `/* {filename} */`, and the search at line 80 finds it
  there. The second return happens exactly when the marker is in neither the
  input nor the new reference lines.
- **Group anchor.** The group anchor is chosen by testing the file path
  (lines 104-117); the group path is never read.
- **Sources pass.** `files = (` is searched for only after the Sources phase
  marker (lines 129-133). When either is missing, the pass is skipped and
  the text is still written.

## Model

| member | source | states |
|---|---|---|
| Text.Find | add_files_to_xcode.py:62 | `s.find(w, start)`: -1 exactly when `w` occurs nowhere at or after `start`; otherwise an occurrence at or after `start`, with none before it |
| Text.FindFromStart | add_files_to_xcode.py:40 | `w in s` holds exactly when `s.find(w)` is not -1 |
| Text.Splice | add_files_to_xcode.py:76 | the splice grows the text by the block's length; the block sits at the splice point; removing it gives back the text exactly |
| Text.SpliceAtStart | add_files_to_xcode.py:68-76 | a splice at position 0 (`find` gave -1) prepends the block to the whole text |
| Text.JoinContainsPart | add_files_to_xcode.py:76 | every joined part occurs in the joined block |
| Text.LastComponentIsLastSegment | add_files_to_xcode.py:39 | `path.split('/')[-1]` holds no '/', is a suffix of the path, and is either the whole path or preceded by a '/' |
| Text.SpliceKeepsLines | add_files_to_xcode.py:76 | splicing at the start of a line keeps every line-shaped word of the text |
| Text.SpliceCreatesNoWord | add_files_to_xcode.py:76-80 | splicing a block that ends a line in at the start of a line creates no occurrence of a newline-free word that neither the text nor the block holds |
| Text.Contains | add_files_to_xcode.py:40 | `w in s`: `w` occurs in `s` at some index |
| Text.Join | add_files_to_xcode.py:76 | `''.join(parts)`: the parts concatenated in order, the empty text for no parts |
| Text.LastComponent | add_files_to_xcode.py:39 | `path.split('/')[-1]`, built from the end of the path up to its last '/'; `LastComponentIsLastSegment` pins it down |
| XcodeIds.ToUpper | add_files_to_xcode.py:28 | `upper()` applied character by character, mapping `a`-`z` to `A`-`Z` and keeping every other character |
| XcodeIds.GenerateId | add_files_to_xcode.py:25-28 | the id is exactly 24 characters from 0-9A-F; it depends on the seed alone and lower-cases back to the first 24 digits of the seed's MD5 hex digest |
| ManifestPatcher.FileName | add_files_to_xcode.py:39 | a candidate's file name, the key the script tests for and files its entries under: the last '/'-component of its path |
| ManifestPatcher.Missing | add_files_to_xcode.py:37-44 | a candidate is scheduled exactly when its file name does not occur in the text; no more candidates than given |
| ManifestPatcher.Entries | add_files_to_xcode.py:51-58 | one entry per scheduled file, in order, holding its file name, its path and both identifiers derived from that path |
| ManifestPatcher.MakeEntry | add_files_to_xcode.py:55-58 | one file's entry: its file name, its path, and the ids `generate_id` gives for `"fileref_" + path` and `"buildfile_" + path` |
| ManifestPatcher.ReferenceLine | add_files_to_xcode.py:73 | the `PBXFileReference` f-string, character for character: two tabs, the reference id, the name in a comment, `isa`, `lastKnownFileType`, `path = name;`, `sourceTree`, and a newline |
| ManifestPatcher.BuildLine | add_files_to_xcode.py:89 | the `PBXBuildFile` f-string, character for character: two tabs, the build id, `name in Sources` in a comment, `isa`, `fileRef = refId /* name */`, and a newline |
| ManifestPatcher.GroupLine | add_files_to_xcode.py:124 | the group-children f-string: four tabs, the reference id, the name in a comment, a comma and a newline |
| ManifestPatcher.SourceLine | add_files_to_xcode.py:138 | the Sources f-string: four tabs, the build id, `name in Sources` in a comment, a comma and a newline |
| ManifestPatcher.Render | add_files_to_xcode.py:70-74 | the entry lists hold one formatted line per entry, in entry order |
| ManifestPatcher.LineEnd | add_files_to_xcode.py:68 | `find("\n", start) + 1` is a line start: 0 exactly when no newline follows `start`, else just past the first newline after `start` |
| ManifestPatcher.InsertAfterLine | add_files_to_xcode.py:68-76 | the block goes in at the start of the line after the one holding `start`; it is prepended when no newline follows; removing it gives back the text; the length grows by the block's |
| ManifestPatcher.InsertAfterLineKeepsLines | add_files_to_xcode.py:76 | an insertion after a line keeps every line of the text |
| ManifestPatcher.Anchor | add_files_to_xcode.py:104-117 | the if/elif chain picks the same anchor as the priority table: Home, Charts (ChartModels.swift when present, else Presentation), Auth, Data/Local, UseCase, else ThinkFast |
| ManifestPatcher.GroupStep | add_files_to_xcode.py:104-125 | one iteration of the group loop: the anchor for the file's path, its first occurrence in the current text, and the group line spliced in after that line; the text unchanged without the anchor or a newline after it |
| ManifestPatcher.GroupPass | add_files_to_xcode.py:96-125 | the group loop: one `GroupStep` per entry, in entry order, each on the text the previous one left |
| ManifestPatcher.SourcesPass | add_files_to_xcode.py:128-141 | the Sources pass: the Sources lines inserted after the line of the first `files = (` following the Sources phase marker; the text unchanged without either |
| ManifestPatcher.SectionPass | add_files_to_xcode.py:61-92 | the file-reference or build-file pass: `None` when the marker is absent (the early return), else the block inserted after the marker's line |
| ManifestPatcher.Patch | add_files_to_xcode.py:60-141 | the four passes in source order on the entries: the reference pass, then the build pass on its result, each able to stop the run, then the group and Sources passes, which never do |
| ManifestPatcher.Run | add_files_to_xcode.py:30-147 | one call of `add_files_to_project` on the text read: `AllPresent` when no candidate is missing, else the passes on the entries of the missing candidates |
| ManifestPatcher.FileAfter | add_files_to_xcode.py:144-145 | the manifest on disk after a run: the written text when the run writes, the text as read after every early return |
| ManifestPatcher.SelectMissing | add_files_to_xcode.py:37-44 | the selection loop computes `Missing` |
| ManifestPatcher.DeriveEntries | add_files_to_xcode.py:54-58 | the id loop computes `Entries` |
| ManifestPatcher.RenderLines | add_files_to_xcode.py:70-74 | the list-building loops compute `Render` |
| ManifestPatcher.SpliceAfterLine | add_files_to_xcode.py:68-76 | the `find` and splice compute `InsertAfterLine` |
| ManifestPatcher.LinkIntoSection | add_files_to_xcode.py:61-92 | the file-reference or build-file pass gives `None` on a missing marker, else the text with the joined lines inserted after the marker's line |
| ManifestPatcher.LinkIntoGroups | add_files_to_xcode.py:96-125 | the group loop computes `GroupPass`, one anchor lookup and splice per entry on the current text |
| ManifestPatcher.LinkIntoSources | add_files_to_xcode.py:128-141 | the Sources pass computes `SourcesPass` |
| ManifestPatcher.AddFilesToProject | add_files_to_xcode.py:30-147 | the script's body, loops and early returns included, computes `Run`: the same outcome and the same written text |
| PatcherProperties.EntriesAreSingleLine | add_files_to_xcode.py:54-58 | an entry from a newline-free path has a newline-free name and two well-formed object identifiers |
| PatcherProperties.LinesAreSingleLines | add_files_to_xcode.py:70-141 | each of the four formatted lines is a single line ended by its newline |
| PatcherProperties.ReferenceLineFields | add_files_to_xcode.py:73 | the reference line carries the file-reference id right after its indentation, and the file name as its `path` |
| PatcherProperties.BuildLineFields | add_files_to_xcode.py:89 | the build line carries the build id right after its indentation, and refers to the file-reference id and name in its `fileRef` field |
| PatcherProperties.ChildLineFields | add_files_to_xcode.py:124-138 | the group line opens with the file-reference id and the Sources line with the build id, after four tabs |
| PatcherProperties.BlockHoldsLine | add_files_to_xcode.py:70-76 | the joined block of a pass holds every entry's line |
| PatcherProperties.InsertedBlockIsThere | add_files_to_xcode.py:76 | the patched text holds the inserted block |
| PatcherProperties.SectionPassInsertsOrFails | add_files_to_xcode.py:61-92 | a section pass fails exactly when its marker is absent; otherwise the result holds the block, grows by its length, and keeps every line of the text |
| PatcherProperties.GroupStepLinksOrSkips | add_files_to_xcode.py:119-125 | without the anchor, or without a newline after it, the text is unchanged; otherwise the group line sits at the start of the line after the anchor's, removing it gives back the text, and every line is kept |
| PatcherProperties.GroupPassKeepsLines | add_files_to_xcode.py:96-125 | the whole group pass keeps every line of the text it starts from |
| PatcherProperties.GroupPassLinksEntry | add_files_to_xcode.py:96-125 | an entry whose anchor, and a newline after it, are found in the text its group step sees has its group line in the result of the whole group pass |
| PatcherProperties.SourcesPassInsertsOrSkips | add_files_to_xcode.py:128-141 | without the Sources marker, or without `files = (` after it, the text is unchanged; otherwise the Sources block sits after the line of that `files = (`, removing it gives back the text, and every entry's Sources line is present |
| PatcherProperties.ReferenceBlockEndsLine | add_files_to_xcode.py:70-76 | the joined reference lines are empty or end with a newline |
| PatcherProperties.PatchOutcome | add_files_to_xcode.py:61-92 | once entries exist, the run stops at the reference pass exactly when its marker is absent; it stops at the build pass exactly when that marker is absent from both the input and the new reference lines; it writes whenever both markers are present |
| PatcherProperties.PatchKeepsInput | add_files_to_xcode.py:60-141 | the four passes together keep every line of their input |
| PatcherProperties.PatchRegistersEntry | add_files_to_xcode.py:70-92 | the written text holds every entry's reference line and build line, its `path` field, its name and its `fileRef` field |
| PatcherProperties.AfterSections | add_files_to_xcode.py:60-92 | the text after the file-reference and build-file passes keeps every line of the input, and the written text is the group and Sources passes applied to it |
| PatcherProperties.LaterPassesLinkEntry | add_files_to_xcode.py:96-141 | after the group and Sources passes, the text holds an entry's group line when its anchor line was found, and its Sources line when the Sources list was found |
| PatcherProperties.EarlyExitsLeaveFileUnchanged | add_files_to_xcode.py:46-83 | a run returns unwritten exactly when no file is missing, or when one is and the reference marker is absent; or when the reference marker is present and the build marker is absent from both the input and the new reference lines; every exit leaves the file as it was |
| PatcherProperties.WrittenKeepsInput | add_files_to_xcode.py:60-145 | a run that writes keeps every line of its input |
| PatcherProperties.WrittenRegistersEveryFile | add_files_to_xcode.py:54-92 | every processed file's reference and build lines are written, with ids derived from its path alone; the build line's `fileRef` carries the reference id |
| PatcherProperties.WrittenLinksEveryFile | add_files_to_xcode.py:96-141 | in a writing run, every processed file's group line (opening with its reference id) is written when its anchor line was found, and its Sources line (opening with its build id) when the Sources list was found |
| PatcherProperties.WrittenMentionsEveryCandidate | add_files_to_xcode.py:37-76 | after a run that writes, every candidate's file name occurs in the text |
| PatcherProperties.SecondRunChangesNothing | add_files_to_xcode.py:37-48 | a second run on the first run's file returns before writing and leaves the file unchanged |

## Left out

- File I/O (lines 33-34 and 144-145): the text read is the parameter `input`, and the text written is `Run`'s `Written` outcome. `input` is what Python's text-mode `read()` returns, after universal-newline translation, so a written CRLF manifest comes back with LF line endings; the model works on that text and does not see the translation.
- Console messages (lines 42, 44, 47, 64, 82 and 147): they carry no behaviour.
- MD5 itself (RFC 1321, line 27) is an uninterpreted parameter of type `Md5`. Its only property is a 32-digit lower-case hex digest. `seed.encode()` is folded into that parameter.
- The dead code is not modelled: `relative_path` (line 72), and `dir_name`, `pattern` and the `re` import (lines 6 and 98-101).
- The `__main__` entry point and its fixed manifest path (lines 149-150) are not modelled.
- The hard-coded `files_to_add` list (lines 9-23) is not a constant of the model. The patcher takes any candidate list. Its thirteen file names are pairwise different, which is what `DistinctFileNames` asks.
- ManifestPatcher.Run requires distinct file names. The script's dicts are keyed by file name, so two candidates with one file name would collapse into one entry. The model does not cover that collapse.
- PatcherProperties.SecondRunChangesNothing, PatcherProperties.WrittenRegistersEveryFile, PatcherProperties.WrittenLinksEveryFile and PatcherProperties.WrittenMentionsEveryCandidate assume newline-free candidate paths. The script's own paths have none.
- Python's `str.upper()` is modelled on ASCII letters only, which covers every character of a hex digest.
- The group path of each candidate is kept in `Candidate` but never read, as in the code.
