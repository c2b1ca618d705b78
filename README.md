# Snorkel "Daily Note" command — a Dafny model

The Snorkel Obsidian plugin registers a "Daily Note" command. When it runs, the
command does the following:

1. It works out today's note path, `base/YYYY/MM/YYYY-MM-DD.md`. The `base/`
   part is left out when the daily-note folder setting is empty.
2. It looks the path up in the vault. If a file is there, it opens it in a new
   tab. If a folder is there, it only creates an empty tab.
3. Otherwise it creates the month folder, but only when nothing is at that
   path. Then it creates the empty note and opens it in a new tab.
4. If a template is configured, it goes through three early exits, each with
   its own notice:
   - the template path contains a backslash;
   - the Templater plugin is not installed;
   - the template path is not a file.
5. Otherwise it copies the template's text into the note and hands the note to
   Templater's `overwrite_file_commands`.
6. Any error thrown along the way becomes a single "Error creating daily
   note: …" notice.

The project has six modules:

- `Decimal` (`decimal.dfy`): JavaScript's `String(n)` and `padStart(2, '0')`
  for the date fields. It also has a parser, used to prove that rendering is
  lossless.
- `Paths` (`paths.dfy`): '/'-separated vault paths. It gives their segments,
  parent, base name and folder prefixes.
- `PathResolver` (`path_resolver.dfy`): the path derivation, as pure functions
  of the date and the base-folder setting.
- `Vault` (`vault.dfy`): the vault as a map from path to node (a file with
  content, or a folder). It models `createFolder` and `create` with their
  failure cases, and proves that both keep the vault well-formed: every folder
  prefix of a stored path is a stored folder.
- `NoteProvisioner` (`note_provisioner.dfy`): the create/open/template protocol.
  - `Attempt` (the `try` block) and `Provision` (with the `catch`) are pure
    specification functions. They state the whole effect of one run on the
    vault, the workspace tabs and the notice log.
  - The class `App` holds those three as mutable fields. Its methods model the
    host calls.
  - `SnorkelPlugin.DailyNote` performs the run call by call and is proved to
    have exactly the effect that `Provision` states.
- `ProvisioningProperties` (`provisioning_properties.dfy`): what a run does and
  does not change, and what two runs in a row do.

A date is a `DateKey(year, month, day)`, with the month 1-based as
`getMonth() + 1` gives it. The clock is not modelled: the date is a parameter.
The Templater plugin is modelled as `Missing`, or as `Installed(f)`, where `f`
maps the note's text to either its rewrite or a thrown message.

## Model

| member | source | states |
|---|---|---|
| Decimal.NatToString | main.ts:53-54 | `String(n)` for a non-negative integer; no contract of its own, its properties are Decimal.NatToStringShape and Decimal.ParseNatToString |
| Decimal.IntToString | main.ts:52-55 | `${year}` and `String(year)` for any integer, with a '-' for negative years; no contract of its own, its properties are Decimal.ParseIntToString and PathResolver.CalendarFieldsRendering |
| Decimal.TwoDigits | main.ts:53-54 | `String(n).padStart(2, '0')`; no contract of its own, its properties are Decimal.TwoDigitsSpec |
| Decimal.PadStart | main.ts:53-54 | `padStart(width, fill)` leaves a string of at least `width` characters unchanged; otherwise the result has exactly `width` characters, ends with the original string, and is `fill` in front of it |
| Decimal.NatToStringShape | main.ts:52-55 | `String(n)` is non-empty and all digits; it starts with '0' only for 0; it is one character long exactly when n < 10, and at most two when n < 100 |
| Decimal.ParseNatToString | main.ts:52-55 | reading `String(n)` back as a decimal number gives n, so the rendering loses nothing |
| Decimal.ParseNatLeadingZero | main.ts:53-54 | the '0' that padding adds does not change the value that is read back |
| Decimal.TwoDigitsSpec | main.ts:53-54 | for any value below 100, `String(n).padStart(2, '0')` has exactly two digits; its first digit is '0' exactly when n < 10; its last digit is n's last digit; it reads back as n |
| Decimal.ParseIntToString | main.ts:52 | the year, `String(year)`, has only digits and possibly a '-', and reads back as the year, for any integer including negative ones |
| PathResolver.YearText | main.ts:52 | the unpadded year text; no contract of its own, its properties are PathResolver.CalendarFieldsRendering and PathResolver.SegmentsHaveNoSeparator |
| PathResolver.MonthText | main.ts:53 | the 1-based month padded to two digits; no contract of its own, its properties are PathResolver.CalendarFieldsRendering and PathResolver.SegmentsHaveNoSeparator |
| PathResolver.DayText | main.ts:54 | the day of the month padded to two digits; no contract of its own, its properties are PathResolver.CalendarFieldsRendering |
| PathResolver.FileName | main.ts:55 | the leaf name `${year}-${month}-${day}.md`; no contract of its own, its properties are PathResolver.FileNameRoundTrip, PathResolver.FileNameInjective and PathResolver.SegmentsHaveNoSeparator |
| PathResolver.YearFolder | main.ts:57-58 | `base/year`, or just the year when the setting is the empty string; no contract of its own, its properties are PathResolver.FilePathSegments and PathResolver.MonthFolderIsParent |
| PathResolver.MonthFolder | main.ts:59 | `yearFolder/month`; no contract of its own, its properties are PathResolver.MonthFolderIsParent and PathResolver.ExampleWithBaseFolder |
| PathResolver.FilePath | main.ts:60 | `monthFolder/fileName`; no contract of its own, its properties are PathResolver.FilePathSegments, PathResolver.NoStraySeparators and PathResolver.MonthFolderIsParent |
| PathResolver.CalendarFieldsRendering | main.ts:52-54 | for a calendar month (1-12) and day (1-31), month and day text are two digits that read back as the month and day; they start with '0' exactly below ten; the year text is unpadded and starts with no '0' for a positive year |
| PathResolver.SegmentsHaveNoSeparator | main.ts:52-55 | the year text, the two-digit month and the leaf name are non-empty and contain no '/' |
| PathResolver.FileNameRoundTrip | main.ts:55 | parsing the leaf name `${year}-${month}-${day}.md` gives back the date, so the name is exactly year, '-', month, '-', day, ".md" |
| PathResolver.FileNameInjective | main.ts:55 | two calendar dates get the same note name only if they are the same date |
| PathResolver.FolderSegments | main.ts:58-60 | the path `base/y/m/f` (`y/m/f` when base is empty) splits into the base's segments followed by y, m and f |
| PathResolver.FilePathSegments | main.ts:57-60 | the note path's segments are those of the base folder (none for an empty setting), then the year, the month and the leaf name |
| PathResolver.NoStraySeparators | main.ts:57-60 | with an empty setting the path is exactly `year/month/name`; with a base that has no empty segment, the path has no empty segment either. So there is no leading, trailing or doubled '/' |
| PathResolver.FolderPathHasNoEmptySegment | main.ts:58-60 | joining a clean base and non-empty separator-free segments with '/' creates no empty segment |
| PathResolver.MonthFolderIsParent | main.ts:58-60 | the month folder is the note's parent, the leaf name is its base name, and the month folder is a strict prefix of the note path; the year folder is the month folder's parent; the folders the note needs are the month folder and its own prefixes |
| PathResolver.SampleDateFields | main.ts:52-55 | 7 March 2024 renders as "2024", "03", "07" and "2024-03-07.md" |
| PathResolver.ExampleWithBaseFolder | main.ts:57-60 | with base "Notes", 7 March 2024 gives month folder "Notes/2024/03" and note "Notes/2024/03/2024-03-07.md" |
| PathResolver.ExampleWithoutBaseFolder | main.ts:58-60 | with an empty base, the same date gives "2024/03" and "2024/03/2024-03-07.md": no leading '/' |
| Paths.Split | main.ts:58-60 | the segments of a path: at least one, none containing '/' |
| Paths.SplitJoin | main.ts:58-60 | joining two paths with one '/' concatenates their segment lists |
| Paths.NoEmptySegmentShape | main.ts:58-60 | a path with no empty segment is non-empty, does not start or end with '/', and has no "//" |
| Paths.ParentOfJoin | main.ts:59-60 | the parent of `a/b` is a and its base name is b, when b has no '/' |
| Paths.PrefixesOfJoin | main.ts:59-60 | the folder prefixes of `a/b` are a and a's own prefixes |
| Paths.PrefixOfPrefix | main.ts:67-68 | a folder prefix of a folder prefix is a folder prefix of the path |
| Vault.AddFolder | main.ts:67-68 | `createFolder(path)` succeeds exactly when the path is free and no prefix of it is a file. It then adds exactly the path and its missing prefixes, as folders, and changes no existing node. It fails with "already exists" on a taken path and "not a folder" under a file |
| Vault.AddFile | main.ts:72 | `create(path, data)` succeeds exactly when the path is free and its parent is the root or an existing folder. It then adds exactly this file with this content and changes nothing else; otherwise it names the reason |
| Vault.AddFolderKeepsWellFormed | main.ts:67-68 | createFolder keeps every stored path under stored folders |
| Vault.AddFileKeepsWellFormed | main.ts:72 | create keeps every stored path under stored folders |
| NoteProvisioner.CreateNote | main.ts:65-72 | the creating calls on the vault: `createFolder` only when no node is at the month folder's path, then `create(filePath, '')`, with no rollback; no contract of its own, its properties are ProvisioningProperties.NoteCreation, ProvisioningProperties.CreateNoteOutcome and ProvisioningProperties.FilesAfterCreation |
| NoteProvisioner.ApplyTemplate | main.ts:78-105 | the template step on the opened note, with its checks in the source's order; no contract of its own, its properties are ProvisioningProperties.TemplateStepTouchesOnlyNote, ProvisioningProperties.TemplateStepCopies, ProvisioningProperties.TemplateStepNotices and ProvisioningProperties.TemplateStepReadsOnlyVault |
| NoteProvisioner.Attempt | main.ts:49-112 | the whole effect of the `try` block on vault, tabs and notices; no contract of its own, its properties are ProvisioningProperties.ExistingNodeIsOnlyOpened, ProvisioningProperties.AttemptNotices and ProvisioningProperties.AttemptReadsOnlyVault |
| NoteProvisioner.Provision | main.ts:48-116 | one run, the `try` block followed by the `catch` that turns a thrown error into one notice; no contract of its own, its properties are the ProvisioningProperties lemmas below, from ProvisionKeepsWellFormed to SecondRunFailsAlike |
| NoteProvisioner.App.Read | main.ts:95 | `vault.read(file)`: the file's content, defined only for a file; no contract of its own, it is used by NoteProvisioner.SnorkelPlugin.TemplateStep |
| NoteProvisioner.App.GetAbstractFileByPath | main.ts:63 | the lookup returns the node at the path, and nothing exactly when no node is there |
| NoteProvisioner.App.CreateFolder | main.ts:68 | the vault becomes AddFolder's result, or is unchanged and the fault is returned; tabs and notices are untouched |
| NoteProvisioner.App.Create | main.ts:72 | the vault becomes AddFile's result, or is unchanged and the fault is returned; tabs and notices are untouched |
| NoteProvisioner.App.Modify | main.ts:96 | only the file's content is replaced |
| NoteProvisioner.App.GetLeaf | main.ts:75 | one empty tab is appended; nothing else changes |
| NoteProvisioner.App.OpenFile | main.ts:76 | the tab just created now shows the file; nothing else changes |
| NoteProvisioner.App.OverwriteFileCommands | main.ts:98 | Templater either rewrites the note's text or throws and leaves the vault as it was |
| NoteProvisioner.App.ShowNotice | main.ts:82 | one notice is appended; nothing else changes |
| NoteProvisioner.SnorkelPlugin.DailyNote | main.ts:48-116 | the new vault, tabs and notices, and the outcome, are exactly `Provision` of the old state; a thrown error adds exactly one error notice |
| NoteProvisioner.SnorkelPlugin.TryDailyNote | main.ts:49-112 | the `try` block has exactly the effect `Attempt` states; when it throws, it has shown no notice |
| NoteProvisioner.SnorkelPlugin.CreateNoteStep | main.ts:65-72 | the creating calls leave exactly the store and fault `CreateNote` states, and the empty note exists when they succeed; tabs and notices are untouched |
| NoteProvisioner.SnorkelPlugin.TemplateStep | main.ts:78-105 | the template step has exactly the effect `ApplyTemplate` states, and never shows a notice when it throws |
| ProvisioningProperties.ExistingNodeIsOnlyOpened | main.ts:63-65 | with a node already at the note path, nothing is created or modified and no notice is shown; one tab is added, which shows the note only when the node is a file |
| ProvisioningProperties.NoteCreation | main.ts:65-72 | on a well-formed vault without the note, the creating calls succeed exactly when no file blocks the month folder's path. On failure the vault is unchanged and the fault is "not a folder". On success: the month folder is created only if absent; existing nodes are kept; the only new nodes are the empty note and folders on its path; the vault stays well-formed |
| ProvisioningProperties.CreateNoteOutcome | main.ts:65-72 | the same, for any note path whose parent is the month folder |
| ProvisioningProperties.CreateInExistingFolder | main.ts:67-72 | when a node is at the month folder's path, createFolder is skipped and create succeeds exactly when that node is a folder |
| ProvisioningProperties.CreateWithNewFolder | main.ts:67-72 | when the month folder is absent, it is created with its missing prefixes and then the note; the calls fail, changing nothing, exactly when a prefix is a file |
| ProvisioningProperties.RewriteKeepsWellFormed | main.ts:96-98 | replacing a file's content keeps the vault well-formed |
| ProvisioningProperties.ProvisionKeepsWellFormed | main.ts:48-116 | every run keeps the vault well-formed |
| ProvisioningProperties.TemplateStepTouchesOnlyNote | main.ts:78-105 | the template step keeps the tabs, the other nodes and the note's being a file; it only ends in an error when Templater throws |
| ProvisioningProperties.CreatedRunIsTemplateStep | main.ts:72-79 | once the creating calls succeed, the run is the template step on the opened empty note, followed by the catch |
| ProvisioningProperties.NewNoteOpenedBeforeTemplate | main.ts:72-76 | whatever the template step does, the run has added one tab showing the note, and a file is at the note path |
| ProvisioningProperties.NoTemplateKeepsNoteEmpty | main.ts:79 | with no template configured, the run is the same whatever Templater is, so Templater is not consulted; a new note stays "" with no notice |
| ProvisioningProperties.BackslashStopsTemplate | main.ts:81-84 | a '\' in the template path stops the run after the note is created and opened: the note stays "", exactly the separator notice is added, and Templater is not consulted |
| ProvisioningProperties.MissingTemplaterStopsTemplate | main.ts:86-87 | without Templater the note stays "" and the "Templater plugin not found" notice is added |
| ProvisioningProperties.MissingTemplateFileStopsTemplate | main.ts:92-93 | a template path that is not a file leaves the note "" and adds "Template file not found: " followed by the path |
| ProvisioningProperties.TemplateStepCopies | main.ts:95-98 | on the opened note, the template's text is copied and handed to Templater. The note then holds the rewrite, or the verbatim copy if Templater threw; the template is unchanged and no notice is shown |
| ProvisioningProperties.TemplateCopiedVerbatim | main.ts:95-98 | over a whole run: the note holds Templater's rewrite of the verbatim template text with no notice, or, if Templater throws, the verbatim copy and exactly one "Error creating daily note: " + message notice |
| ProvisioningProperties.AtMostOneNotice | main.ts:113-115 | a run appends exactly one notice when it stops early or throws, and none otherwise; a thrown error gives exactly "Error creating daily note: " + its message |
| ProvisioningProperties.TemplateStepNotices | main.ts:78-105 | the template step appends one notice exactly at its early exits |
| ProvisioningProperties.AttemptNotices | main.ts:49-112 | the `try` block appends one notice exactly at the template step's early exits, and none when it throws |
| ProvisioningProperties.RunOutcome | main.ts:48-116 | a file is at the note path after the run exactly when the run did not meet a folder there or fail while creating; a failure while creating leaves the vault and tabs as they were |
| ProvisioningProperties.FilesAfterCreation | main.ts:67-72 | the creating calls add exactly one file, the note |
| ProvisioningProperties.FilesAfterTemplate | main.ts:92-98 | the template step adds and removes no file |
| ProvisioningProperties.OneFileAdded | main.ts:62-112 | after a run that leaves the note, the files are those before plus the note: one file more when the note was new, the same files when it already existed |
| ProvisioningProperties.AttemptReadsOnlyVault | main.ts:49-112 | the outcome and the vault after the `try` block depend only on the vault, not on earlier tabs or notices |
| ProvisioningProperties.TemplateStepReadsOnlyVault | main.ts:78-105 | the template step's outcome and vault depend only on the vault |
| ProvisioningProperties.SecondRunReopens | main.ts:63-65 | when a first run left the note, a second run with the same date and settings takes the "exists" branch. It only adds a tab showing the note: no creation, no modification, no notice. After both runs the files are those before plus the note |
| ProvisioningProperties.SecondRunFailsAlike | main.ts:113-115 | when a first run failed while creating, a second identical run fails the same way on the unchanged vault and adds one more error notice |
| ProvisioningProperties.FirstRunWithoutTemplate | main.ts:65-79 | on an empty vault with no template, the run creates the empty note and every folder on its path, opens one tab and shows no notice |
| ProvisioningProperties.ScenarioNewNoteUnderBase | main.ts:57-79 | base "Notes", no template, 7 March 2024, empty vault: "Notes", "Notes/2024" and "Notes/2024/03" are folders, the note "Notes/2024/03/2024-03-07.md" is "" and is the one tab, and there is no notice |
| ProvisioningProperties.ScenarioBackslashTemplate | main.ts:81-84 | empty base, template "Templates\Daily.md", empty vault: the empty note "2024/03/2024-03-07.md" is opened and exactly the separator notice is shown |

## Left out

- The rest of the plugin is not modelled: the ribbon icon, status bar, sample
  modals, editor command, DOM listener, interval and settings tab. It is UI
  code with no invariants.
- Loading and saving settings is not modelled. The settings are an immutable
  input to each run, and the unused `mySetting` is dropped.
- The clock is not modelled: `new Date()` becomes a `DateKey` parameter, and
  `IsCalendarKey` bounds the month and day as a JavaScript `Date` reports them.
- The 100 ms settling delay before Templater runs is left out. It is timing
  only.
- Async interleaving is not modelled. Each run is sequential, so a race between
  the existence check and creation across concurrent runs is out of scope.
- Templater's internals are not modelled. `overwrite_file_commands` is any
  function from the note's text to a rewrite or a thrown message.
- Vault.FaultMessage: Obsidian's own error texts are not part of this model.
  The "already exists" and "not a folder" messages are placeholders. The
  error notice is proved to be the fixed prefix followed by the thrown error's
  message, whatever that message is.
- Vault.AddFolder and Vault.AddFile do not normalise paths (no trimming and no
  collapsing of "//"), and names are compared exactly, as strings.
- Host calls fail only for structural reasons in this model: `createFolder`
  and `create` fail only when a path is taken or a file stands where a folder
  is needed. `read`, `modify` and `openFile` never fail. Disk, permission and
  other I/O failures are not modelled. Templater only rewrites the note's
  text or throws before writing: it does not move, rename or create files.
- ProvisioningProperties.RunOutcome: "a failure while creating leaves the vault
  and tabs as they were" holds only because creating can fail only for
  structural reasons. Then a failing `create` never follows a successful
  `createFolder`. With an I/O failure in `create`, the folders already made
  would stay, since the catch rolls nothing back.
- ProvisioningProperties.NewNoteOpenedBeforeTemplate: holds only because
  `openFile`, `read` and `modify` cannot fail and Templater cannot remove or
  move the note.
- ProvisioningProperties.OneFileAdded: holds only because Templater cannot
  create, remove or rename files and `create` cannot fail after `createFolder`
  succeeded.
- ProvisioningProperties.SecondRunReopens: holds for any base setting,
  including one with a trailing or doubled '/' such as "Notes/", only because
  paths are compared as raw strings. The host's path normalisation could map
  two runs' paths differently. It also relies on the same no-I/O-failure
  assumptions as OneFileAdded.
- The host's file objects are not modelled: a file is identified by its path.
  Because the run renames nothing, `modify(newFile, …)` is a write to the note
  path.
- A folder already at the note path: the command creates a new empty tab and
  then does nothing else, with no notice and no error. The model follows this
  code path (`IgnoredNonFile`), not a reading in which such a node is reported
  as an error.
