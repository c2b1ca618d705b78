/**
  What one run of the "Daily Note" command does to the host, and what two runs
  in a row do: which nodes are created, what the new note contains, which
  notices are shown, and that a second run only reopens the note.
*/
module ProvisioningProperties {
  import opened Wrappers
  import opened Paths
  import opened Vault
  import opened PathResolver
  import opened NoteProvisioner

  /** No file stands where the note's month folder or one of its prefixes must be a folder. */
  predicate FoldersClear(s: Store, monthFolder: string) {
    forall a :: a in Prefixes(monthFolder) + {monthFolder} && a in s ==> s[a].Folder?
  }

  /** The terminal states in which the run leaves a file at the note path. */
  predicate LeavesNote(step: Step) {
    !step.IgnoredNonFile? && (step.Failed? ==> step.fault.TemplaterThrew?)
  }

  /** The early exits of the template step, each of which shows its own notice. */
  predicate StoppedEarly(step: Step) {
    step.RejectedBackslash? || step.NoTemplater? || step.NoTemplateFile?
  }

  /** The terminal states that show a notice. */
  predicate Reported(step: Step) {
    StoppedEarly(step) || step.Failed?
  }

  /**
    A node already at the note path: nothing is created or modified and no notice
    is shown; a new tab is taken and shows the note only when the node is a file.
  */
  lemma ExistingNodeIsOnlyOpened(w: World, templater: Templater, settings: Settings, date: DateKey)
    requires FilePath(settings.dailyNoteFolder, date) in w.vault
    ensures var r := Provision(w, templater, settings, date);
      var isFile := w.vault[FilePath(settings.dailyNoteFolder, date)].File?;
      && r.world.vault == w.vault
      && r.world.notices == w.notices
      && r.world.leaves == w.leaves + [if isFile then Showing(FilePath(settings.dailyNoteFolder, date)) else Empty]
      && r.step == (if isFile then OpenedExisting else IgnoredNonFile)
  {
  }

  /**
    The creating calls on a well-formed vault without the note: they succeed
    exactly when no file blocks the month folder; on failure nothing has changed;
    on success the month folder was created only if absent, existing nodes are
    untouched, the only new nodes are the empty note and folders on its path, and
    the vault stays well-formed. The "already exists" errors never occur.
  */
  lemma NoteCreation(s: Store, settings: Settings, date: DateKey)
    requires WellFormed(s) && IsCalendarKey(date) && FilePath(settings.dailyNoteFolder, date) !in s
    ensures var c := CreateNote(s, MonthFolder(settings.dailyNoteFolder, date), FilePath(settings.dailyNoteFolder, date));
      && (c.fault.None? <==> FoldersClear(s, MonthFolder(settings.dailyNoteFolder, date)))
      && (c.fault.Some? ==> c.store == s && c.fault.value == NotAFolder(MonthFolder(settings.dailyNoteFolder, date)))
      && (c.fault.None? ==>
            && (MonthFolder(settings.dailyNoteFolder, date) in s ==> c.store.Keys == s.Keys + {FilePath(settings.dailyNoteFolder, date)})
            && (forall p :: p in s ==> p in c.store && c.store[p] == s[p])
            && (forall p :: p in c.store && p !in s ==>
                  p == FilePath(settings.dailyNoteFolder, date) || (c.store[p] == Folder && p in Prefixes(FilePath(settings.dailyNoteFolder, date))))
            && c.store[FilePath(settings.dailyNoteFolder, date)] == File("")
            && WellFormed(c.store))
  {
    var mf, fp := MonthFolder(settings.dailyNoteFolder, date), FilePath(settings.dailyNoteFolder, date);
    MonthFolderIsParent(settings.dailyNoteFolder, date);
    assert fp !in Prefixes(mf) + {mf} by {
      if fp in Prefixes(mf) {
        PrefixIsProper(mf, fp);
      }
    }
    CreateNoteOutcome(s, mf, fp);
  }

  /** NoteCreation for any note path whose parent is a non-empty month folder. */
  lemma CreateNoteOutcome(s: Store, monthFolder: string, filePath: string)
    requires WellFormed(s) && filePath !in s && Parent(filePath) == monthFolder && monthFolder != ""
    requires Prefixes(filePath) == Prefixes(monthFolder) + {monthFolder} && filePath !in Prefixes(monthFolder)
    ensures var c := CreateNote(s, monthFolder, filePath);
      && (c.fault.None? <==> FoldersClear(s, monthFolder))
      && (c.fault.Some? ==> c.store == s && c.fault.value == NotAFolder(monthFolder))
      && (c.fault.None? ==>
            && (monthFolder in s ==> c.store.Keys == s.Keys + {filePath})
            && (forall p :: p in s ==> p in c.store && c.store[p] == s[p])
            && (forall p :: p in c.store && p !in s ==>
                  p == filePath || (c.store[p] == Folder && p in Prefixes(filePath)))
            && c.store[filePath] == File("")
            && WellFormed(c.store))
  {
    if monthFolder in s {
      CreateInExistingFolder(s, monthFolder, filePath);
    } else {
      CreateWithNewFolder(s, monthFolder, filePath);
    }
  }

  /** The creating calls when the month folder's path is taken: only `create` runs. */
  lemma CreateInExistingFolder(s: Store, monthFolder: string, filePath: string)
    requires WellFormed(s) && filePath !in s && Parent(filePath) == monthFolder && monthFolder in s
    requires monthFolder != ""
    ensures var c := CreateNote(s, monthFolder, filePath);
      && (c.fault.None? <==> FoldersClear(s, monthFolder))
      && (c.fault.Some? ==> c.store == s && c.fault.value == NotAFolder(monthFolder))
      && (c.fault.None? ==> c.store == s[filePath := File("")] && WellFormed(c.store))
  {
    if s[monthFolder].Folder? {
      assert FoldersClear(s, monthFolder);
      AddFileKeepsWellFormed(s, filePath, "");
    }
  }

  /** The creating calls when the month folder is absent: `createFolder`, then `create`. */
  lemma CreateWithNewFolder(s: Store, monthFolder: string, filePath: string)
    requires WellFormed(s) && filePath !in s && Parent(filePath) == monthFolder && monthFolder !in s
    requires filePath !in Prefixes(monthFolder) && monthFolder != ""
    ensures var c := CreateNote(s, monthFolder, filePath);
      && (c.fault.None? <==> FoldersClear(s, monthFolder))
      && (c.fault.Some? ==> c.store == s && c.fault.value == NotAFolder(monthFolder))
      && (c.fault.None? ==> c.store == AddFolder(s, monthFolder).value[filePath := File("")] && WellFormed(c.store))
  {
    if FoldersClear(s, monthFolder) {
      var s1 := AddFolder(s, monthFolder).value;
      AddFolderKeepsWellFormed(s, monthFolder);
      AddFileKeepsWellFormed(s1, filePath, "");
    }
  }

  /** Replacing the content of a file keeps the vault well-formed. */
  lemma RewriteKeepsWellFormed(s: Store, path: string, data: string)
    requires WellFormed(s) && path in s && s[path].File?
    ensures WellFormed(s[path := File(data)])
  {
    var r := s[path := File(data)];
    forall p, a | p in r && a in Prefixes(p) ensures a in r && r[a].Folder? {
      assert a in s && s[a].Folder?;
    }
  }

  /** Every run keeps the vault well-formed. */
  lemma ProvisionKeepsWellFormed(w: World, templater: Templater, settings: Settings, date: DateKey)
    requires WellFormed(w.vault) && IsCalendarKey(date)
    ensures WellFormed(Provision(w, templater, settings, date).world.vault)
  {
    var fp := FilePath(settings.dailyNoteFolder, date);
    if fp !in w.vault {
      NoteCreation(w.vault, settings, date);
      var c := CreateNote(w.vault, MonthFolder(settings.dailyNoteFolder, date), fp);
      var t := settings.dailyNoteTemplate;
      if c.fault.None? && t != "" && '\\' !in t && templater.Installed? && t in c.store && c.store[t].File? {
        var copied := c.store[fp := File(c.store[t].content)];
        RewriteKeepsWellFormed(c.store, fp, c.store[t].content);
        match templater.overwriteFileCommands(c.store[t].content)
        case Rewritten(text) =>
          RewriteKeepsWellFormed(copied, fp, text);
        case Threw(_) =>
      }
    }
  }

  /**
    The template step touches only the note: it keeps the tabs, the other nodes
    and the note's kind, and only Templater's own failure can end it in Failed.
  */
  lemma TemplateStepTouchesOnlyNote(w: World, filePath: string, template: string, templater: Templater)
    requires filePath in w.vault && w.vault[filePath].File?
    ensures var r := ApplyTemplate(w, filePath, template, templater);
      && r.world.leaves == w.leaves
      && r.world.vault.Keys == w.vault.Keys
      && (forall p :: p in w.vault && p != filePath ==> r.world.vault[p] == w.vault[p])
      && r.world.vault[filePath].File?
      && LeavesNote(r.step)
  {
  }

  /** When the creating calls succeed, the run is the template step on the new note, then the catch. */
  lemma CreatedRunIsTemplateStep(w: World, templater: Templater, settings: Settings, date: DateKey)
    requires FilePath(settings.dailyNoteFolder, date) !in w.vault
    requires CreateNote(w.vault, MonthFolder(settings.dailyNoteFolder, date), FilePath(settings.dailyNoteFolder, date)).fault.None?
    ensures var c := CreateNote(w.vault, MonthFolder(settings.dailyNoteFolder, date), FilePath(settings.dailyNoteFolder, date));
      var t := ApplyTemplate(World(c.store, w.leaves + [Showing(FilePath(settings.dailyNoteFolder, date))], w.notices),
                             FilePath(settings.dailyNoteFolder, date), settings.dailyNoteTemplate, templater);
      Provision(w, templater, settings, date)
        == if t.step.Failed? then Run(t.world.(notices := t.world.notices + [ErrorNotice(t.step.fault)]), t.step) else t
  {
  }

  /**
    The new note is created empty and opened in a new tab before any template
    step: whatever the template step does, the tab shows the note and a file is
    at the note path.
  */
  lemma NewNoteOpenedBeforeTemplate(w: World, templater: Templater, settings: Settings, date: DateKey)
    requires WellFormed(w.vault) && IsCalendarKey(date)
    requires FilePath(settings.dailyNoteFolder, date) !in w.vault && FoldersClear(w.vault, MonthFolder(settings.dailyNoteFolder, date))
    ensures var r := Provision(w, templater, settings, date);
      && r.world.leaves == w.leaves + [Showing(FilePath(settings.dailyNoteFolder, date))]
      && FilePath(settings.dailyNoteFolder, date) in Files(r.world.vault)
      && LeavesNote(r.step)
  {
    NoteCreation(w.vault, settings, date);
    var fp := FilePath(settings.dailyNoteFolder, date);
    var c := CreateNote(w.vault, MonthFolder(settings.dailyNoteFolder, date), fp);
    CreatedRunIsTemplateStep(w, templater, settings, date);
    TemplateStepTouchesOnlyNote(World(c.store, w.leaves + [Showing(fp)], w.notices), fp,
                                settings.dailyNoteTemplate, templater);
  }

  /**
    With no template configured the note stays empty, no notice is shown, and
    Templater is never consulted: the run is the same whatever Templater is.
  */
  lemma NoTemplateKeepsNoteEmpty(w: World, t1: Templater, t2: Templater, settings: Settings, date: DateKey)
    requires settings.dailyNoteTemplate == ""
    requires WellFormed(w.vault) && IsCalendarKey(date)
    ensures Provision(w, t1, settings, date) == Provision(w, t2, settings, date)
    ensures FilePath(settings.dailyNoteFolder, date) !in w.vault && FoldersClear(w.vault, MonthFolder(settings.dailyNoteFolder, date)) ==>
      var r := Provision(w, t1, settings, date);
      && r.step == CreatedEmpty
      && r.world.vault[FilePath(settings.dailyNoteFolder, date)] == File("")
      && r.world.notices == w.notices
  {
    if FilePath(settings.dailyNoteFolder, date) !in w.vault {
      NoteCreation(w.vault, settings, date);
    }
  }

  /**
    A backslash in the template path: the note, already created and opened,
    stays empty, the separator notice is shown, and Templater is not consulted.
  */
  lemma BackslashStopsTemplate(w: World, t1: Templater, t2: Templater, settings: Settings, date: DateKey)
    requires '\\' in settings.dailyNoteTemplate
    requires WellFormed(w.vault) && IsCalendarKey(date)
    requires FilePath(settings.dailyNoteFolder, date) !in w.vault && FoldersClear(w.vault, MonthFolder(settings.dailyNoteFolder, date))
    ensures Provision(w, t1, settings, date) == Provision(w, t2, settings, date)
    ensures var r := Provision(w, t1, settings, date);
      && r.step == RejectedBackslash
      && r.world.vault[FilePath(settings.dailyNoteFolder, date)] == File("")
      && r.world.leaves == w.leaves + [Showing(FilePath(settings.dailyNoteFolder, date))]
      && r.world.notices == w.notices + [BackslashNotice]
  {
    NoteCreation(w.vault, settings, date);
  }

  /** Templater not installed: the note stays empty and its notice is shown. */
  lemma MissingTemplaterStopsTemplate(w: World, settings: Settings, date: DateKey)
    requires settings.dailyNoteTemplate != "" && '\\' !in settings.dailyNoteTemplate
    requires WellFormed(w.vault) && IsCalendarKey(date)
    requires FilePath(settings.dailyNoteFolder, date) !in w.vault && FoldersClear(w.vault, MonthFolder(settings.dailyNoteFolder, date))
    ensures var r := Provision(w, Missing, settings, date);
      && r.step == NoTemplater
      && r.world.vault[FilePath(settings.dailyNoteFolder, date)] == File("")
      && r.world.notices == w.notices + [TemplaterMissingNotice]
  {
    NoteCreation(w.vault, settings, date);
  }

  /**
    The template path is not a file once the note exists (nothing there, or a
    folder): the note stays empty and the not-found notice names the path.
  */
  lemma MissingTemplateFileStopsTemplate(w: World, templater: Templater, settings: Settings, date: DateKey)
    requires templater.Installed?
    requires settings.dailyNoteTemplate != "" && '\\' !in settings.dailyNoteTemplate
    requires settings.dailyNoteTemplate != FilePath(settings.dailyNoteFolder, date)
    requires settings.dailyNoteTemplate !in Files(w.vault)
    requires WellFormed(w.vault) && IsCalendarKey(date)
    requires FilePath(settings.dailyNoteFolder, date) !in w.vault && FoldersClear(w.vault, MonthFolder(settings.dailyNoteFolder, date))
    ensures var r := Provision(w, templater, settings, date);
      && r.step == NoTemplateFile
      && r.world.vault[FilePath(settings.dailyNoteFolder, date)] == File("")
      && r.world.notices == w.notices + [TemplateMissingPrefix + settings.dailyNoteTemplate]
  {
    NoteCreation(w.vault, settings, date);
  }

  /**
    The template is a file: its text is copied verbatim into the note and handed
    to Templater. If Templater rewrites it, the note holds the rewrite and no
    notice is shown; if Templater throws, the note keeps the verbatim copy and
    exactly one error notice carries Templater's message.
  */
  lemma TemplateCopiedVerbatim(w: World, templater: Templater, settings: Settings, date: DateKey)
    requires templater.Installed?
    requires settings.dailyNoteTemplate != "" && '\\' !in settings.dailyNoteTemplate
    requires settings.dailyNoteTemplate in Files(w.vault)
    requires WellFormed(w.vault) && IsCalendarKey(date)
    requires FilePath(settings.dailyNoteFolder, date) !in w.vault && FoldersClear(w.vault, MonthFolder(settings.dailyNoteFolder, date))
    ensures var r := Provision(w, templater, settings, date);
      var text := w.vault[settings.dailyNoteTemplate].content;
      var fp := FilePath(settings.dailyNoteFolder, date);
      && r.world.vault[settings.dailyNoteTemplate] == File(text)
      && match templater.overwriteFileCommands(text)
         case Rewritten(out) =>
           r.step == Templated && r.world.vault[fp] == File(out) && r.world.notices == w.notices
         case Threw(m) =>
           r.step == Failed(TemplaterThrew(m)) && r.world.vault[fp] == File(text)
           && r.world.notices == w.notices + [ErrorPrefix + m]
  {
    NoteCreation(w.vault, settings, date);
    var fp := FilePath(settings.dailyNoteFolder, date);
    var c := CreateNote(w.vault, MonthFolder(settings.dailyNoteFolder, date), fp);
    CreatedRunIsTemplateStep(w, templater, settings, date);
    TemplateStepCopies(World(c.store, w.leaves + [Showing(fp)], w.notices), fp, settings.dailyNoteTemplate, templater);
  }

  /** The template step with Templater present and the template a file: copy, then Templater's outcome. */
  lemma TemplateStepCopies(w: World, filePath: string, template: string, templater: Templater)
    requires templater.Installed? && template != "" && '\\' !in template
    requires template in Files(w.vault) && filePath in w.vault && filePath != template
    ensures var r := ApplyTemplate(w, filePath, template, templater);
      var text := w.vault[template].content;
      && r.world.vault[template] == File(text)
      && r.world.notices == w.notices
      && match templater.overwriteFileCommands(text)
         case Rewritten(out) => r.step == Templated && r.world.vault[filePath] == File(out)
         case Threw(m) => r.step == Failed(TemplaterThrew(m)) && r.world.vault[filePath] == File(text)
  {
  }

  /**
    A run shows at most one notice: exactly one when it stops early or fails
    (the catch reports a failure once, with its message), none otherwise; earlier
    notices are kept.
  */
  lemma AtMostOneNotice(w: World, templater: Templater, settings: Settings, date: DateKey)
    ensures var r := Provision(w, templater, settings, date);
      && (Reported(r.step) ==> |r.world.notices| == |w.notices| + 1 && r.world.notices[..|w.notices|] == w.notices)
      && (!Reported(r.step) ==> r.world.notices == w.notices)
      && (r.step.Failed? ==> r.world.notices == w.notices + [ErrorPrefix + FaultMessage(r.step.fault)])
  {
    var a := Attempt(w, templater, settings, date);
    AttemptNotices(w, templater, settings, date);
    var r := Provision(w, templater, settings, date);
    assert r == if a.step.Failed? then Run(a.world.(notices := a.world.notices + [ErrorNotice(a.step.fault)]), a.step) else a;
    if a.step.Failed? {
      assert r.world.notices[..|w.notices|] == w.notices;
    }
  }

  /** The template step shows one notice, appended, exactly when it stops early. */
  lemma TemplateStepNotices(w: World, filePath: string, template: string, templater: Templater)
    requires filePath in w.vault
    ensures var r := ApplyTemplate(w, filePath, template, templater);
      && (StoppedEarly(r.step) ==> |r.world.notices| == |w.notices| + 1 && r.world.notices[..|w.notices|] == w.notices)
      && (!StoppedEarly(r.step) ==> r.world.notices == w.notices)
  {
    var r := ApplyTemplate(w, filePath, template, templater);
    if StoppedEarly(r.step) {
      assert r.world.notices[..|w.notices|] == w.notices;
    }
  }

  /** The `try` block shows a notice only when the template step stops early, and never throws after one. */
  lemma AttemptNotices(w: World, templater: Templater, settings: Settings, date: DateKey)
    ensures var a := Attempt(w, templater, settings, date);
      && (StoppedEarly(a.step) ==> |a.world.notices| == |w.notices| + 1 && a.world.notices[..|w.notices|] == w.notices)
      && (!StoppedEarly(a.step) ==> a.world.notices == w.notices)
  {
    var fp := FilePath(settings.dailyNoteFolder, date);
    if fp !in w.vault {
      var c := CreateNote(w.vault, MonthFolder(settings.dailyNoteFolder, date), fp);
      if c.fault.None? {
        TemplateStepNotices(World(c.store, w.leaves + [Showing(fp)], w.notices), fp,
                            settings.dailyNoteTemplate, templater);
      }
    }
  }

  /**
    On a well-formed vault a run leaves a file at the note path exactly in the
    states LeavesNote names; a run that fails while creating leaves the vault and
    the tabs as they were (no partial folder state).
  */
  lemma RunOutcome(w: World, templater: Templater, settings: Settings, date: DateKey)
    requires WellFormed(w.vault) && IsCalendarKey(date)
    ensures var r := Provision(w, templater, settings, date);
      && (LeavesNote(r.step) <==> FilePath(settings.dailyNoteFolder, date) in Files(r.world.vault))
      && (r.step.Failed? && !r.step.fault.TemplaterThrew? ==>
            r.world.vault == w.vault && r.world.leaves == w.leaves)
  {
    var fp := FilePath(settings.dailyNoteFolder, date);
    if fp in w.vault {
      ExistingNodeIsOnlyOpened(w, templater, settings, date);
    } else {
      NoteCreation(w.vault, settings, date);
      var c := CreateNote(w.vault, MonthFolder(settings.dailyNoteFolder, date), fp);
      if c.fault.None? {
        NewNoteOpenedBeforeTemplate(w, templater, settings, date);
      } else {
        assert Provision(w, templater, settings, date)
            == Run(w.(notices := w.notices + [ErrorNotice(c.fault.value)]), Failed(c.fault.value));
      }
    }
  }

  /** The creating calls add exactly one file, the note. */
  lemma FilesAfterCreation(s: Store, settings: Settings, date: DateKey)
    requires WellFormed(s) && IsCalendarKey(date) && FilePath(settings.dailyNoteFolder, date) !in s
    requires CreateNote(s, MonthFolder(settings.dailyNoteFolder, date), FilePath(settings.dailyNoteFolder, date)).fault.None?
    ensures Files(CreateNote(s, MonthFolder(settings.dailyNoteFolder, date), FilePath(settings.dailyNoteFolder, date)).store)
         == Files(s) + {FilePath(settings.dailyNoteFolder, date)}
  {
    NoteCreation(s, settings, date);
  }

  /** The template step adds and removes no file. */
  lemma FilesAfterTemplate(w: World, filePath: string, template: string, templater: Templater)
    requires filePath in w.vault && w.vault[filePath].File?
    ensures Files(ApplyTemplate(w, filePath, template, templater).world.vault) == Files(w.vault)
  {
    TemplateStepTouchesOnlyNote(w, filePath, template, templater);
  }

  /**
    After a run that leaves the note, the files are those before plus the note:
    one more file when the note was new, the same files when it already existed.
  */
  lemma OneFileAdded(w: World, templater: Templater, settings: Settings, date: DateKey)
    requires WellFormed(w.vault) && IsCalendarKey(date)
    requires LeavesNote(Provision(w, templater, settings, date).step)
    ensures Files(Provision(w, templater, settings, date).world.vault) == Files(w.vault) + {FilePath(settings.dailyNoteFolder, date)}
    ensures FilePath(settings.dailyNoteFolder, date) !in w.vault ==>
      |Files(Provision(w, templater, settings, date).world.vault)| == |Files(w.vault)| + 1
    ensures FilePath(settings.dailyNoteFolder, date) in w.vault ==>
      Files(Provision(w, templater, settings, date).world.vault) == Files(w.vault)
  {
    var fp := FilePath(settings.dailyNoteFolder, date);
    if fp in w.vault {
      ExistingNodeIsOnlyOpened(w, templater, settings, date);
    } else {
      NoteCreation(w.vault, settings, date);
      var c := CreateNote(w.vault, MonthFolder(settings.dailyNoteFolder, date), fp);
      FilesAfterCreation(w.vault, settings, date);
      CreatedRunIsTemplateStep(w, templater, settings, date);
      FilesAfterTemplate(World(c.store, w.leaves + [Showing(fp)], w.notices), fp,
                         settings.dailyNoteTemplate, templater);
    }
  }

  /** Only the vault decides what the command's `try` block does: tabs and notices before it do not. */
  lemma AttemptReadsOnlyVault(w1: World, w2: World, templater: Templater, settings: Settings, date: DateKey)
    requires w1.vault == w2.vault
    ensures Attempt(w1, templater, settings, date).step == Attempt(w2, templater, settings, date).step
    ensures Attempt(w1, templater, settings, date).world.vault == Attempt(w2, templater, settings, date).world.vault
  {
    var fp, mf := FilePath(settings.dailyNoteFolder, date), MonthFolder(settings.dailyNoteFolder, date);
    if fp !in w1.vault {
      var c := CreateNote(w1.vault, mf, fp);
      if c.fault.None? {
        TemplateStepReadsOnlyVault(World(c.store, w1.leaves + [Showing(fp)], w1.notices),
                                   World(c.store, w2.leaves + [Showing(fp)], w2.notices),
                                   fp, settings.dailyNoteTemplate, templater);
      }
    }
  }

  /** The template step's outcome and vault depend on the vault alone. */
  lemma TemplateStepReadsOnlyVault(w1: World, w2: World, filePath: string, template: string, templater: Templater)
    requires w1.vault == w2.vault && filePath in w1.vault
    ensures ApplyTemplate(w1, filePath, template, templater).step == ApplyTemplate(w2, filePath, template, templater).step
    ensures ApplyTemplate(w1, filePath, template, templater).world.vault
         == ApplyTemplate(w2, filePath, template, templater).world.vault
  {
  }

  /**
    Running the command twice with the same date and settings and nothing in
    between, when the first run left the note: the second only reopens it (no
    creation, no modification, no notice), and after both runs the files are
    those before plus the note.
  */
  lemma SecondRunReopens(w: World, templater: Templater, settings: Settings, date: DateKey)
    requires WellFormed(w.vault) && IsCalendarKey(date)
    requires LeavesNote(Provision(w, templater, settings, date).step)
    ensures var r1 := Provision(w, templater, settings, date);
      var r2 := Provision(r1.world, templater, settings, date);
      && r2.step == OpenedExisting
      && r2.world.vault == r1.world.vault
      && r2.world.notices == r1.world.notices
      && r2.world.leaves == r1.world.leaves + [Showing(FilePath(settings.dailyNoteFolder, date))]
      && Files(r2.world.vault) == Files(w.vault) + {FilePath(settings.dailyNoteFolder, date)}
  {
    var r1 := Provision(w, templater, settings, date);
    RunOutcome(w, templater, settings, date);
    OneFileAdded(w, templater, settings, date);
    ExistingNodeIsOnlyOpened(r1.world, templater, settings, date);
  }

  /**
    When the first run failed while creating, a second run with nothing changed
    in between fails the same way on the same, unchanged vault.
  */
  lemma SecondRunFailsAlike(w: World, templater: Templater, settings: Settings, date: DateKey)
    requires WellFormed(w.vault) && IsCalendarKey(date)
    requires var step := Provision(w, templater, settings, date).step;
      step.Failed? && !step.fault.TemplaterThrew?
    ensures var r1 := Provision(w, templater, settings, date);
      var r2 := Provision(r1.world, templater, settings, date);
      && r2.step == r1.step
      && r2.world.vault == w.vault
      && r2.world.notices == r1.world.notices + [ErrorNotice(r1.step.fault)]
  {
    var r1 := Provision(w, templater, settings, date);
    RunOutcome(w, templater, settings, date);
    var a1, a2 := Attempt(w, templater, settings, date), Attempt(r1.world, templater, settings, date);
    assert r1.step == a1.step && r1.world.vault == a1.world.vault;
    AttemptReadsOnlyVault(w, r1.world, templater, settings, date);
    AttemptNotices(r1.world, templater, settings, date);
    assert a2.step == r1.step && a2.world.vault == w.vault && a2.world.notices == r1.world.notices;
  }

  /** An empty vault, base folder "Notes", no template, 7 March 2024: folders, empty note, one tab. */
  lemma ScenarioNewNoteUnderBase(templater: Templater, settings: Settings, date: DateKey)
    requires settings == Settings("Notes", "") && date == DateKey(2024, 3, 7)
    ensures var r := Provision(World(map[], [], []), templater, settings, date);
      && r.step == CreatedEmpty
      && "Notes/2024/03/2024-03-07.md" in r.world.vault && r.world.vault["Notes/2024/03/2024-03-07.md"] == File("")
      && "Notes/2024/03" in r.world.vault && r.world.vault["Notes/2024/03"] == Folder
      && "Notes/2024" in r.world.vault && r.world.vault["Notes/2024"] == Folder
      && "Notes" in r.world.vault && r.world.vault["Notes"] == Folder
      && r.world.leaves == [Showing("Notes/2024/03/2024-03-07.md")]
      && r.world.notices == []
  {
    var fp := "Notes/2024/03/2024-03-07.md";
    assert FilePath(settings.dailyNoteFolder, date) == fp by {
      ExampleWithBaseFolder();
    }
    assert "Notes" in Prefixes(fp) && "Notes/2024" in Prefixes(fp) && "Notes/2024/03" in Prefixes(fp) by {
      assert fp[5] == '/' && fp[..5] == "Notes";
      assert fp[10] == '/' && fp[..10] == "Notes/2024";
      assert fp[13] == '/' && fp[..13] == "Notes/2024/03";
    }
    FirstRunWithoutTemplate(templater, settings, date);
  }

  /** On an empty vault with no template configured: the empty note, its folders and one tab, no notice. */
  lemma FirstRunWithoutTemplate(templater: Templater, settings: Settings, date: DateKey)
    requires settings.dailyNoteTemplate == "" && IsCalendarKey(date)
    ensures var r := Provision(World(map[], [], []), templater, settings, date);
      var fp := FilePath(settings.dailyNoteFolder, date);
      && r.step == CreatedEmpty
      && fp in r.world.vault && r.world.vault[fp] == File("")
      && (forall a :: a in Prefixes(fp) ==> a in r.world.vault && r.world.vault[a] == Folder)
      && r.world.leaves == [Showing(fp)]
      && r.world.notices == []
  {
    var w := World(map[], [], []);
    NoTemplateKeepsNoteEmpty(w, templater, templater, settings, date);
    NewNoteOpenedBeforeTemplate(w, templater, settings, date);
    ProvisionKeepsWellFormed(w, templater, settings, date);
  }

  /** A backslash template path on an empty vault: the empty note is opened and the separator notice shown. */
  lemma ScenarioBackslashTemplate(templater: Templater, settings: Settings, date: DateKey)
    requires settings == Settings("", "Templates\\Daily.md") && date == DateKey(2024, 3, 7)
    ensures var r := Provision(World(map[], [], []), templater, settings, date);
      && r.step == RejectedBackslash
      && "2024/03/2024-03-07.md" in r.world.vault && r.world.vault["2024/03/2024-03-07.md"] == File("")
      && r.world.leaves == [Showing("2024/03/2024-03-07.md")]
      && r.world.notices == [BackslashNotice]
  {
    var w := World(map[], [], []);
    assert FilePath(settings.dailyNoteFolder, date) == "2024/03/2024-03-07.md" by {
      ExampleWithoutBaseFolder();
    }
    assert settings.dailyNoteTemplate[9] == '\\';
    BackslashStopsTemplate(w, templater, templater, settings, date);
  }
}
