/**
  The note provisioner of the "Daily Note" command: look the note up, create the
  month folder and an empty note when it is absent, open it in a new tab, then
  optionally seed it from a template through the Templater plugin; any thrown
  error becomes one notice.

  `Attempt` and `Provision` state the whole effect of one run on the host's
  state; the classes `App` and `SnorkelPlugin` carry out the same run call by
  call and are proved to have exactly that effect.
*/
module NoteProvisioner {
  import opened Wrappers
  import opened Paths
  import opened Vault
  import opened PathResolver

  /** The plugin's two daily-note settings, read once per run. */
  datatype Settings = Settings(dailyNoteFolder: string, dailyNoteTemplate: string)

  /** What Templater's `overwrite_file_commands` does with the note's text. */
  datatype Expansion = Rewritten(text: string) | Threw(message: string)

  /** The plugin registry entry 'templater-obsidian': absent, or present with its rewriting step. */
  datatype Templater = Missing | Installed(overwriteFileCommands: string -> Expansion)

  /** A workspace tab: freshly created, or showing a file. */
  datatype Leaf = Empty | Showing(path: string)

  /** What one run can change: the vault, the workspace tabs and the notices shown. */
  datatype World = World(vault: Store, leaves: seq<Leaf>, notices: seq<string>)

  /** The terminal state of one run. */
  datatype Step =
    | OpenedExisting
    | IgnoredNonFile
    | CreatedEmpty
    | RejectedBackslash
    | NoTemplater
    | NoTemplateFile
    | Templated
    | Failed(fault: Fault)

  datatype Run = Run(world: World, step: Step)

  const BackslashNotice: string :=
    "Template path must use forward slashes (/), not backslashes (\\). Example: Path/To/Template.md"
  const TemplaterMissingNotice: string := "Templater plugin not found"
  const TemplateMissingPrefix: string := "Template file not found: "
  const ErrorPrefix: string := "Error creating daily note: "

  function ErrorNotice(f: Fault): string {
    ErrorPrefix + FaultMessage(f)
  }

  /** The vault after the creating calls, and the error one of them threw, if any. */
  datatype Created = Created(store: Store, fault: Option<Fault>)

  /**
    Create the month folder when no node is at its path, then the empty note.
    Nothing is rolled back: a failing `create` leaves the folders already made.
  */
  function CreateNote(s: Store, monthFolder: string, filePath: string): Created {
    var folders := if monthFolder in s then Ok(s) else AddFolder(s, monthFolder);
    match folders
    case Err(f) => Created(s, Some(f))
    case Ok(s1) =>
      match AddFile(s1, filePath, "")
      case Err(f) => Created(s1, Some(f))
      case Ok(s2) => Created(s2, None)
  }

  /** The template step, on the world in which the new empty note exists and is shown. */
  function ApplyTemplate(w: World, filePath: string, template: string, templater: Templater): Run
    requires filePath in w.vault
  {
    if template == "" then Run(w, CreatedEmpty)
    else if '\\' in template then Run(w.(notices := w.notices + [BackslashNotice]), RejectedBackslash)
    else if templater.Missing? then Run(w.(notices := w.notices + [TemplaterMissingNotice]), NoTemplater)
    else if template !in w.vault || !w.vault[template].File? then
      Run(w.(notices := w.notices + [TemplateMissingPrefix + template]), NoTemplateFile)
    else
      var content := w.vault[template].content;
      var copied := w.vault[filePath := File(content)];
      match templater.overwriteFileCommands(content)
      case Rewritten(text) => Run(w.(vault := copied[filePath := File(text)]), Templated)
      case Threw(message) => Run(w.(vault := copied), Failed(TemplaterThrew(message)))
  }

  /** The body of the command's `try` block; a Failed step is an error thrown out of it. */
  function Attempt(w: World, templater: Templater, settings: Settings, date: DateKey): Run {
    var filePath := FilePath(settings.dailyNoteFolder, date);
    var monthFolder := MonthFolder(settings.dailyNoteFolder, date);
    if filePath in w.vault then
      if w.vault[filePath].File? then Run(w.(leaves := w.leaves + [Showing(filePath)]), OpenedExisting)
      else Run(w.(leaves := w.leaves + [Empty]), IgnoredNonFile)
    else
      var c := CreateNote(w.vault, monthFolder, filePath);
      if c.fault.Some? then Run(w.(vault := c.store), Failed(c.fault.value))
      else ApplyTemplate(World(c.store, w.leaves + [Showing(filePath)], w.notices), filePath,
                         settings.dailyNoteTemplate, templater)
  }

  /** One run of the command: the `catch` turns a thrown error into one notice. */
  function Provision(w: World, templater: Templater, settings: Settings, date: DateKey): Run {
    var r := Attempt(w, templater, settings, date);
    if r.step.Failed? then Run(r.world.(notices := r.world.notices + [ErrorNotice(r.step.fault)]), r.step)
    else r
  }

  /** The host application: its vault, its workspace tabs, the notices shown, and its plugin registry. */
  class App {
    var vault: Store
    var leaves: seq<Leaf>
    var notices: seq<string>
    const templater: Templater

    constructor (vault: Store, templater: Templater)
      ensures State() == World(vault, [], []) && this.templater == templater
    {
      this.vault := vault;
      this.leaves := [];
      this.notices := [];
      this.templater := templater;
    }

    function State(): World
      reads this
    {
      World(vault, leaves, notices)
    }

    /** `vault.getAbstractFileByPath(path)`: the node at the path, if any. */
    function GetAbstractFileByPath(path: string): (r: Option<Node>)
      reads this
      ensures r.Some? <==> path in vault
      ensures r.Some? ==> r.value == vault[path]
    {
      if path in vault then Some(vault[path]) else None
    }

    /** `vault.createFolder(path)`; a thrown error is returned as a fault. */
    method CreateFolder(path: string) returns (fault: Option<Fault>)
      modifies this
      ensures fault.None? <==> AddFolder(old(vault), path).Ok?
      ensures fault.None? ==> vault == AddFolder(old(vault), path).value
      ensures fault.Some? ==> vault == old(vault) && fault.value == AddFolder(old(vault), path).fault
      ensures leaves == old(leaves) && notices == old(notices)
    {
      match AddFolder(vault, path)
      case Ok(s) =>
        vault := s;
        fault := None;
      case Err(f) =>
        fault := Some(f);
    }

    /** `vault.create(path, data)`; a thrown error is returned as a fault. */
    method Create(path: string, data: string) returns (fault: Option<Fault>)
      modifies this
      ensures fault.None? <==> AddFile(old(vault), path, data).Ok?
      ensures fault.None? ==> vault == AddFile(old(vault), path, data).value
      ensures fault.Some? ==> vault == old(vault) && fault.value == AddFile(old(vault), path, data).fault
      ensures leaves == old(leaves) && notices == old(notices)
    {
      match AddFile(vault, path, data)
      case Ok(s) =>
        vault := s;
        fault := None;
      case Err(f) =>
        fault := Some(f);
    }

    /** `vault.read(file)`. */
    function Read(path: string): string
      reads this
      requires path in vault && vault[path].File?
    {
      vault[path].content
    }

    /** `vault.modify(file, data)`: the file's content is replaced. */
    method Modify(path: string, data: string)
      requires path in vault && vault[path].File?
      modifies this
      ensures vault == old(vault)[path := File(data)]
      ensures leaves == old(leaves) && notices == old(notices)
    {
      vault := vault[path := File(data)];
    }

    /** `workspace.getLeaf('tab')`: a new, empty tab. */
    method GetLeaf()
      modifies this
      ensures leaves == old(leaves) + [Empty]
      ensures vault == old(vault) && notices == old(notices)
    {
      leaves := leaves + [Empty];
    }

    /** `leaf.openFile(file)` on the tab just created. */
    method OpenFile(path: string)
      requires leaves != [] && leaves[|leaves| - 1] == Empty
      modifies this
      ensures leaves == old(leaves)[..|old(leaves)| - 1] + [Showing(path)]
      ensures vault == old(vault) && notices == old(notices)
    {
      leaves := leaves[..|leaves| - 1] + [Showing(path)];
    }

    /** `templater.overwrite_file_commands(file)`: rewrites the file's text, or throws. */
    method OverwriteFileCommands(path: string) returns (fault: Option<Fault>)
      requires templater.Installed? && path in vault && vault[path].File?
      modifies this
      ensures match templater.overwriteFileCommands(old(vault)[path].content)
              case Rewritten(text) => fault == None && vault == old(vault)[path := File(text)]
              case Threw(m) => fault == Some(TemplaterThrew(m)) && vault == old(vault)
      ensures leaves == old(leaves) && notices == old(notices)
    {
      match templater.overwriteFileCommands(vault[path].content)
      case Rewritten(text) =>
        vault := vault[path := File(text)];
        fault := None;
      case Threw(m) =>
        fault := Some(TemplaterThrew(m));
    }

    /** `new Notice(message)`. */
    method ShowNotice(message: string)
      modifies this
      ensures notices == old(notices) + [message]
      ensures vault == old(vault) && leaves == old(leaves)
    {
      notices := notices + [message];
    }
  }

  /** The plugin, holding the host application and its settings. */
  class SnorkelPlugin {
    const app: App
    var settings: Settings

    constructor (app: App, settings: Settings)
      ensures this.app == app && this.settings == settings
    {
      this.app := app;
      this.settings := settings;
    }

    /** The "Daily Note" command for the given date. */
    method DailyNote(date: DateKey) returns (step: Step)
      modifies app
      ensures Run(app.State(), step) == Provision(old(app.State()), app.templater, settings, date)
      ensures step.Failed? ==> app.notices == old(app.notices) + [ErrorNotice(step.fault)]
    {
      step := TryDailyNote(date);
      if step.Failed? {
        app.ShowNotice(ErrorNotice(step.fault));
      }
    }

    /** The `try` block of the command; a Failed step is the error it throws. */
    method TryDailyNote(date: DateKey) returns (step: Step)
      modifies app
      ensures Run(app.State(), step) == Attempt(old(app.State()), app.templater, settings, date)
      ensures step.Failed? ==> app.notices == old(app.notices)
    {
      ghost var w0 := app.State();
      var filePath := FilePath(settings.dailyNoteFolder, date);
      var monthFolder := MonthFolder(settings.dailyNoteFolder, date);
      var file := app.GetAbstractFileByPath(filePath);
      if file.None? {
        var fault := CreateNoteStep(monthFolder, filePath);
        if fault.Some? {
          return Failed(fault.value);
        }
        app.GetLeaf();
        app.OpenFile(filePath);
        step := TemplateStep(filePath, settings.dailyNoteTemplate);
      } else {
        app.GetLeaf();
        if file.value.File? {
          app.OpenFile(filePath);
          return OpenedExisting;
        }
        return IgnoredNonFile;
      }
    }

    /** Creates the month folder when no node is at its path, then the empty note. */
    method CreateNoteStep(monthFolder: string, filePath: string) returns (fault: Option<Fault>)
      modifies app
      ensures Created(app.vault, fault) == CreateNote(old(app.vault), monthFolder, filePath)
      ensures fault.None? ==> filePath in app.vault && app.vault[filePath] == File("")
      ensures app.leaves == old(app.leaves) && app.notices == old(app.notices)
    {
      if app.GetAbstractFileByPath(monthFolder).None? {
        fault := app.CreateFolder(monthFolder);
        if fault.Some? {
          return;
        }
      }
      fault := app.Create(filePath, "");
    }

    /** The optional template step, run once the new empty note is open. */
    method TemplateStep(filePath: string, template: string) returns (step: Step)
      requires filePath in app.vault && app.vault[filePath].File?
      modifies app
      ensures Run(app.State(), step) == ApplyTemplate(old(app.State()), filePath, template, app.templater)
      ensures step.Failed? ==> app.notices == old(app.notices)
    {
      if template == "" {
        return CreatedEmpty;
      }
      if '\\' in template {
        app.ShowNotice(BackslashNotice);
        return RejectedBackslash;
      }
      if app.templater.Installed? {
        var templateFile := app.GetAbstractFileByPath(template);
        if templateFile.Some? && templateFile.value.File? {
          var content := app.Read(template);
          app.Modify(filePath, content);
          var fault := app.OverwriteFileCommands(filePath);
          if fault.Some? {
            return Failed(fault.value);
          }
          return Templated;
        } else {
          app.ShowNotice(TemplateMissingPrefix + template);
          return NoTemplateFile;
        }
      } else {
        app.ShowNotice(TemplaterMissingNotice);
        return NoTemplater;
      }
    }
  }
}
