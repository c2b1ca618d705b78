/**
  The host's vault as the command sees it: a map from path to node, with the two
  creating calls it makes (`createFolder` and `create`), their failure cases, and
  the well-formedness they preserve (every folder prefix of a stored path is a
  stored folder).
*/
module Vault {
  import opened Paths

  datatype Node = File(content: string) | Folder

  type Store = map<string, Node>

  /** Every stored path sits under stored folders only: no file is used as a folder. */
  ghost predicate WellFormed(s: Store) {
    forall p, a :: p in s && a in Prefixes(p) ==> a in s && s[a].Folder?
  }

  /** The paths that hold files. */
  function Files(s: Store): set<string> {
    set p | p in s && s[p].File?
  }

  /** Why a call into the host throws. */
  datatype Fault =
    | FolderExists(path: string)
    | FileExists(path: string)
    | NotAFolder(path: string)
    | TemplaterThrew(message: string)

  /** The `message` of the thrown error. */
  function FaultMessage(f: Fault): string {
    match f
    case FolderExists(_) => "Folder already exists."
    case FileExists(_) => "File already exists."
    case NotAFolder(p) => "Not a folder: " + p
    case TemplaterThrew(m) => m
  }

  datatype Result<+T> = Ok(value: T) | Err(fault: Fault)

  /**
    `createFolder(path)`: refuses a path that is taken and a path under a file;
    otherwise the folder and every missing folder prefix now exist.
  */
  function AddFolder(s: Store, path: string): (r: Result<Store>)
    ensures r.Ok? <==> path !in s && forall a :: a in Prefixes(path) && a in s ==> s[a].Folder?
    ensures r.Err? ==> r.fault == (if path in s then FolderExists(path) else NotAFolder(path))
    ensures r.Ok? ==> r.value.Keys == s.Keys + Prefixes(path) + {path}
    ensures r.Ok? ==> forall p :: p in r.value ==> r.value[p] == if p in s then s[p] else Folder
  {
    if path in s then Err(FolderExists(path))
    else if exists a :: a in Prefixes(path) && a in s && s[a].File? then Err(NotAFolder(path))
    else Ok(s + map a | a in Prefixes(path) + {path} && a !in s :: Folder)
  }

  /**
    `create(path, data)`: refuses a path that is taken and a path whose parent
    is not an existing folder; otherwise a file with `data` is stored there.
  */
  function AddFile(s: Store, path: string, data: string): (r: Result<Store>)
    ensures r.Ok? <==> path !in s && (Parent(path) == "" || (Parent(path) in s && s[Parent(path)].Folder?))
    ensures r.Err? ==> r.fault == (if path in s then FileExists(path) else NotAFolder(Parent(path)))
    ensures r.Ok? ==> r.value.Keys == s.Keys + {path} && r.value[path] == File(data)
    ensures r.Ok? ==> forall p :: p in s ==> r.value[p] == s[p]
  {
    if path in s then Err(FileExists(path))
    else if Parent(path) != "" && !(Parent(path) in s && s[Parent(path)].Folder?) then Err(NotAFolder(Parent(path)))
    else Ok(s[path := File(data)])
  }

  /** The folder prefixes of a path are those of its parent, plus the parent itself. */
  lemma PrefixesViaParent(path: string)
    ensures Parent(path) == "" ==> Prefixes(path) == {}
    ensures Parent(path) != "" ==> Prefixes(path) == Prefixes(Parent(path)) + {Parent(path)}
  {
    if '/' in path {
      var j := LastSlash(path);
      assert path == path[..j] + "/" + path[j + 1..];
      if j > 0 {
        PrefixesOfJoin(path[..j], path[j + 1..]);
      }
    }
  }

  /** createFolder keeps the vault well-formed. */
  lemma AddFolderKeepsWellFormed(s: Store, path: string)
    requires WellFormed(s) && AddFolder(s, path).Ok?
    ensures WellFormed(AddFolder(s, path).value)
  {
    var r := AddFolder(s, path).value;
    forall p, a | p in r && a in Prefixes(p) ensures a in r && r[a].Folder? {
      if p !in s {
        if p != path {
          PrefixOfPrefix(path, p, a);
        }
        assert a in Prefixes(path);
      }
    }
  }

  /** create keeps the vault well-formed. */
  lemma AddFileKeepsWellFormed(s: Store, path: string, data: string)
    requires WellFormed(s) && AddFile(s, path, data).Ok?
    ensures WellFormed(AddFile(s, path, data).value)
  {
    var r := AddFile(s, path, data).value;
    PrefixesViaParent(path);
    forall p, a | p in r && a in Prefixes(p) ensures a in r && r[a].Folder? {
      if p == path && a != Parent(path) {
        assert a in Prefixes(Parent(path));
      }
    }
  }
}
