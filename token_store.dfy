/** `OpenbisCredentialStore` of src/python/PyBis/pybis/pybis.py: a token
    cached in the file `bis_token.txt` of a store folder.

    The file system is modelled as a `Disk`: a map from the path of each
    regular file to its contents, and the set of paths that are
    directories. Paths are compared as strings. */
module TokenStore {
  import opened Wrappers
  import opened Credentials

  /** The name of the token file inside the store folder. */
  const TokenFileName: string := "bis_token.txt"

  /** The errors the three file-system calls of the store raise. */
  datatype IoError =
    | FileNotFound(path: string)   // FileNotFoundError
    | FileExists(path: string)     // FileExistsError
    | IsADirectory(path: string)   // IsADirectoryError

  datatype Disk = Disk(files: map<string, string>, folders: set<string>)

  /** No path is both a file and a directory, and the empty path is neither. */
  predicate WellFormed(d: Disk) {
    && d.files.Keys !! d.folders
    && "" !in d.files && "" !in d.folders
  }

  /** `os.path.exists(p)` */
  predicate Exists(d: Disk, p: string) {
    p in d.files || p in d.folders
  }

  /** `os.path.join(folder, name)` for a relative `name`: a separator is
      inserted unless `folder` is empty or already ends with one. */
  function JoinPath(folder: string, name: string): (p: string)
    requires name != [] && name[0] != '/'
    ensures folder <= p && |p| >= |folder| + |name| && p[|p| - |name|..] == name
    ensures |p| == |folder| + |name| <==> (folder == [] || folder[|folder| - 1] == '/')
    ensures |p| != |folder| + |name| ==> |p| == |folder| + 1 + |name| && p[|folder|] == '/'
  {
    if folder == [] || folder[|folder| - 1] == '/' then folder + name else folder + "/" + name
  }

  /** The `store_path` property: the token file inside the store folder. */
  function TokenPath(folder: string): string {
    JoinPath(folder, TokenFileName)
  }

  /** The token file is never the store folder itself. */
  lemma TokenPathIsInsideFolder(folder: string)
    ensures TokenPath(folder) != folder
    ensures folder <= TokenPath(folder)
    ensures |TokenPath(folder)| > |folder|
  {
  }

  /** What `read()` returns on disk `d`: empty credentials when the token
      file is missing, otherwise a token that is the whole contents of the
      file and no username/password pair. Opening a directory raises. */
  function ReadToken(d: Disk, folder: string): (r: Result<Credentials, IoError>)
    ensures !Exists(d, TokenPath(folder)) ==> r == Success(EmptyCredentials())
    ensures TokenPath(folder) in d.folders ==> r == Failure(IsADirectory(TokenPath(folder)))
    ensures TokenPath(folder) in d.files && TokenPath(folder) !in d.folders ==>
              r == Success(Credentials(Some(d.files[TokenPath(folder)]), None))
    ensures r.Success? ==> !HasUsernameAndPassword(r.value)
  {
    var path := TokenPath(folder);
    if !Exists(d, path) then Success(EmptyCredentials())
    else if path in d.folders then Failure(IsADirectory(path))
    else Success(Credentials(Some(d.files[path]), None))
  }

  /** The new disk and the outcome of one `write(credentials)`. */
  datatype WriteResult = WriteResult(disk: Disk, outcome: Outcome<IoError>)

  /** What `write(credentials)` does to disk `d`. Credentials without a
      token write nothing. Otherwise the store folder is created when it
      does not exist (`os.makedirs("")` raises), and the token file is
      overwritten with the token (opening a directory for writing raises). */
  function WriteToken(d: Disk, folder: string, c: Credentials): (r: WriteResult)
    ensures !HasToken(c) ==> r == WriteResult(d, Pass)
    ensures HasToken(c) && !Exists(d, folder) && folder == "" ==>
              r == WriteResult(d, Fail(FileNotFound(folder)))
    ensures r.outcome.Pass? && HasToken(c) ==>
              && r.disk.files == d.files[TokenPath(folder) := c.token.value]
              && r.disk.folders == (if Exists(d, folder) then d.folders else d.folders + {folder})
    ensures r.outcome.Fail? <==>
              HasToken(c) && ((!Exists(d, folder) && folder == "") || TokenPath(folder) in d.folders)
    ensures r.outcome.Fail? ==>
              && r.disk.files == d.files
              && r.disk.folders == (if Exists(d, folder) || folder == "" then d.folders else d.folders + {folder})
    ensures r.disk.files.Keys <= d.files.Keys + {TokenPath(folder)}
  {
    if !HasToken(c) then WriteResult(d, Pass)
    else
      var path := TokenPath(folder);
      if !Exists(d, folder) && folder == "" then WriteResult(d, Fail(FileNotFound(folder)))
      else
        var d1 := if Exists(d, folder) then d else d.(folders := d.folders + {folder});
        assert path != folder by { TokenPathIsInsideFolder(folder); }
        if path in d1.folders then WriteResult(d1, Fail(IsADirectory(path)))
        else WriteResult(d1.(files := d1.files[path := c.token.value]), Pass)
  }

  /** Writing keeps a well-formed disk well-formed, whatever the outcome. */
  lemma WriteKeepsWellFormed(d: Disk, folder: string, c: Credentials)
    requires WellFormed(d)
    ensures WellFormed(WriteToken(d, folder, c).disk)
  {
    TokenPathIsInsideFolder(folder);
  }

  /** Round trip: once a token has been written, `read()` gives back that
      token and no username/password pair. */
  lemma WriteThenRead(d: Disk, folder: string, c: Credentials)
    requires HasToken(c)
    requires WriteToken(d, folder, c).outcome.Pass?
    ensures ReadToken(WriteToken(d, folder, c).disk, folder) == Success(Credentials(c.token, None))
  {
  }

  /** A second write overwrites the first: the last token written is the
      one `read()` returns. */
  lemma LastWriteWins(d: Disk, folder: string, first: Credentials, second: Credentials)
    requires HasToken(first) && HasToken(second)
    requires WriteToken(d, folder, first).outcome.Pass?
    requires WriteToken(WriteToken(d, folder, first).disk, folder, second).outcome.Pass?
    ensures ReadToken(WriteToken(WriteToken(d, folder, first).disk, folder, second).disk, folder)
            == Success(Credentials(second.token, None))
  {
  }

  /** A successful write leaves the store folder existing and the token
      file present as a regular file. */
  lemma WriteCreatesFolderAndFile(d: Disk, folder: string, c: Credentials)
    requires HasToken(c)
    requires WriteToken(d, folder, c).outcome.Pass?
    ensures Exists(WriteToken(d, folder, c).disk, folder)
    ensures TokenPath(folder) in WriteToken(d, folder, c).disk.files
  {
  }

  /** The file system the store works on. */
  class FileSystem {
    var disk: Disk

    constructor (d: Disk)
      ensures disk == d
    {
      disk := d;
    }

    /** `os.path.exists(p)` */
    predicate PathExists(p: string)
      reads this
    {
      Exists(disk, p)
    }

    /** `os.makedirs(p)`; the ancestors of `p` are not tracked. */
    method MakeDirs(p: string) returns (r: Outcome<IoError>)
      modifies this
      ensures p == "" ==> r == Fail(FileNotFound(p)) && disk == old(disk)
      ensures p != "" && Exists(old(disk), p) ==> r == Fail(FileExists(p)) && disk == old(disk)
      ensures p != "" && !Exists(old(disk), p) ==>
                r == Pass && disk == old(disk).(folders := old(disk).folders + {p})
    {
      if p == "" {
        r := Fail(FileNotFound(p));
      } else if PathExists(p) {
        r := Fail(FileExists(p));
      } else {
        disk := disk.(folders := disk.folders + {p});
        r := Pass;
      }
    }

    /** `open(p, "r").read()` */
    method ReadFile(p: string) returns (r: Result<string, IoError>)
      ensures p in disk.folders ==> r == Failure(IsADirectory(p))
      ensures p !in disk.folders && p in disk.files ==> r == Success(disk.files[p])
      ensures !Exists(disk, p) ==> r == Failure(FileNotFound(p))
    {
      if p in disk.folders {
        r := Failure(IsADirectory(p));
      } else if p in disk.files {
        r := Success(disk.files[p]);
      } else {
        r := Failure(FileNotFound(p));
      }
    }

    /** `open(p, "w").write(contents)`: creates or truncates the file. */
    method WriteFile(p: string, contents: string) returns (r: Outcome<IoError>)
      modifies this
      ensures p in old(disk).folders ==> r == Fail(IsADirectory(p)) && disk == old(disk)
      ensures p !in old(disk).folders ==>
                r == Pass && disk == old(disk).(files := old(disk).files[p := contents])
    {
      if p in disk.folders {
        r := Fail(IsADirectory(p));
      } else {
        disk := disk.(files := disk.files[p := contents]);
        r := Pass;
      }
    }
  }

  /** `OpenbisCredentialStore(store_folder)` over the file system `fs`. */
  class CredentialStore {
    const storeFolder: string
    const fs: FileSystem

    constructor (storeFolder: string, fs: FileSystem)
      ensures this.storeFolder == storeFolder && this.fs == fs
    {
      this.storeFolder := storeFolder;
      this.fs := fs;
    }

    /** The `store_path` property. */
    function StorePath(): string {
      TokenPath(storeFolder)
    }

    /** `read()` */
    method Read() returns (r: Result<Credentials, IoError>)
      ensures r == ReadToken(fs.disk, storeFolder)
    {
      var path := StorePath();
      if !fs.PathExists(path) {
        return Success(EmptyCredentials());
      }
      var contents := fs.ReadFile(path);
      match contents
      case Failure(e) => r := Failure(e);
      case Success(token) => r := Success(Credentials(Some(token), None));
    }

    /** `write(credentials)` */
    method Write(c: Credentials) returns (r: Outcome<IoError>)
      modifies fs
      ensures WriteResult(fs.disk, r) == WriteToken(old(fs.disk), storeFolder, c)
    {
      if !HasToken(c) {
        return Pass;
      }
      var token := c.token.value;
      if !fs.PathExists(storeFolder) {
        r := fs.MakeDirs(storeFolder);
        if r.Fail? {
          return;
        }
      }
      TokenPathIsInsideFolder(storeFolder);
      r := fs.WriteFile(StorePath(), token);
    }
  }

  /** The scenario of src/python/pybis/pybis_test.py: write credentials
      holding "magic_token" into an existing store folder, read them back,
      and find the same token and no username/password pair. The test
      imports `OpenbisCredentialStore` from src/python/pybis/pybis.py,
      which does not define that class; the scenario is stated of the store
      of src/python/PyBis/pybis/pybis.py. What the test reads back is named
      `diskCredentials` here: it holds credentials, not a disk. */
  method CredentialsStoreScenario(fs: FileSystem, folder: string) returns (diskCredentials: Result<Credentials, IoError>)
    requires folder in fs.disk.folders && TokenPath(folder) !in fs.disk.folders
    modifies fs
    ensures diskCredentials.Success? && diskCredentials.value.token == Some("magic_token")
    ensures !HasUsernameAndPassword(diskCredentials.value)
  {
    var credentials := Credentials(Some("magic_token"), None);
    var store := new CredentialStore(folder, fs);
    var written := store.Write(credentials);
    diskCredentials := store.Read();
  }
}
