/** Finding and loading the configuration: upward searches, the .env file, the configuration file. */
module ConfigSearch {
  import opened Wrappers
  import opened Strings
  import opened Paths
  import opened Config
  import opened EnvFile
  import Provisioning

  /** The file system of a run, which does not change, and the decoder of configuration files, which fills a
      given configuration from a text. */
  datatype Files = Files(
    cwd: Option<string>,
    present: string -> bool,
    read: string -> ReadResult,
    decode: (string, Config) -> Option<Config>)

  /** A working directory is a rooted text, not necessarily a clean one. */
  ghost predicate RootedFiles(f: Files) {
    f.cwd.Some? ==> Rooted(f.cwd.value)
  }

  /** The search that walks upwards until a directory is its own parent. */
  function Search(present: string -> bool, dir: Path, name: string): Option<string>
    requires IsPath(dir)
    decreases |dir|
  {
    DirClean(dir);
    if present(FileIn(dir, name)) then Some(FileIn(dir, name))
    else if dir == [] then None
    else Search(present, Dir(dir), name)
  }

  /** The loop of both searches; it ends where the directory's text is that of the directory it came from. */
  method FindUpwards(f: Files, start: Path, name: string) returns (found: Option<string>)
    requires IsPath(start)
    ensures found == Search(f.present, start, name)
  {
    var dir := start;
    while true
      invariant IsPath(dir)
      invariant Search(f.present, start, name) == Search(f.present, dir, name)
      decreases |dir|
    {
      var candidate := FileIn(dir, name);
      if f.present(candidate) {
        return Some(candidate);
      }
      var parent := Dir(dir);
      DirSameIff(dir);
      DirClean(dir);
      if Text(parent) == Text(dir) {
        return None;
      }
      dir := parent;
    }
  }

  // ----- the nearest ancestor

  /** The first `n` parts of a clean path are one of its ancestors; the path itself is the nearest. */
  ghost predicate NearestAt(present: string -> bool, dir: Path, name: string, n: nat) {
    && n <= |dir| && present(Text(dir[..n] + [name]))
    && forall m :: n < m <= |dir| ==> !present(Text(dir[..m] + [name]))
  }

  /** The file is that of the nearest ancestor holding one; without a file, no ancestor holds one. */
  ghost predicate IsNearest(present: string -> bool, dir: Path, name: string, found: Option<string>) {
    match found
    case Some(file) => exists n: nat :: NearestAt(present, dir, name, n) && file == Text(dir[..n] + [name])
    case None => forall n: nat :: n <= |dir| ==> !present(Text(dir[..n] + [name]))
  }

  lemma NearestHere(present: string -> bool, dir: Path, name: string)
    requires present(Text(dir + [name]))
    ensures IsNearest(present, dir, name, Some(Text(dir + [name])))
  {
    assert dir[..|dir|] == dir;
    assert NearestAt(present, dir, name, |dir|);
  }

  lemma NearestAbove(present: string -> bool, dir: Path, name: string, found: Option<string>)
    requires dir != [] && !present(Text(dir + [name]))
    requires IsNearest(present, dir[..|dir| - 1], name, found)
    ensures IsNearest(present, dir, name, found)
  {
    var up := dir[..|dir| - 1];
    assert dir[..|dir|] == dir;
    assert forall n :: 0 <= n <= |up| ==> up[..n] == dir[..n];
    if found.Some? {
      var n: nat :| NearestAt(present, up, name, n) && found.value == Text(up[..n] + [name]);
      assert NearestAt(present, dir, name, n);
    }
  }

  /** From a clean directory a search finds the file of the nearest ancestor holding one. */
  lemma {:induction false} CleanSearchFindsNearest(present: string -> bool, dir: Path, name: string)
    requires IsClean(dir) && IsPath(dir) && Normal(name)
    ensures IsNearest(present, dir, name, Search(present, dir, name))
    decreases |dir|
  {
    hide IsNearest, Clean, Text, Normal;
    DirClean(dir);
    CleanKeeps(dir);
    FileInClean(dir, name);
    if present(FileIn(dir, name)) {
      NearestHere(present, dir, name);
    } else if dir != [] {
      CleanSearchFindsNearest(present, Dir(dir), name);
      NearestAbove(present, dir, name, Search(present, Dir(dir), name));
    } else {
      NowhereAtRoot(present, name);
    }
  }

  lemma NowhereAtRoot(present: string -> bool, name: string)
    requires !present(Text([] + [name]))
    ensures IsNearest(present, [], name, None)
  {
    var root: Path := [];
    assert root[..0] == root;
  }

  /** The directory ends in a double dot, and the search looks, and finds something, in the directory before it,
      which is no ancestor of the directory but a child. */
  predicate Sidesteps(present: string -> bool, dir: Path, name: string) {
    && dir != [] && dir[|dir| - 1] == ".." && Dir(dir) != []
    && !present(FileIn(dir, name)) && present(FileIn(Dir(dir), name))
  }

  /** What a search visits after a directory that does not hold the file: its parent, or the directory itself
      once more, or for a double dot its child. */
  lemma DirCases(dir: Path)
    requires IsPath(dir) && dir != []
    ensures var c, last := Clean(dir), dir[|dir| - 1];
            if last == "" || last == "." || (last == ".." && Dir(dir) == []) then Dir(dir) == c
            else if last == ".." then c == Dir(dir)[..|Dir(dir)| - 1]
            else c != [] && Dir(dir) == c[..|c| - 1]
  {
  }

  lemma FileInSame(dir: Path, name: string)
    requires IsClean(dir) && IsPath(dir) && Normal(name)
    ensures FileIn(dir, name) == Text(dir + [name])
  {
    CleanKeeps(dir);
    FileInClean(dir, name);
  }

  /** A child's file is not that of an ancestor. */
  lemma ChildNotNearest(present: string -> bool, child: Path, name: string)
    requires IsClean(child) && child != [] && Normal(name)
    ensures !IsNearest(present, child[..|child| - 1], name, Some(Text(child + [name])))
  {
    var dir := child[..|child| - 1];
    forall n: nat | n <= |dir|
      ensures Text(dir[..n] + [name]) != Text(child + [name])
    {
      assert forall part <- child + [name] :: part in child || part == name;
      assert forall part <- dir[..n] + [name] :: part in child || part == name;
      DepthDiffers(dir[..n] + [name], child + [name]);
    }
  }

  /** The file is not in the directory itself, and the next directory visited is not a child. */
  lemma FoundAbove(present: string -> bool, dir: Path, name: string)
    requires IsPath(dir) && Normal(name) && dir != [] && !present(FileIn(dir, name))
    requires dir[|dir| - 1] == ".." ==> Dir(dir) == []
    ensures IsNearest(present, Clean(dir), name, Search(present, dir, name))
  {
    var c := Clean(dir);
    DirCases(dir);
    DirClean(dir);
    FileInClean(dir, name);
    hide IsNearest, Clean, Text, Normal, FileIn, Dir;
    CleanSearchFindsNearest(present, Dir(dir), name);
    if Dir(dir) != c {
      NearestAbove(present, c, name, Search(present, Dir(dir), name));
    }
  }

  /** Beyond a child without the file, the search goes on with the directory itself. */
  lemma FoundBeyondChild(present: string -> bool, dir: Path, name: string)
    requires IsPath(dir) && Normal(name) && dir != [] && !present(FileIn(dir, name))
    requires dir[|dir| - 1] == ".." && Dir(dir) != [] && !present(FileIn(Dir(dir), name))
    ensures IsNearest(present, Clean(dir), name, Search(present, dir, name))
  {
    DirCases(dir);
    DirClean(dir);
    DirClean(Dir(dir));
    hide IsNearest, Clean, Text, Normal, FileIn, Dir;
    assert Dir(Dir(dir)) == Clean(dir);
    CleanSearchFindsNearest(present, Clean(dir), name);
  }

  lemma FoundInChild(present: string -> bool, dir: Path, name: string)
    requires IsPath(dir) && Normal(name) && Sidesteps(present, dir, name)
    ensures !IsNearest(present, Clean(dir), name, Search(present, dir, name))
  {
    DirCases(dir);
    DirClean(dir);
    FileInSame(Dir(dir), name);
    hide IsNearest, Clean, Text, Normal, FileIn, Dir;
    ChildNotNearest(present, Dir(dir), name);
  }

  /** From any working directory a search finds the file of the nearest ancestor of the directory, if and only if
      it does not sidestep. */
  lemma SearchFindsNearestIff(present: string -> bool, dir: Path, name: string)
    requires IsPath(dir) && Normal(name)
    ensures IsNearest(present, Clean(dir), name, Search(present, dir, name)) <==> !Sidesteps(present, dir, name)
  {
    FileInClean(dir, name);
    if present(FileIn(dir, name)) {
      NearestHere(present, Clean(dir), name);
    } else if dir == [] {
      NowhereAtRoot(present, name);
    } else if dir[|dir| - 1] != ".." || Dir(dir) == [] {
      FoundAbove(present, dir, name);
    } else if present(FileIn(Dir(dir), name)) {
      FoundInChild(present, dir, name);
    } else {
      FoundBeyondChild(present, dir, name);
    }
  }

  /** The root, spelled as the parent of its child `x`, has that child for its directory. */
  lemma ChildOfRoot(x: string)
    requires Normal(x)
    ensures Clean([x]) == [x] && Clean([x, ".."]) == [] && Dir([x, ".."]) == [x]
  {
    assert [x][..0] == [] && [x, ".."][..1] == [x];
  }

  lemma RootFile(x: string, name: string)
    requires Normal(x) && Normal(name)
    ensures FileIn([x, ".."], name) == "/" + name
  {
    ChildOfRoot(x);
    FileInClean([x, ".."], name);
    ShortTexts(name, "");
    hide Clean, Text, FileIn, Joined, Dir, Normal;
    assert [] + [name] == [name];
  }

  lemma ChildFile(x: string, name: string)
    requires Normal(x) && Normal(name)
    ensures FileIn([x], name) == "/" + x + "/" + name
  {
    ChildOfRoot(x);
    FileInClean([x], name);
    ShortTexts(x, name);
    hide Clean, Text, FileIn, Joined, Dir, Normal;
    assert [x] + [name] == [x, name];
  }

  lemma SearchChild(present: string -> bool, dir: Path, name: string)
    requires IsPath(dir) && dir != [] && IsPath(Dir(dir))
    requires !present(FileIn(dir, name)) && present(FileIn(Dir(dir), name))
    ensures Search(present, dir, name) == Some(FileIn(Dir(dir), name))
  {
    hide FileIn, Dir;
  }

  /** A sidestep: the working directory is the root, spelled "/x/.." for a child `x`. The root holds no file, but the
      child does, and that is the one found. */
  lemma SidestepReachable(present: string -> bool, x: string, name: string)
    requires Normal(x) && Normal(name)
    requires present("/" + x + "/" + name) && !present("/" + name)
    ensures IsPath([x, ".."]) && Text([x, ".."]) == "/" + x + "/" + ".." && Clean([x, ".."]) == []
    ensures Search(present, [x, ".."], name) == Some("/" + x + "/" + name)
  {
    ShortTexts(x, "..");
    ChildOfRoot(x);
    RootFile(x, name);
    ChildFile(x, name);
    hide Clean, Text, FileIn, Joined, Dir;
    SearchChild(present, [x, ".."], name);
  }

  // ----- the two files

  function FindConfigFile(vars: Vars, f: Files): string
    requires RootedFiles(f)
  {
    if Getenv(vars, "CONFIG_PATH") != "" then Getenv(vars, "CONFIG_PATH")
    else if f.cwd.None? then "config.yaml"
    else
      match Search(f.present, Parts(f.cwd.value), "config.yaml") case Some(p) => p case None => "config.yaml"
  }

  function FindEnvFile(vars: Vars, f: Files): string
    requires RootedFiles(f)
  {
    if Getenv(vars, "ENV_PATH") != "" then Getenv(vars, "ENV_PATH")
    else if f.cwd.None? then ".env"
    else
      match Search(f.present, Parts(f.cwd.value), ".env") case Some(p) => p case None => ""
  }

  /** The environment after the .env file has been looked up and loaded. */
  function EnvLoaded(vars: Vars, f: Files): Vars
    requires RootedFiles(f)
  {
    var path := FindEnvFile(vars, f);
    Loaded(vars, path, f.read(path))
  }

  /** The configuration under given variables; absent when its file cannot be read or decoded. */
  function ConfigUnder(vars: Vars, f: Files): Option<Config>
    requires RootedFiles(f)
  {
    match f.read(FindConfigFile(vars, f))
    case Missing => Some(DefaultConfig())
    case Unreadable => None
    case Data(text) =>
      match f.decode(text, DefaultConfig())
      case None => None
      case Some(c) => Some(if c.bin == "" then c.(bin := DEFAULT_PODMAN_BIN) else c)
  }

  /** Loads the configuration; the process environment keeps what the .env file added. */
  method Load(p: Process, f: Files) returns (c: Option<Config>)
    requires RootedFiles(f)
    modifies p
    ensures p.vars == EnvLoaded(old(p.vars), f)
    ensures c == ConfigUnder(p.vars, f)
  {
    var envFile := LocateEnvFile(p, f);
    if envFile != "" {
      var _ := p.LoadEnv(envFile, f.read(envFile));
    }
    var configPath := LocateConfigFile(p, f);
    match f.read(configPath)
    case Missing => return Some(DefaultConfig());
    case Unreadable => return None;
    case Data(text) =>
      var decoded := f.decode(text, DefaultConfig());
      if decoded.None? {
        return None;
      }
      c := decoded;
      if c.value.bin == "" {
        c := Some(c.value.(bin := DEFAULT_PODMAN_BIN));
      }
  }

  method LocateEnvFile(p: Process, f: Files) returns (path: string)
    requires RootedFiles(f)
    ensures path == FindEnvFile(p.vars, f)
  {
    path := Getenv(p.vars, "ENV_PATH");
    if path != "" {
      return;
    }
    if f.cwd.None? {
      return ".env";
    }
    var found := FindUpwards(f, Parts(f.cwd.value), ".env");
    path := if found.Some? then found.value else "";
  }

  method LocateConfigFile(p: Process, f: Files) returns (path: string)
    requires RootedFiles(f)
    ensures path == FindConfigFile(p.vars, f)
  {
    path := Getenv(p.vars, "CONFIG_PATH");
    if path != "" {
      return;
    }
    if f.cwd.None? {
      return "config.yaml";
    }
    var found := FindUpwards(f, Parts(f.cwd.value), "config.yaml");
    path := if found.Some? then found.value else "config.yaml";
  }

  // ----- loading again

  /** What the .env file found under `vars` assigns. */
  function FileAssignments(vars: Vars, f: Files): seq<Assignment>
    requires RootedFiles(f)
  {
    var path := FindEnvFile(vars, f);
    if path != "" && f.read(path).Data? then Parsed(f.read(path).text) else []
  }

  /** The next load finds the same .env file if and only if `ENV_PATH` was set before, or the file itself does
      not set it, or sets it to where the file was found. */
  lemma SameEnvFileIff(vars: Vars, f: Files)
    requires RootedFiles(f)
    ensures FindEnvFile(EnvLoaded(vars, f), f) == FindEnvFile(vars, f) <==>
            || Getenv(vars, "ENV_PATH") != ""
            || FirstValue(FileAssignments(vars, f), "ENV_PATH") in ["", FindEnvFile(vars, f)]
  {
    hide Search, Parsed;
    FirstAssignmentWins(vars, FileAssignments(vars, f), "ENV_PATH");
    assert EnvLoaded(vars, f) == Applied(vars, FileAssignments(vars, f));
  }

  /** The environment after `n` loads. */
  function AfterLoads(vars: Vars, f: Files, n: nat): Vars
    requires RootedFiles(f)
    decreases n
  {
    if n == 0 then vars else AfterLoads(EnvLoaded(vars, f), f, n - 1)
  }

  lemma EnvLoadedAgain(vars: Vars, f: Files)
    requires RootedFiles(f) && FindEnvFile(EnvLoaded(vars, f), f) == FindEnvFile(vars, f)
    ensures EnvLoaded(EnvLoaded(vars, f), f) == EnvLoaded(vars, f)
  {
    var path := FindEnvFile(vars, f);
    LoadingTwiceIsOnce(vars, path, f.read(path));
  }

  lemma {:induction false} FixedFromThen(vars: Vars, f: Files, n: nat)
    requires RootedFiles(f) && EnvLoaded(vars, f) == vars
    ensures AfterLoads(vars, f, n) == vars
  {
    if n > 0 {
      FixedFromThen(vars, f, n - 1);
    }
  }

  /** Under that condition every load of a run, however many there are, sees the environment and resolves the
      files, and hence the configuration and every image, of the first one. */
  lemma LoadsAgree(vars: Vars, f: Files, n: nat, service: string, default: string)
    requires RootedFiles(f) && n >= 1
    requires || Getenv(vars, "ENV_PATH") != ""
             || FirstValue(FileAssignments(vars, f), "ENV_PATH") in ["", FindEnvFile(vars, f)]
    ensures var first, later := AfterLoads(vars, f, 1), AfterLoads(vars, f, n);
            && later == first
            && FindEnvFile(later, f) == FindEnvFile(vars, f)
            && FindConfigFile(later, f) == FindConfigFile(first, f)
            && ConfigUnder(later, f) == ConfigUnder(first, f)
            && GetImage(ConfigUnder(later, f), later, service, default) ==
               GetImage(ConfigUnder(first, f), first, service, default)
            && GetLocalImage(later, service, default) == GetLocalImage(first, service, default)
  {
    SameEnvFileIff(vars, f);
    EnvLoadedAgain(vars, f);
    hide EnvLoaded, FindEnvFile, FindConfigFile, ConfigUnder;
    assert AfterLoads(vars, f, 1) == AfterLoads(EnvLoaded(vars, f), f, 0) == EnvLoaded(vars, f);
    FixedFromThen(EnvLoaded(vars, f), f, n - 1);
  }

  // ----- what a load gives

  /** Which file is read: the one the environment names, or else the one found, or else one by its bare name. */
  lemma ConfigFileIs(vars: Vars, f: Files)
    requires RootedFiles(f)
    ensures "CONFIG_PATH" in vars && vars["CONFIG_PATH"] != "" ==> FindConfigFile(vars, f) == vars["CONFIG_PATH"]
    ensures ("CONFIG_PATH" in vars ==> vars["CONFIG_PATH"] == "") && f.cwd.Some? ==>
              var found := Search(f.present, Parts(f.cwd.value), "config.yaml");
              FindConfigFile(vars, f) == if found.Some? then found.value else "config.yaml"
    ensures ("CONFIG_PATH" in vars ==> vars["CONFIG_PATH"] == "") && f.cwd.None? ==>
              FindConfigFile(vars, f) == "config.yaml"
  {
    hide Search, Parts;
  }

  lemma EnvFileIs(vars: Vars, f: Files)
    requires RootedFiles(f)
    ensures "ENV_PATH" in vars && vars["ENV_PATH"] != "" ==> FindEnvFile(vars, f) == vars["ENV_PATH"]
    ensures ("ENV_PATH" in vars ==> vars["ENV_PATH"] == "") && f.cwd.Some? ==>
              var found := Search(f.present, Parts(f.cwd.value), ".env");
              FindEnvFile(vars, f) == if found.Some? then found.value else ""
    ensures ("ENV_PATH" in vars ==> vars["ENV_PATH"] == "") && f.cwd.None? ==> FindEnvFile(vars, f) == ".env"
  {
    hide Search, Parts;
  }

  /** What the file gives: the built-in configuration if it is missing, nothing if it cannot be read or decoded, and
      what it decodes to otherwise; a loaded configuration always names a binary. */
  lemma ConfigIs(vars: Vars, f: Files)
    requires RootedFiles(f)
    ensures var file, c := f.read(FindConfigFile(vars, f)), ConfigUnder(vars, f);
            && (file.Missing? ==> c == Some(DefaultConfig()))
            && (c.None? <==> file.Unreadable? || (file.Data? && f.decode(file.text, DefaultConfig()).None?))
            && (c.Some? && file.Data? ==>
                  var decoded := f.decode(file.text, DefaultConfig()).value;
                  c.value.images == decoded.images && (decoded.bin != "" ==> c.value.bin == decoded.bin))
            && (c.Some? ==> c.value.bin != "")
            && (c.Some? && file.Data? && f.decode(file.text, DefaultConfig()).value.bin == "" ==>
                  c.value.bin == "/opt/podman/bin/podman")
  {
    hide FindConfigFile;
  }

  // ----- the host of a run

  /** What a setup is told about its host when the configuration is loaded for the `n`-th time. */
  function HostAfter(vars: Vars, f: Files, n: nat, migrationPath: string -> string, isDir: string -> bool)
    : Provisioning.Host
    requires RootedFiles(f)
  {
    Provisioning.Host(ConfigUnder(AfterLoads(vars, f, n), f), AfterLoads(vars, f, n), migrationPath, isDir)
  }

  /** A run has one host: as long as the .env file does not redirect its own search, every load of a run, however
      many there are, tells the setups the same about it as the first one. */
  lemma HostIsFixed(vars: Vars, f: Files, n: nat, migrationPath: string -> string, isDir: string -> bool)
    requires RootedFiles(f) && n >= 1
    requires || Getenv(vars, "ENV_PATH") != ""
             || FirstValue(FileAssignments(vars, f), "ENV_PATH") in ["", FindEnvFile(vars, f)]
    ensures HostAfter(vars, f, n, migrationPath, isDir) == HostAfter(vars, f, 1, migrationPath, isDir)
  {
    LoadsAgree(vars, f, n, "", "");
    hide EnvLoaded, FindEnvFile, FindConfigFile, ConfigUnder, AfterLoads, GetImage, GetLocalImage;
  }
}
