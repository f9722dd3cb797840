/**
 * The module routes auto-loader (server/modules/loader.ts): which files of
 * the scanned directory count as modules, the module name taken from the file
 * name, mounting each module's router at `/api/modules/<name>`, and the
 * listing of the module names.  The loader scans the process's working
 * directory itself (`path.resolve(process.cwd())`), not `server/modules`,
 * although its comment and the migrator put the modules there.  The directory
 * listing is a parameter (`None` when the directory does not exist), so the
 * model holds whichever directory is listed; the dynamic `import` is an oracle
 * giving, per file, whether the import failed or whether it exported a router.
 */
module ModuleLoader {
  import opened Wrappers
  import opened Text
  import Seqs

  const MountPrefix: string := "/api/modules/"

  /** The loader itself and the migrator live in the same directory but are not modules. */
  predicate Reserved(f: string) {
    f == "loader.ts" || f == "loader.js" || f == "migrator.ts" || f == "migrator.js"
  }

  /** A `.ts` or `.js` file that does not start with `_` and is not reserved. */
  predicate IsModuleFile(f: string) {
    (EndsWith(f, ".ts") || EndsWith(f, ".js")) && !StartsWith(f, "_") && !Reserved(f)
  }

  /** The file name with a trailing `.ts` or `.js` removed (the regular expression `\.(ts|js)$`). */
  function ModuleName(f: string): (name: string)
    ensures EndsWith(f, ".ts") ==> name + ".ts" == f
    ensures EndsWith(f, ".js") ==> name + ".js" == f
    ensures !EndsWith(f, ".ts") && !EndsWith(f, ".js") ==> name == f
  {
    if EndsWith(f, ".ts") || EndsWith(f, ".js") then f[..|f| - 3] else f
  }

  /** Stripping the extension undoes adding it. */
  lemma ModuleNameOfFile(name: string)
    ensures ModuleName(name + ".ts") == name && ModuleName(name + ".js") == name
  {
    EndsWithConcat(name, ".ts");
    EndsWithConcat(name, ".js");
    assert (name + ".ts")[..|name|] == name;
    assert (name + ".js")[..|name|] == name;
  }

  /** The module files of a directory listing, in listing order. */
  function ModuleFiles(files: seq<string>): (r: seq<string>)
    ensures forall f :: f in r <==> f in files && IsModuleFile(f)
    ensures |r| <= |files|
  {
    if |files| == 0 then []
    else if IsModuleFile(files[0]) then [files[0]] + ModuleFiles(files[1..])
    else ModuleFiles(files[1..])
  }

  /** The module-file filter keeps the listing's order: it distributes over concatenation. */
  lemma {:induction false} ModuleFilesConcat(a: seq<string>, b: seq<string>)
    ensures ModuleFiles(a + b) == ModuleFiles(a) + ModuleFiles(b)
    decreases |a|
  {
    if |a| == 0 {
      assert a + b == b;
    } else {
      assert (a + b)[0] == a[0] && (a + b)[1..] == a[1..] + b;
      ModuleFilesConcat(a[1..], b);
      if IsModuleFile(a[0]) {
        Seqs.AppendAssoc([a[0]], ModuleFiles(a[1..]), ModuleFiles(b));
      }
    }
  }

  /** One file is kept exactly when it is a module file; with `ModuleFilesConcat` this fixes the order. */
  lemma ModuleFilesOne(f: string)
    ensures ModuleFiles([f]) == if IsModuleFile(f) then [f] else []
  {
    assert [f][1..] == [];
  }

  /** `getLoadedModules`: the names of the module files, or none when the directory is missing. */
  function GetLoadedModules(dir: Option<seq<string>>): (names: seq<string>)
    ensures dir.None? ==> names == []
    ensures dir.Some? ==> |names| == |ModuleFiles(dir.value)|
    ensures dir.Some? ==> forall i :: 0 <= i < |names| ==> names[i] == ModuleName(ModuleFiles(dir.value)[i])
  {
    if dir.None? then []
    else
      var files := ModuleFiles(dir.value);
      seq(|files|, i requires 0 <= i < |files| => ModuleName(files[i]))
  }

  /** What the dynamic import of one module file gives: a failure, or whether `default || router` is truthy. */
  datatype ImportResult = ImportFailed | Imported(hasRouter: bool)

  /** A router mounted on the application. */
  datatype Mount = Mount(path: string, name: string)

  function MountsOf(names: seq<string>): (r: seq<Mount>)
    ensures |r| == |names|
    ensures forall i :: 0 <= i < |r| ==> r[i] == Mount(MountPrefix + names[i], names[i])
  {
    seq(|names|, i requires 0 <= i < |names| => Mount(MountPrefix + names[i], names[i]))
  }

  /** The names `loadModuleRoutes` returns for the module files `mf`, in order: those whose import gave a router. */
  function Loaded(mf: seq<string>, imports: string -> ImportResult): seq<string> {
    if |mf| == 0 then []
    else
      var last := mf[|mf| - 1];
      Loaded(mf[..|mf| - 1], imports) + (if imports(last) == Imported(true) then [ModuleName(last)] else [])
  }

  function LoadedFor(dir: Option<seq<string>>, imports: string -> ImportResult): seq<string> {
    if dir.None? then [] else Loaded(ModuleFiles(dir.value), imports)
  }

  /** The module file `f` is named `n` and its import gave a router. */
  predicate LoadsAs(f: string, imports: string -> ImportResult, n: string) {
    ModuleName(f) == n && imports(f) == Imported(true)
  }

  /** A name is loaded exactly when some module file has that name and its import gave a router. */
  lemma {:induction false} LoadedMembership(mf: seq<string>, imports: string -> ImportResult, n: string)
    ensures n in Loaded(mf, imports) <==> SomeLoadsAs(mf, imports, n)
  {
    if |mf| > 0 {
      LoadedMembership(mf[..|mf| - 1], imports, n);
      LoadedSnoc(mf, imports, n);
      SomeLoadsAsSnoc(mf, imports, n);
    }
  }

  /** Some module file of `mf` loads as `n`. */
  predicate SomeLoadsAs(mf: seq<string>, imports: string -> ImportResult, n: string) {
    exists k :: 0 <= k < |mf| && LoadsAs(mf[k], imports, n)
  }

  lemma LoadedSnoc(mf: seq<string>, imports: string -> ImportResult, n: string)
    requires |mf| > 0
    ensures n in Loaded(mf, imports) <==> n in Loaded(mf[..|mf| - 1], imports) || LoadsAs(mf[|mf| - 1], imports, n)
  {
  }

  lemma SomeLoadsAsSnoc(mf: seq<string>, imports: string -> ImportResult, n: string)
    requires |mf| > 0
    ensures SomeLoadsAs(mf, imports, n) <==> SomeLoadsAs(mf[..|mf| - 1], imports, n) || LoadsAs(mf[|mf| - 1], imports, n)
  {
    var init, last := mf[..|mf| - 1], mf[|mf| - 1];
    assert SomeLoadsAs(init, imports, n) ==> SomeLoadsAs(mf, imports, n) by {
      if SomeLoadsAs(init, imports, n) {
        var k :| 0 <= k < |init| && LoadsAs(init[k], imports, n);
        assert mf[k] == init[k];
      }
    }
    assert LoadsAs(last, imports, n) ==> SomeLoadsAs(mf, imports, n) by {
      if LoadsAs(last, imports, n) {
        assert mf[|mf| - 1] == last;
      }
    }
    assert SomeLoadsAs(mf, imports, n) ==> SomeLoadsAs(init, imports, n) || LoadsAs(last, imports, n) by {
      if SomeLoadsAs(mf, imports, n) {
        var k :| 0 <= k < |mf| && LoadsAs(mf[k], imports, n);
        if k < |init| {
          assert mf[k] == init[k];
        }
      }
    }
  }

  /** Every name `loadModuleRoutes` returns is among those `getLoadedModules` lists. */
  lemma LoadedAreListed(dir: Option<seq<string>>, imports: string -> ImportResult)
    ensures forall n :: n in LoadedFor(dir, imports) ==> n in GetLoadedModules(dir)
  {
    if dir.Some? {
      var mf := ModuleFiles(dir.value);
      var names := GetLoadedModules(dir);
      forall n | n in LoadedFor(dir, imports)
        ensures n in names
      {
        LoadedMembership(mf, imports, n);
        var k :| 0 <= k < |mf| && LoadsAs(mf[k], imports, n);
        assert names[k] == n;
      }
    }
  }

  /** When every import gives a router, both lists agree. */
  lemma {:induction false} AllLoaded(mf: seq<string>, imports: string -> ImportResult)
    requires forall k :: 0 <= k < |mf| ==> imports(mf[k]) == Imported(true)
    ensures Loaded(mf, imports) == seq(|mf|, i requires 0 <= i < |mf| => ModuleName(mf[i]))
  {
    if |mf| > 0 {
      var init := mf[..|mf| - 1];
      AllLoaded(init, imports);
    }
  }

  /** A listed name never comes from the loader, the migrator or an `_` file. */
  lemma ListedNamesExcludeReserved(dir: Option<seq<string>>)
    ensures forall n :: n in GetLoadedModules(dir) ==> n != "loader" && n != "migrator" && !StartsWith(n, "_")
  {
    if dir.Some? {
      var mf := ModuleFiles(dir.value);
      var names := GetLoadedModules(dir);
      forall k | 0 <= k < |names|
        ensures names[k] != "loader" && names[k] != "migrator" && !StartsWith(names[k], "_")
      {
        var f := mf[k];
        assert IsModuleFile(f);
        var ext := if EndsWith(f, ".ts") then ".ts" else ".js";
        assert names[k] + ext == f;
      }
    }
  }

  /** The Express application, reduced to the routers mounted on it. */
  class App {
    var mounts: seq<Mount>

    constructor ()
      ensures mounts == []
    {
      mounts := [];
    }

    method Use(path: string, name: string)
      modifies this
      ensures mounts == old(mounts) + [Mount(path, name)]
    {
      mounts := mounts + [Mount(path, name)];
    }
  }

  /**
   * `loadModuleRoutes`: imports every module file in listing order; a module whose import
   * gives a router is mounted and listed, one without a router or whose import fails is skipped
   * and the loop goes on.
   */
  method LoadModuleRoutes(app: App, dir: Option<seq<string>>, imports: string -> ImportResult)
    returns (loaded: seq<string>)
    modifies app
    ensures loaded == LoadedFor(dir, imports)
    ensures app.mounts == old(app.mounts) + MountsOf(loaded)
  {
    loaded := [];
    if dir.None? {
      return;
    }
    var moduleFiles := ModuleFiles(dir.value);
    var i := 0;
    while i < |moduleFiles|
      invariant 0 <= i <= |moduleFiles|
      invariant loaded == Loaded(moduleFiles[..i], imports)
      invariant app.mounts == old(app.mounts) + MountsOf(loaded)
    {
      var file := moduleFiles[i];
      var moduleName := ModuleName(file);
      var mod := imports(file);
      assert moduleFiles[..i + 1][..i] == moduleFiles[..i];
      if mod.Imported? && mod.hasRouter {
        app.Use(MountPrefix + moduleName, moduleName);
        loaded := loaded + [moduleName];
      }
      i := i + 1;
    }
    assert moduleFiles[..i] == moduleFiles;
  }
}
