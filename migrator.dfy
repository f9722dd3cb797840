/**
 * The module migrator (server/modules/migrator.ts): registering a module's
 * schema in shared/schemas/index.ts and pushing the migration, listing the
 * schema modules, and the per-module status report.  The file system and the
 * `npx drizzle-kit push` command are not part of this model: what they return
 * is a parameter, and the text to be written is a result.
 */
module Migrator {
  import opened Wrappers
  import opened Text
  import SchemaIndex
  import Seqs

  const PushCommand: string := "npx drizzle-kit push"

  datatype MigrationResult = MigrationResult(success: bool, moduleName: string, schemaRegistered: bool,
                                             migrationApplied: bool, error: Option<string>)

  function MissingSchema(name: string): string {
    "Schema não encontrado: shared/schemas/" + name + ".ts"
  }

  function PushFailed(message: string): (e: string)
    ensures EndsWith(e, PushCommand)
  {
    EndsWithConcat("Schema registrado mas migração falhou: " + message + ". Execute manualmente: ", PushCommand);
    "Schema registrado mas migração falhou: " + message + ". Execute manualmente: " + PushCommand
  }

  /**
   * The edit `registerAndMigrate` makes to the index text, for marker `m` and export line `line`:
   * none when the line is present, else the line right after the first marker (on a new line),
   * or appended.
   */
  function EditLine(content: string, m: string, line: string): (r: Option<string>)
    ensures r.None? <==> Contains(content, line)
    ensures r.Some? ==> Contains(r.value, line)
  {
    if Contains(content, line) then None
    else if Contains(content, m) then
      InsertedContained(content, m, line);
      Some(ReplaceFirst(content, m, m + ("\n" + line)))
    else
      AppendedContained(content, line);
      Some(content + "\n" + line + "\n")
  }

  /** The edit for a module's export line: none exactly when the index already exports it. */
  function IndexEdit(content: string, name: string): (r: Option<string>)
    ensures r.None? <==> Contains(content, SchemaIndex.ExportLine(name))
    ensures r.Some? ==> Contains(r.value, SchemaIndex.ExportLine(name))
  {
    EditLine(content, SchemaIndex.Marker, SchemaIndex.ExportLine(name))
  }

  lemma ContainsAfterNewline(pre: string, x: string, post: string)
    ensures Contains(pre + ("\n" + x) + post, x)
  {
    ContainsMiddle(pre + "\n", x, post);
    assert pre + ("\n" + x) + post == pre + "\n" + x + post;
  }

  /** Inserting `"\n" + x` right after the first `m` leaves `x` in the text. */
  lemma InsertedContained(c: string, m: string, x: string)
    requires Contains(c, m)
    ensures Contains(ReplaceFirst(c, m, m + ("\n" + x)), x)
  {
    SchemaIndex.InsertAfterFirst(c, m, "\n" + x);
    var cut := IndexOf(c, m).value + |m|;
    ContainsAfterNewline(c[..cut], x, c[cut..]);
  }

  /** Appending `"\n" + x + "\n"` leaves `x` in the text. */
  lemma AppendedContained(c: string, x: string)
    ensures Contains(c + "\n" + x + "\n", x)
  {
    ContainsMiddle(c + "\n", x, "\n");
  }

  /** So a second registration of the same module leaves the index alone. */
  lemma EditIdempotent(content: string, m: string, line: string)
    requires EditLine(content, m, line).Some?
    ensures EditLine(EditLine(content, m, line).value, m, line) == None
  {
  }

  /** Where `p + q` occurs, `p` occurs. */
  lemma OccursShorter(c: string, p: string, q: string, j: nat)
    requires OccursAt(c, p + q, j)
    ensures OccursAt(c, p, j)
  {
    assert c[j..][..|p|] == (p + q)[..|p|] == p;
  }

  /** The first occurrence of `p` is also the first of `p + q` when `p + q` occurs there. */
  lemma FirstOfLonger(c: string, p: string, q: string, i: nat)
    requires IndexOf(c, p) == Some(i) && OccursAt(c, p + q, i)
    ensures IndexOf(c, p + q) == Some(i)
  {
    ContainsAt(c, p + q, i);
    var k := IndexOf(c, p + q).value;
    OccursShorter(c, p, q, k);
    assert i <= k;
  }

  /** Inserting `"\n" + x` after the first `m` is inserting `x + "\n"` after the first `m + "\n"`, when that `m` ends its line. */
  lemma InsertionsAgree(c: string, m: string, x: string)
    requires Contains(c, m)
    requires var cut := IndexOf(c, m).value + |m|; cut < |c| && c[cut] == '\n'
    ensures Contains(c, m + "\n")
    ensures ReplaceFirst(c, m, m + ("\n" + x)) == ReplaceFirst(c, m + "\n", (m + "\n") + (x + "\n"))
  {
    var i := IndexOf(c, m).value;
    MarkerEndsLine(c, m);
    SchemaIndex.InsertAfterFirst(c, m, "\n" + x);
    SchemaIndex.InsertAfterFirst(c, m + "\n", x + "\n");
    NewlineMoves(c, i + |m|, x);
  }

  /** When the first `m` ends its line, the first `m + "\n"` is found at the same index. */
  lemma MarkerEndsLine(c: string, m: string)
    requires Contains(c, m)
    requires var cut := IndexOf(c, m).value + |m|; cut < |c| && c[cut] == '\n'
    ensures IndexOf(c, m + "\n") == IndexOf(c, m)
  {
    var i := IndexOf(c, m).value;
    assert OccursAt(c, m + "\n", i) by {
      assert c[i..][..|m|] == m;
      assert c[i..][|m|] == '\n';
      assert c[i..][..|m| + 1] == m + "\n";
    }
    FirstOfLonger(c, m, "\n", i);
  }

  /** Putting `"\n" + x` before the newline at `cut` is putting `x + "\n"` after it. */
  lemma NewlineMoves(c: string, cut: nat, x: string)
    requires cut < |c| && c[cut] == '\n'
    ensures c[..cut] + ("\n" + x) + c[cut..] == c[..cut + 1] + (x + "\n") + c[cut + 1..]
  {
    assert c[cut..] == "\n" + c[cut + 1..];
    assert c[..cut + 1] == c[..cut] + "\n";
  }

  /** When the first marker ends its line, the migrator's edit is the schema loader's `registerModuleSchema`. */
  lemma EditAgreesWithRegister(content: string, m: string, line: string)
    requires !Contains(content, line) && Contains(content, m)
    requires var cut := IndexOf(content, m).value + |m|; cut < |content| && content[cut] == '\n'
    ensures EditLine(content, m, line) == Some(SchemaIndex.RegisterLine(content, m, line))
  {
    InsertionsAgree(content, m, line);
  }

  /** Without a marker both append the line the same way. */
  lemma EditAgreesWithoutMarker(content: string, m: string, line: string)
    requires !Contains(content, line) && !Contains(content, m)
    ensures EditLine(content, m, line) == Some(SchemaIndex.RegisterLine(content, m, line))
  {
  }

  /**
   * `registerAndMigrate`: `schemaExists` says whether shared/schemas/<name>.ts exists, `index` is the
   * index text or the message of the read that threw, `writeError` the message of a write that
   * throws, `push` the message of a failed migration command.  Returns the result, the index text
   * written (if any), and whether the migration command was run.
   */
  method RegisterAndMigrate(name: string, schemaExists: bool, index: Result<string, string>,
                            writeError: Option<string>, push: Option<string>)
    returns (result: MigrationResult, written: Option<string>, pushed: bool)
    ensures result.moduleName == name
    ensures result.success == result.schemaRegistered
    ensures !schemaExists ==>
      result == MigrationResult(false, name, false, false, Some(MissingSchema(name))) && written.None? && !pushed
    ensures schemaExists && index.Err? ==> result.error == Some(index.error) && !result.success && written.None?
    ensures result.success <==>
      schemaExists && index.Ok? && (IndexEdit(index.value, name).None? || writeError.None?)
    ensures written.Some? ==> result.success && written == IndexEdit(index.value, name)
    ensures result.success && IndexEdit(index.value, name).Some? ==> written == IndexEdit(index.value, name)
    ensures schemaExists && index.Ok? && IndexEdit(index.value, name).Some? && writeError.Some? ==>
      result.error == writeError
    ensures pushed <==> result.success
    ensures result.migrationApplied <==> result.success && push.None?
    ensures result.success && push.Some? ==> result.error == Some(PushFailed(push.value))
    ensures result.migrationApplied ==> result.error.None?
  {
    result := MigrationResult(false, name, false, false, None);
    written, pushed := None, false;
    if !schemaExists {
      result := result.(error := Some(MissingSchema(name)));
      return;
    }
    if index.Err? {
      result := result.(error := Some(index.error));
      return;
    }
    var edit := IndexEdit(index.value, name);
    if edit.Some? {
      if writeError.Some? {
        result := result.(error := writeError);
        return;
      }
      written := edit;
    }
    result := result.(schemaRegistered := true);
    pushed := true;
    if push.Some? {
      result := result.(error := Some(PushFailed(push.value)), migrationApplied := false);
    } else {
      result := result.(migrationApplied := true);
    }
    result := result.(success := result.schemaRegistered);
  }

  /** `listModuleSchemas`: nothing without the directory, else the registered schema modules. */
  function ListModuleSchemas(listing: Option<seq<string>>): (r: seq<string>)
    ensures listing.None? ==> r == []
    ensures forall m :: m in r <==>
      listing.Some? && exists f :: f in listing.value && SchemaIndex.IsSchemaFile(f) && m == SchemaIndex.StripTs(f)
  {
    if listing.None? then [] else SchemaIndex.RegisteredModules(listing.value)
  }

  /** The listed modules keep the directory's order: listing `a + b` gives `a`'s modules, then `b`'s. */
  lemma ListModuleSchemasConcat(a: seq<string>, b: seq<string>)
    ensures ListModuleSchemas(Some(a + b)) == ListModuleSchemas(Some(a)) + ListModuleSchemas(Some(b))
  {
    SchemaIndex.RegisteredModulesConcat(a, b);
  }

  /** One file is listed, without its `.ts`, exactly when it is a schema file. */
  lemma ListModuleSchemasOne(f: string)
    ensures ListModuleSchemas(Some([f])) == if SchemaIndex.IsSchemaFile(f) then [SchemaIndex.StripTs(f)] else []
  {
    SchemaIndex.RegisteredModulesOne(f);
  }

  /** A route file of server/modules: `.ts`, not private, neither the loader nor the migrator. */
  predicate IsRouteFile(f: string) {
    EndsWith(f, ".ts") && !StartsWith(f, "_") && f != "loader.ts" && f != "migrator.ts"
  }

  function RouteFiles(files: seq<string>): (r: seq<string>)
    ensures forall f :: f in r <==> f in files && IsRouteFile(f)
  {
    if |files| == 0 then []
    else (if IsRouteFile(files[0]) then [files[0]] else []) + RouteFiles(files[1..])
  }

  /** The route-file filter keeps the listing's order: it distributes over concatenation. */
  lemma {:induction false} RouteFilesConcat(a: seq<string>, b: seq<string>)
    ensures RouteFiles(a + b) == RouteFiles(a) + RouteFiles(b)
    decreases |a|
  {
    if |a| == 0 {
      assert a + b == b;
    } else {
      var head := if IsRouteFile(a[0]) then [a[0]] else [];
      assert (a + b)[1..] == a[1..] + b;
      RouteFilesConcat(a[1..], b);
      Seqs.AppendAssoc(head, RouteFiles(a[1..]), RouteFiles(b));
    }
  }

  /** One file is kept exactly when it is a route file; with `RouteFilesConcat` this fixes the order. */
  lemma RouteFilesOne(f: string)
    ensures RouteFiles([f]) == if IsRouteFile(f) then [f] else []
  {
    assert [f][1..] == [];
  }

  /** `filter((v, i, a) => a.indexOf(v) === i)`: each name once, at its first position. */
  function Dedupe(s: seq<string>): (r: seq<string>)
    ensures forall x :: x in r <==> x in s
    ensures forall i, j :: 0 <= i < j < |r| ==> r[i] != r[j]
    ensures |r| <= |s|
  {
    if |s| == 0 then []
    else
      var init := Dedupe(s[..|s| - 1]);
      assert forall x :: x in s <==> x in s[..|s| - 1] || x == s[|s| - 1] by {
        assert s == s[..|s| - 1] + [s[|s| - 1]];
      }
      if s[|s| - 1] in s[..|s| - 1] then init else init + [s[|s| - 1]]
  }

  /** `a.indexOf(x)` for a name that occurs: its first position. */
  function IndexOfName(s: seq<string>, x: string): (i: nat)
    requires x in s
    ensures i < |s| && s[i] == x
    ensures forall k :: 0 <= k < i ==> s[k] != x
  {
    if s[0] == x then 0 else 1 + IndexOfName(s[1..], x)
  }

  /** Appending a name leaves the first positions of the names already there unchanged. */
  lemma IndexOfNameSnoc(s: seq<string>, x: string, y: string)
    requires y in s
    ensures IndexOfName(s + [x], y) == IndexOfName(s, y)
  {
    var p, q := IndexOfName(s, y), IndexOfName(s + [x], y);
    assert (s + [x])[p] == y;
  }

  /**
   * The de-duplication keeps names in the order of their first occurrence: of two kept
   * names, the one listed first occurs first in the input.
   */
  lemma {:induction false} DedupeOrder(s: seq<string>)
    ensures forall i, j :: 0 <= i < j < |Dedupe(s)| ==>
      Dedupe(s)[i] in s && Dedupe(s)[j] in s && IndexOfName(s, Dedupe(s)[i]) < IndexOfName(s, Dedupe(s)[j])
  {
    if |s| > 0 {
      var init, x := s[..|s| - 1], s[|s| - 1];
      assert s == init + [x];
      DedupeOrder(init);
      var d := Dedupe(init);
      forall y | y in d ensures IndexOfName(s, y) == IndexOfName(init, y) < |init| {
        IndexOfNameSnoc(init, x, y);
      }
      var r := Dedupe(s);
      if x !in init {
        assert r == d + [x];
        assert IndexOfName(s, x) == |init|;
      } else {
        assert r == d;
      }
      forall i, j | 0 <= i < j < |r|
        ensures r[i] in s && r[j] in s && IndexOfName(s, r[i]) < IndexOfName(s, r[j])
      {
        assert r[i] == d[i] && d[i] in d;
        assert IndexOfName(s, d[i]) == IndexOfName(init, d[i]) < |init|;
        if j < |d| {
          assert r[j] == d[j] && d[j] in d;
          assert IndexOfName(init, d[i]) < IndexOfName(init, d[j]);
          assert IndexOfName(s, d[j]) == IndexOfName(init, d[j]);
        } else {
          assert j == |d| && r[j] == x && x !in init;
        }
      }
    } else {
      assert Dedupe(s) == [];
    }
  }

  /** A list without repetitions is its own de-duplication. */
  lemma {:induction false} DedupeDistinct(s: seq<string>)
    requires forall i, j :: 0 <= i < j < |s| ==> s[i] != s[j]
    ensures Dedupe(s) == s
  {
    if |s| > 0 {
      var init := s[..|s| - 1];
      DedupeDistinct(init);
      assert s[|s| - 1] !in init;
      assert s == init + [s[|s| - 1]];
    }
  }

  /** The flags reported for one module. */
  datatype ModuleFlags = ModuleFlags(hasSchema: bool, hasRoutes: bool, isRegistered: bool)

  /** What the status report looks for in the index: the export line without its semicolon. */
  function StatusProbe(name: string): (p: string)
    ensures SchemaIndex.ExportLine(name) == p + ";"
  {
    "export * from \"./" + name + "\""
  }

  function FlagsFor(name: string, schemaFiles: seq<string>, routeFiles: seq<string>, index: string): ModuleFlags {
    ModuleFlags(name + ".ts" in schemaFiles, name + ".ts" in routeFiles, Contains(index, StatusProbe(name)))
  }

  /** The files of a listing that count, or none when the directory is missing. */
  function ListedSchemas(listing: Option<seq<string>>): seq<string> {
    if listing.Some? then SchemaIndex.SchemaFiles(listing.value) else []
  }

  function ListedRoutes(listing: Option<seq<string>>): seq<string> {
    if listing.Some? then RouteFiles(listing.value) else []
  }

  /** The modules a status report covers: schema modules, then route modules, each once. */
  function StatusNames(schemas: seq<string>, routes: seq<string>): (names: seq<string>)
    ensures forall m :: m in names <==> m in SchemaIndex.StripAll(schemas) || m in SchemaIndex.StripAll(routes)
    ensures forall i, j :: 0 <= i < j < |names| ==> names[i] != names[j]
  {
    Dedupe(SchemaIndex.StripAll(schemas) + SchemaIndex.StripAll(routes))
  }

  /**
   * The report lists every schema module before any module that only has routes, and within
   * each group keeps the listing order.
   */
  lemma StatusNamesOrder(schemas: seq<string>, routes: seq<string>)
    ensures var all := SchemaIndex.StripAll(schemas) + SchemaIndex.StripAll(routes);
      forall i, j :: 0 <= i < j < |StatusNames(schemas, routes)| ==>
        StatusNames(schemas, routes)[i] in all && StatusNames(schemas, routes)[j] in all &&
        IndexOfName(all, StatusNames(schemas, routes)[i]) < IndexOfName(all, StatusNames(schemas, routes)[j])
  {
    var all := SchemaIndex.StripAll(schemas) + SchemaIndex.StripAll(routes);
    assert StatusNames(schemas, routes) == Dedupe(all);
    DedupeOrder(all);
  }

  /**
   * `getModuleStatus`: a missing index reads as empty and a missing directory as no files; every
   * schema or route module appears once, in first-occurrence order, with its three flags.
   */
  method ModuleStatus(index: Option<string>, schemaListing: Option<seq<string>>, routeListing: Option<seq<string>>)
    returns (names: seq<string>, status: map<string, ModuleFlags>)
    ensures names == StatusNames(ListedSchemas(schemaListing), ListedRoutes(routeListing))
    ensures forall m :: m in status <==> m in names
    ensures forall m :: m in status ==>
      status[m] == FlagsFor(m, ListedSchemas(schemaListing), ListedRoutes(routeListing), index.GetOr(""))
  {
    var schemas := ListedSchemas(schemaListing);
    var routes := ListedRoutes(routeListing);
    names := StatusNames(schemas, routes);
    status := StatusOf(names, schemas, routes, index.GetOr(""));
  }

  /** The `for` loop filling the report, one module at a time. */
  method StatusOf(names: seq<string>, schemas: seq<string>, routes: seq<string>, content: string)
    returns (status: map<string, ModuleFlags>)
    ensures forall m :: m in status <==> m in names
    ensures forall m :: m in status ==> status[m] == FlagsFor(m, schemas, routes, content)
  {
    status := map[];
    var i := 0;
    while i < |names|
      invariant 0 <= i <= |names|
      invariant forall m :: m in status <==> m in names[..i]
      invariant forall m :: m in status ==> status[m] == FlagsFor(m, schemas, routes, content)
    {
      assert names[..i + 1] == names[..i] + [names[i]];
      status := status[names[i] := FlagsFor(names[i], schemas, routes, content)];
      i := i + 1;
    }
    assert names[..i] == names;
  }

  /** Once the export line is in the index, the status report counts the module as registered. */
  lemma RegisteredAfterEdit(content: string, name: string, schemaFiles: seq<string>, routeFiles: seq<string>)
    requires IndexEdit(content, name).Some?
    ensures FlagsFor(name, schemaFiles, routeFiles, IndexEdit(content, name).value).isRegistered
  {
    ContainsShorter(IndexEdit(content, name).value, StatusProbe(name), ";");
  }

  /** A schema file `<base>.ts` whose base has no `.ts` inside is reported under `base` as having a schema. */
  lemma PlainSchemaReported(base: string, schemaFiles: seq<string>, routeFiles: seq<string>, index: string)
    requires base + ".ts" in schemaFiles && !Contains(base, ".ts")
    ensures SchemaIndex.StripTs(base + ".ts") == base
    ensures FlagsFor(SchemaIndex.StripTs(base + ".ts"), schemaFiles, routeFiles, index).hasSchema
  {
    SchemaIndex.StripTsSuffix(base);
  }
}
