/**
 * The schema index utility (shared/schemas/loader.ts): which files count as
 * schema modules, the generated export list, and the registration and removal
 * of one module's `export * from "./m";` line in an index text, all as
 * transformations of the file names and the index text.  The utility lists the
 * process's working directory and edits `<cwd>/index.ts`, not
 * `shared/schemas/index.ts`, which is what the migrator edits; reading and
 * writing the files is left to the caller, so the model holds for whichever
 * directory and index are given.
 */
module SchemaIndex {
  import opened Wrappers
  import opened Text
  import Seqs

  /** The line under which registered modules are inserted. */
  const Marker: string := "// === MÓDULOS REGISTRADOS ==="
  const EmptyExports: string := "// Nenhum módulo registrado ainda\n"

  /** `export * from "./<name>";` */
  function ExportLine(name: string): (line: string)
    ensures StartsWith(line, "export * from \"./")
    ensures EndsWith(line, "\";")
    ensures '\n' !in name ==> '\n' !in line
  {
    var line := "export * from \"./" + name + "\";";
    EndsWithConcat("export * from \"./" + name, "\";");
    line
  }

  /** A `.ts` file that is neither private (`_…`) nor one of the two infrastructure files. */
  predicate IsSchemaFile(f: string) {
    EndsWith(f, ".ts") && !StartsWith(f, "_") && f != "index.ts" && f != "loader.ts"
  }

  /** `f.replace(".ts", "")`: the first `.ts` is removed, wherever it occurs. */
  function StripTs(f: string): string {
    ReplaceFirst(f, ".ts", "")
  }

  /** For a name without `.ts` inside, stripping gives back the name. */
  lemma StripTsSuffix(base: string)
    requires !Contains(base, ".ts")
    ensures StripTs(base + ".ts") == base
  {
    var s := base + ".ts";
    assert OccursAt(s, ".ts", |base|) by { assert s[|base|..] == ".ts"; }
    ContainsAt(s, ".ts", |base|);
    forall j: nat | j < |base| ensures !OccursAt(s, ".ts", j) {
      if j + 3 <= |base| {
        assert !OccursAt(base, ".ts", j);
        assert s[j..][..3] == base[j..][..3];
      } else if j + 2 == |base| {
        assert s[j..][2] == '.';
      } else {
        assert s[j..][1] == '.';
      }
    }
    assert s[..|base|] == base;
  }

  function SchemaFiles(files: seq<string>): (r: seq<string>)
    ensures forall f :: f in r <==> f in files && IsSchemaFile(f)
    ensures |r| <= |files|
  {
    if |files| == 0 then []
    else (if IsSchemaFile(files[0]) then [files[0]] else []) + SchemaFiles(files[1..])
  }

  function StripAll(files: seq<string>): (r: seq<string>)
    ensures |r| == |files|
    ensures forall k :: 0 <= k < |files| ==> r[k] == StripTs(files[k])
  {
    if |files| == 0 then [] else [StripTs(files[0])] + StripAll(files[1..])
  }

  /** The schema-file filter keeps the listing's order: it distributes over concatenation. */
  lemma {:induction false} SchemaFilesConcat(a: seq<string>, b: seq<string>)
    ensures SchemaFiles(a + b) == SchemaFiles(a) + SchemaFiles(b)
    decreases |a|
  {
    if |a| == 0 {
      assert a + b == b;
    } else {
      var head := if IsSchemaFile(a[0]) then [a[0]] else [];
      assert (a + b)[1..] == a[1..] + b;
      SchemaFilesConcat(a[1..], b);
      Seqs.AppendAssoc(head, SchemaFiles(a[1..]), SchemaFiles(b));
    }
  }

  /** One file is kept exactly when it is a schema file; with `SchemaFilesConcat` this fixes the order. */
  lemma SchemaFilesOne(f: string)
    ensures SchemaFiles([f]) == if IsSchemaFile(f) then [f] else []
  {
    assert [f][1..] == [];
  }

  /** `getRegisteredModules` over a directory listing. */
  function RegisteredModules(files: seq<string>): (r: seq<string>)
    ensures forall m :: m in r <==> exists f :: f in files && IsSchemaFile(f) && m == StripTs(f)
  {
    var kept := SchemaFiles(files);
    var r := StripAll(kept);
    assert forall f :: f in kept ==> StripTs(f) in r by {
      forall f | f in kept ensures StripTs(f) in r {
        var k :| 0 <= k < |kept| && kept[k] == f;
        assert r[k] == StripTs(f);
      }
    }
    r
  }

  /** The module list keeps the listing's order: it distributes over concatenation. */
  lemma RegisteredModulesConcat(a: seq<string>, b: seq<string>)
    ensures RegisteredModules(a + b) == RegisteredModules(a) + RegisteredModules(b)
  {
    SchemaFilesConcat(a, b);
    var sa, sb := SchemaFiles(a), SchemaFiles(b);
    assert StripAll(sa + sb) == StripAll(sa) + StripAll(sb);
  }

  /** One file gives its module name exactly when it is a schema file. */
  lemma RegisteredModulesOne(f: string)
    ensures RegisteredModules([f]) == if IsSchemaFile(f) then [StripTs(f)] else []
  {
    SchemaFilesOne(f);
  }

  /** A listing is never registered under the names of the index or the loader. */
  lemma RegisteredExcludesInfrastructure(files: seq<string>)
    ensures forall m :: m in RegisteredModules(files) ==> exists f :: f in files && IsSchemaFile(f) && f != "index.ts" && f != "loader.ts" && m == StripTs(f)
  {
  }

  function ExportLines(modules: seq<string>): (r: seq<string>)
    ensures |r| == |modules|
    ensures forall k :: 0 <= k < |modules| ==> r[k] == ExportLine(modules[k])
  {
    if |modules| == 0 then [] else [ExportLine(modules[0])] + ExportLines(modules[1..])
  }

  /** `generateSchemaExports`: a fixed comment when nothing is registered, else one export line per module. */
  function SchemaExports(modules: seq<string>): (r: string)
    ensures |modules| == 0 ==> r == EmptyExports
    ensures EndsWith(r, "\n")
  {
    if |modules| == 0 then EmptyExports
    else
      EndsWithConcat(Join(ExportLines(modules), "\n"), "\n");
      Join(ExportLines(modules), "\n") + "\n"
  }

  /** The generated exports name every module. */
  lemma SchemaExportsMention(modules: seq<string>)
    requires |modules| > 0
    ensures forall k :: 0 <= k < |modules| ==> Contains(SchemaExports(modules), ExportLine(modules[k]))
  {
    forall k | 0 <= k < |modules| ensures Contains(SchemaExports(modules), ExportLine(modules[k])) {
      ExportsContain(modules, k);
    }
  }

  /** With no newline in the names, the generated exports are exactly the export lines, each ending in a newline. */
  lemma SchemaExportsSplit(modules: seq<string>)
    requires |modules| > 0
    requires forall k :: 0 <= k < |modules| ==> '\n' !in modules[k]
    ensures Split(SchemaExports(modules), '\n') == ExportLines(modules) + [""]
  {
    var lines := ExportLines(modules);
    assert forall k :: 0 <= k < |lines| ==> '\n' !in lines[k];
    SplitJoinedLines(lines);
  }

  lemma ExportsContain(modules: seq<string>, k: nat)
    requires k < |modules|
    ensures Contains(SchemaExports(modules), ExportLine(modules[k]))
  {
    var lines := ExportLines(modules);
    var body := Join(lines, "\n");
    JoinContains(lines, "\n", k);
    assert (body + "\n")[..|body|] == body;
    ContainsPrefix(body + "\n", lines[k], |body|);
  }

  /** Splitting `a + [c] + b` where `a` has no `c` yields `a` and then the pieces of `b`. */
  lemma SplitFirst(a: string, c: char, b: string)
    requires c !in a
    ensures Split(a + [c] + b, c) == [a] + Split(b, c)
  {
    var s := a + [c] + b;
    assert s[|a|] == c;
    var i := FirstIndex(s, c);
    FirstIndexAtMost(s, c, |a|);
    assert forall j :: 0 <= j < |a| ==> s[j] == a[j];
    assert s[..i] == a && s[i + 1..] == b;
  }

  /** Splitting newline-free lines joined by newlines, plus a final newline, gives the lines and an empty tail. */
  lemma {:induction false} SplitJoinedLines(lines: seq<string>)
    requires |lines| > 0
    requires forall k :: 0 <= k < |lines| ==> '\n' !in lines[k]
    ensures Split(Join(lines, "\n") + "\n", '\n') == lines + [""]
    decreases |lines|
  {
    var first := lines[0];
    assert '\n' !in first;
    if |lines| == 1 {
      assert Join(lines, "\n") + "\n" == first + ['\n'] + "";
      SplitFirst(first, '\n', "");
    } else {
      var tail := lines[1..];
      var joined := Join(tail, "\n");
      assert forall k :: 0 <= k < |tail| ==> tail[k] == lines[k + 1];
      calc {
        Split(Join(lines, "\n") + "\n", '\n');
        { assert Join(lines, "\n") + "\n" == first + ['\n'] + (joined + "\n"); }
        Split(first + ['\n'] + (joined + "\n"), '\n');
        { SplitFirst(first, '\n', joined + "\n"); }
        [first] + Split(joined + "\n", '\n');
        { SplitJoinedLines(tail); }
        [first] + (tail + [""]);
        lines + [""];
      }
    }
  }

  /**
   * `registerModuleSchema` on the index text, for a marker `m` and an export line `line`: a present
   * line leaves the text alone; else the line goes right after the first `m + "\n"` when the marker
   * occurs (nothing happens if it is never followed by a newline), or is appended.
   */
  function RegisterLine(content: string, m: string, line: string): (r: string)
    ensures Contains(content, line) ==> r == content
    ensures !Contains(content, line) && !Contains(content, m) ==>
      Contains(r, line) && |r| == |content| + |line| + 2 && r[..|content|] == content
  {
    if Contains(content, line) then content
    else if Contains(content, m) then ReplaceFirst(content, m + "\n", (m + "\n") + (line + "\n"))
    else
      ContainsMiddle(content + "\n", line, "\n");
      assert (content + "\n" + line + "\n")[..|content|] == content;
      content + "\n" + line + "\n"
  }

  /** `registerModuleSchema(name)`: an exported module is left alone; without the marker the line is appended. */
  function Register(content: string, name: string): (r: string)
    ensures Contains(content, ExportLine(name)) ==> r == content
    ensures !Contains(content, ExportLine(name)) && !Contains(content, Marker) ==>
      Contains(r, ExportLine(name)) && |r| > |content| && r[..|content|] == content
  {
    RegisterLine(content, Marker, ExportLine(name))
  }

  /** `unregisterModuleSchema` on the index text: only the first `line\n` is removed. */
  function RemoveLine(content: string, line: string): (r: string)
    ensures !Contains(content, line + "\n") ==> r == content
    ensures Contains(content, line + "\n") ==> |r| + |line| + 1 == |content|
  {
    ReplaceFirst(content, line + "\n", "")
  }

  /** `unregisterModuleSchema(name)`: removes one export line of the module, if there is one. */
  function Unregister(content: string, name: string): (r: string)
    ensures !Contains(content, ExportLine(name) + "\n") ==> r == content
    ensures Contains(content, ExportLine(name) + "\n") ==> |r| + |ExportLine(name)| + 1 == |content|
  {
    RemoveLine(content, ExportLine(name))
  }

  /** Replacing the first `q` by `q + ins` inserts `ins` right after that occurrence. */
  lemma InsertAfterFirst(c: string, q: string, ins: string)
    requires Contains(c, q)
    ensures var i := IndexOf(c, q).value;
      ReplaceFirst(c, q, q + ins) == c[..i + |q|] + ins + c[i + |q|..]
  {
    var i := IndexOf(c, q).value;
    var before, after := c[..i], c[i + |q|..];
    assert ReplaceFirst(c, q, q + ins) == before + (q + ins) + after;
    assert c[..i + |q|] == before + q by {
      assert c[i..i + |q|] == q;
      assert c[..i + |q|] == c[..i] + c[i..i + |q|];
    }
    assert before + (q + ins) + after == (before + q) + ins + after;
  }

  /** With `m\n` present and the line absent, the line comes right after the first `m\n`, the rest unchanged. */
  lemma RegisterAfterMarker(content: string, m: string, line: string)
    requires !Contains(content, line) && Contains(content, m + "\n")
    ensures var cut := IndexOf(content, m + "\n").value + |m| + 1;
      RegisterLine(content, m, line) == content[..cut] + (line + "\n") + content[cut..]
  {
    ContainsShorter(content, m, "\n");
    InsertAfterFirst(content, m + "\n", line + "\n");
  }

  /** The index is left unchanged exactly when the line is there or the marker never ends a line. */
  lemma RegisterUnchanged(content: string, m: string, line: string)
    ensures RegisterLine(content, m, line) == content <==>
      Contains(content, line) || (Contains(content, m) && !Contains(content, m + "\n"))
  {
    if !Contains(content, line) && Contains(content, m + "\n") {
      ContainsShorter(content, m, "\n");
      RegisterAfterMarker(content, m, line);
      assert |RegisterLine(content, m, line)| == |content| + |line| + 1;
    } else if !Contains(content, line) && !Contains(content, m) {
      assert |RegisterLine(content, m, line)| == |content| + |line| + 2;
    }
  }

  /** A line inserted with its newline is contained in the result. */
  lemma ContainsInserted(pre: string, line: string, post: string)
    ensures Contains(pre + (line + "\n") + post, line)
  {
    ContainsMiddle(pre, line, "\n" + post);
    assert pre + line + ("\n" + post) == pre + (line + "\n") + post;
  }

  /** Registering either leaves the index alone or leaves the line in it. */
  lemma RegisterAdds(content: string, m: string, line: string)
    ensures RegisterLine(content, m, line) == content || Contains(RegisterLine(content, m, line), line)
  {
    if !Contains(content, line) && Contains(content, m) && Contains(content, m + "\n") {
      RegisterAddsAfterMarker(content, m, line);
    } else if !Contains(content, line) && !Contains(content, m) {
      ContainsMiddle(content + "\n", line, "\n");
    }
  }

  lemma RegisterAddsAfterMarker(content: string, m: string, line: string)
    requires !Contains(content, line) && Contains(content, m + "\n")
    ensures Contains(RegisterLine(content, m, line), line)
  {
    RegisterAfterMarker(content, m, line);
    var cut := IndexOf(content, m + "\n").value + |m| + 1;
    ContainsInserted(content[..cut], line, content[cut..]);
  }

  /** Registering twice is the same as registering once. */
  lemma RegisterIdempotent(content: string, m: string, line: string)
    ensures RegisterLine(RegisterLine(content, m, line), m, line) == RegisterLine(content, m, line)
  {
    RegisterAdds(content, m, line);
  }

  /** No occurrence of `line\n` starts inside `pre` when `pre` ends a line, lacks `line`, and `line` has no newline. */
  lemma NoEarlyLine(pre: string, line: string, post: string, j: nat)
    requires |pre| > 0 && pre[|pre| - 1] == '\n'
    requires '\n' !in line && !Contains(pre, line)
    requires j < |pre|
    ensures !OccursAt(pre + line + "\n" + post, line + "\n", j)
  {
    var s := pre + line + "\n" + post;
    if j + |line| <= |pre| {
      assert !OccursAt(pre, line, j);
      assert s[j..][..|line|] == pre[j..][..|line|];
      assert pre[j..][..|line|] != line;
    } else if j + |line| + 1 <= |s| {
      var o := |pre| - 1 - j;
      assert s[j..][o] == '\n';
      assert (line + "\n")[o] == line[o];
    }
  }

  /** So the first `line\n` in `pre + line + "\n" + post` is the one right after `pre`. */
  lemma FirstLineAfter(pre: string, line: string, post: string)
    requires |pre| > 0 && pre[|pre| - 1] == '\n'
    requires '\n' !in line && !Contains(pre, line)
    ensures IndexOf(pre + line + "\n" + post, line + "\n") == Some(|pre|)
  {
    var s := pre + line + "\n" + post;
    var p := line + "\n";
    assert s[|pre|..] == p + post;
    ContainsAt(s, p, |pre|);
    var i := IndexOf(s, p).value;
    if i < |pre| {
      NoEarlyLine(pre, line, post, i);
      assert false;
    }
  }

  /** Removing the first `line\n` from `pre + line + "\n" + post` gives `pre + post`. */
  lemma RemoveLineAfter(pre: string, line: string, post: string)
    requires |pre| > 0 && pre[|pre| - 1] == '\n'
    requires '\n' !in line && !Contains(pre, line)
    ensures ReplaceFirst(pre + line + "\n" + post, line + "\n", "") == pre + post
  {
    FirstLineAfter(pre, line, post);
    var r := pre + line + "\n" + post;
    assert r[..|pre|] == pre && r[|pre| + |line + "\n"|..] == post;
  }

  /** The text up to the end of the first `q` ends as `q` does. */
  lemma EndsLikeFirst(c: string, q: string)
    requires Contains(c, q) && |q| > 0
    ensures var cut := IndexOf(c, q).value + |q|; c[..cut][cut - 1] == q[|q| - 1]
  {
    var i := IndexOf(c, q).value;
    assert c[i..i + |q|] == q;
    assert c[..i + |q|][i + |q| - 1] == c[i..i + |q|][|q| - 1];
  }

  /** What does not occur in a text does not occur in a prefix of it. */
  lemma PrefixLacks(c: string, p: string, k: nat)
    requires k <= |c| && !Contains(c, p)
    ensures !Contains(c[..k], p)
  {
    if Contains(c[..k], p) {
      ContainsPrefix(c, p, k);
    }
  }

  /** Inserting a fresh line after the first `q` (a whole line) and removing the first copy of it restores the text. */
  lemma InsertThenRemove(c: string, q: string, line: string)
    requires Contains(c, q) && |q| > 0 && q[|q| - 1] == '\n'
    requires '\n' !in line && !Contains(c, line)
    ensures ReplaceFirst(ReplaceFirst(c, q, q + (line + "\n")), line + "\n", "") == c
  {
    var cut := IndexOf(c, q).value + |q|;
    var pre, post := c[..cut], c[cut..];
    InsertLineAfterFirst(c, q, line);
    LineBoundary(c, q, line);
    RemoveLineAfter(pre, line, post);
    assert c == pre + post;
  }

  /** Inserting `line + "\n"` after the first `q` puts it between the text up to that `q` and the rest. */
  lemma InsertLineAfterFirst(c: string, q: string, line: string)
    requires Contains(c, q)
    ensures var cut := IndexOf(c, q).value + |q|;
      ReplaceFirst(c, q, q + (line + "\n")) == c[..cut] + line + "\n" + c[cut..]
  {
    var cut := IndexOf(c, q).value + |q|;
    InsertAfterFirst(c, q, line + "\n");
    Seqs.AppendAssoc(c[..cut], line, "\n");
  }

  /** The text up to the end of the first `q`, a whole line, ends a line and lacks a line absent from the text. */
  lemma LineBoundary(c: string, q: string, line: string)
    requires Contains(c, q) && |q| > 0 && q[|q| - 1] == '\n'
    requires !Contains(c, line)
    ensures var pre := c[..IndexOf(c, q).value + |q|];
      |pre| > 0 && pre[|pre| - 1] == '\n' && !Contains(pre, line)
  {
    var cut := IndexOf(c, q).value + |q|;
    EndsLikeFirst(c, q);
    PrefixLacks(c, line, cut);
  }

  /** With the marker present and a newline-free line absent, registering and then unregistering restores the index. */
  lemma RegisterUnregister(content: string, m: string, line: string)
    requires '\n' !in line
    requires !Contains(content, line) && Contains(content, m)
    ensures RemoveLine(RegisterLine(content, m, line), line) == content
  {
    if Contains(content, m + "\n") {
      assert (m + "\n")[|m + "\n"| - 1] == '\n';
      InsertThenRemove(content, m + "\n", line);
    } else {
      if Contains(content, line + "\n") {
        ContainsShorter(content, line, "\n");
      }
    }
  }

  /** Without the marker the round trip leaves the separating newline behind. */
  lemma RegisterUnregisterWithoutMarker(content: string, m: string, line: string)
    requires '\n' !in line
    requires !Contains(content, line) && !Contains(content, m)
    ensures RemoveLine(RegisterLine(content, m, line), line) == content + "\n"
  {
    var pre := content + "\n";
    assert !Contains(pre, line) by {
      if Contains(pre, line) {
        var j := IndexOf(pre, line).value;
        if j + |line| <= |content| {
          assert content[j..][..|line|] == pre[j..][..|line|];
          ContainsAt(content, line, j);
        }
      }
    }
    RemoveLineAfter(pre, line, "");
    assert RegisterLine(content, m, line) == pre + line + "\n" + "";
  }
}
