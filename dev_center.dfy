/**
 * The logic of the development center page (client/src/pages/DevCenter.tsx)
 * that is not markup: the route a changed file is previewed at
 * (`getRouteFromFilePath` and the review panel's `detectRoute`), the rows of
 * the side-by-side diff (`InlineDiffViewer`), the de-duplication of pending
 * staged changes, the approve request body, and the first preview route.
 */
module DevCenter {
  import opened Wrappers
  import opened Text
  import Seqs

  /** An object literal mapping names to routes, as its entries in declaration order. */
  type RouteTable = seq<(string, string)>

  /** The index of the first entry whose key satisfies `matches`, in declaration order. */
  function FirstKey(table: RouteTable, matches: string -> bool): (r: Option<nat>)
    ensures r.Some? ==> r.value < |table| && matches(table[r.value].0)
    ensures r.Some? ==> forall j :: 0 <= j < r.value ==> !matches(table[j].0)
    ensures r.None? ==> forall j :: 0 <= j < |table| ==> !matches(table[j].0)
  {
    if |table| == 0 then None
    else if matches(table[0].0) then Some(0)
    else match FirstKey(table[1..], matches)
      case None => None
      case Some(i) => Some(i + 1)
  }

  /** `table[key]`: the route stored under exactly that key. */
  function Lookup(table: RouteTable, key: string): (r: Option<string>)
    ensures r.Some? <==> exists k :: 0 <= k < |table| && table[k].0 == key
    ensures r.Some? ==> exists k :: 0 <= k < |table| && table[k] == (key, r.value)
  {
    var i := FirstKey(table, k => k == key);
    if i.Some? then Some(table[i.value].1) else None
  }

  // ---------------------------------------------------------------------------
  // getRouteFromFilePath
  // ---------------------------------------------------------------------------

  /** `.replace(/\.(tsx|ts|jsx|js)$/, "")`: at most one of the four extensions can end a name. */
  function StripScriptExt(f: string): (r: string)
    ensures r <= f
  {
    if EndsWith(f, ".tsx") || EndsWith(f, ".jsx") then f[..|f| - 4]
    else if EndsWith(f, ".ts") || EndsWith(f, ".js") then f[..|f| - 3]
    else f
  }

  /** Stripping each extension gives back the name it was added to. */
  lemma StripScriptExtOf(name: string)
    ensures StripScriptExt(name + ".tsx") == name && StripScriptExt(name + ".ts") == name
    ensures StripScriptExt(name + ".jsx") == name && StripScriptExt(name + ".js") == name
  {
    EndsWithConcat(name, ".tsx");
    EndsWithConcat(name, ".ts");
    EndsWithConcat(name, ".jsx");
    EndsWithConcat(name, ".js");
    assert (name + ".tsx")[..|name|] == name && (name + ".ts")[..|name|] == name;
    assert (name + ".jsx")[..|name|] == name && (name + ".js")[..|name|] == name;
    assert (name + ".ts")[|name| + 2] == 's' && (name + ".js")[|name| + 2] == 's';
  }

  /** The last `/`-separated part of a path without its script extension. */
  function BaseName(path: string): string {
    var parts := Split(path, '/');
    StripScriptExt(parts[|parts| - 1])
  }

  /** `filePath.split("/").slice(-2, -1)[0]`: the part before the last, when there are two or more. */
  function ParentFolder(path: string): Option<string> {
    var parts := Split(path, '/');
    if |parts| >= 2 then Some(parts[|parts| - 2]) else None
  }

  /** The first table entry whose lower-cased key occurs in the lower-cased `name`. */
  function FirstContainedIn(table: RouteTable, name: string): Option<nat> {
    FirstKey(table, k => Contains(Lower(name), Lower(k)))
  }

  /** Under `/xos/`: the route of the first keyword found, else `/xos`. */
  function XosRoute(lower: string): (r: string)
    ensures r == "/xos" <==> forall j :: 0 <= j < |XosRoutes| ==> !Contains(lower, XosRoutes[j].0)
    ensures r != "/xos" ==> exists k :: 0 <= k < |XosRoutes| && Contains(lower, XosRoutes[k].0) && r == XosRoutes[k].1 &&
                                       forall j :: 0 <= j < k ==> !Contains(lower, XosRoutes[j].0)
  {
    XosRoutesAreNotXos();
    RouteOfFirst(XosRoutes, k => Contains(lower, k), "/xos")
  }

  /** No keyword under `/xos/` routes to `/xos` itself. */
  lemma XosRoutesAreNotXos()
    ensures forall k :: 0 <= k < |XosRoutes| ==> XosRoutes[k].1 != "/xos"
  {
  }

  /** The route of the first entry whose key satisfies `matches`, else `fallback`, which no entry routes to. */
  function RouteOfFirst(table: RouteTable, matches: string -> bool, fallback: string): (r: string)
    requires forall k :: 0 <= k < |table| ==> table[k].1 != fallback
    ensures r == fallback <==> forall j :: 0 <= j < |table| ==> !matches(table[j].0)
    ensures r != fallback ==> exists k :: 0 <= k < |table| && matches(table[k].0) && r == table[k].1 &&
                                         forall j :: 0 <= j < k ==> !matches(table[j].0)
  {
    var i := FirstKey(table, matches);
    if i.Some? then table[i.value].1 else fallback
  }

  /** The `components/` rule: the parent folder matched like a page name, unless it is `components` itself. */
  function ComponentRoute(table: RouteTable, path: string): (r: Option<string>)
    ensures r.Some? <==>
      ParentFolder(path).Some? && ParentFolder(path).value != "" && ParentFolder(path).value != "components" &&
      FirstContainedIn(table, ParentFolder(path).value).Some?
    ensures r.Some? ==> r.value == table[FirstContainedIn(table, ParentFolder(path).value).value].1
  {
    var parent := ParentFolder(path);
    if parent.Some? && parent.value != "" && parent.value != "components" then
      var m := FirstContainedIn(table, parent.value);
      if m.Some? then Some(table[m.value].1) else None
    else None
  }

  /** The folder rules after the `/xos/` one: a page name containing a key, then a component folder. */
  function FolderRoute(table: RouteTable, path: string, lower: string): (r: Option<string>)
    ensures Contains(lower, "pages/") && FirstContainedIn(table, BaseName(path)).Some? ==>
      r == Some(table[FirstContainedIn(table, BaseName(path)).value].1)
    ensures !(Contains(lower, "pages/") && FirstContainedIn(table, BaseName(path)).Some?) ==>
      r == if Contains(lower, "components/") then ComponentRoute(table, path) else None
  {
    var page := if Contains(lower, "pages/") then FirstContainedIn(table, BaseName(path)) else None;
    if page.Some? then Some(table[page.value].1)
    else if Contains(lower, "components/") then ComponentRoute(table, path)
    else None
  }

  /**
   * `getRouteFromFilePath` over a route table: an exact base-name match with a non-empty route, then
   * the `/xos/` keywords, then a page name or a component folder containing a key.
   */
  function RouteFor(table: RouteTable, path: string): (r: Option<string>)
    ensures Lookup(table, BaseName(path)).Some? && Lookup(table, BaseName(path)).value != "" ==>
      r == Lookup(table, BaseName(path))
    ensures !(Lookup(table, BaseName(path)).Some? && Lookup(table, BaseName(path)).value != "") ==>
      r == if Contains(Lower(path), "/xos/") then Some(XosRoute(Lower(path))) else FolderRoute(table, path, Lower(path))
  {
    var exact := Lookup(table, BaseName(path));
    if exact.Some? && exact.value != "" then exact
    else
      var lower := Lower(path);
      if Contains(lower, "/xos/") then Some(XosRoute(lower))
      else FolderRoute(table, path, lower)
  }

  /** `getRouteFromFilePath`: a route named by `FILE_TO_ROUTE_MAP` or the XOS keywords, or `/xos`. */
  function RouteFromFilePath(filePath: string): (r: Option<string>)
    ensures r.Some? ==> r.value == "/xos" || (exists k :: 0 <= k < |FileRoutes| && FileRoutes[k].1 == r.value) ||
                        (exists k :: 0 <= k < |XosRoutes| && XosRoutes[k].1 == r.value)
  {
    var r := RouteFor(FileRoutes, filePath);
    if r.Some? then RouteComesFromTables(FileRoutes, filePath); r else r
  }

  /**
   * Under `pages/`, the route is that of the earliest table key contained in the page name,
   * whatever later keys also match.
   */
  lemma PageFolderFirstKeyWins(table: RouteTable, path: string, k: nat)
    requires Contains(Lower(path), "pages/")
    requires k < |table| && Contains(Lower(BaseName(path)), Lower(table[k].0))
    requires forall j :: 0 <= j < k ==> !Contains(Lower(BaseName(path)), Lower(table[j].0))
    ensures FolderRoute(table, path, Lower(path)) == Some(table[k].1)
  {
    FirstContainedInIs(table, BaseName(path), k);
  }

  lemma FirstContainedInIs(table: RouteTable, name: string, k: nat)
    requires k < |table| && Contains(Lower(name), Lower(table[k].0))
    requires forall j :: 0 <= j < k ==> !Contains(Lower(name), Lower(table[j].0))
    ensures FirstContainedIn(table, name) == Some(k)
  {
    var m := FirstContainedIn(table, name);
    assert m.Some? ==> m.value <= k;
  }

  /** A file whose parent folder is `components` itself gets no route from the folder rule. */
  lemma ComponentsFolderUnrouted(table: RouteTable, path: string)
    requires ParentFolder(path) == Some("components")
    ensures ComponentRoute(table, path).None?
  {
  }

  /** An exact base-name match with a non-empty route decides before every other rule. */
  lemma ExactNameWins(table: RouteTable, path: string, key: string, route: string)
    requires (key, route) in table && route != ""
    requires forall k :: 0 <= k < |table| ==> table[k].0 == key ==> table[k].1 == route
    requires BaseName(path) == key
    ensures RouteFor(table, path) == Some(route)
  {
    var k :| 0 <= k < |table| && table[k] == (key, route);
    assert Lookup(table, key).Some?;
  }

  /** A path under `/xos/` (in any case) without an exact match always gets a route among the XOS ones. */
  lemma XosPathRouted(table: RouteTable, path: string)
    requires Lookup(table, BaseName(path)).GetOr("") == ""
    requires Contains(Lower(path), "/xos/")
    ensures RouteFor(table, path).Some?
    ensures RouteFor(table, path).value == "/xos" ||
      exists k :: 0 <= k < |XosRoutes| && XosRoutes[k].1 == RouteFor(table, path).value
  {
  }

  /** Every route found is one the table or the XOS keywords name, or `/xos`. */
  lemma RouteComesFromTables(table: RouteTable, path: string)
    requires RouteFor(table, path).Some?
    ensures var r := RouteFor(table, path).value;
      r == "/xos" || (exists k :: 0 <= k < |table| && table[k].1 == r) ||
      (exists k :: 0 <= k < |XosRoutes| && XosRoutes[k].1 == r)
  {
    var exact := Lookup(table, BaseName(path));
    if exact.Some? && exact.value != "" {
      var k :| 0 <= k < |table| && table[k] == (BaseName(path), exact.value);
      assert table[k].1 == exact.value;
    } else if !Contains(Lower(path), "/xos/") {
      FolderRouteInTable(table, path, Lower(path));
    }
  }

  lemma FolderRouteInTable(table: RouteTable, path: string, lower: string)
    requires FolderRoute(table, path, lower).Some?
    ensures exists k :: 0 <= k < |table| && table[k].1 == FolderRoute(table, path, lower).value
  {
    var page := FirstContainedIn(table, BaseName(path));
    if Contains(lower, "pages/") && page.Some? {
      assert table[page.value].1 == FolderRoute(table, path, lower).value;
    } else {
      var m := FirstContainedIn(table, ParentFolder(path).value);
      assert table[m.value].1 == FolderRoute(table, path, lower).value;
    }
  }

  /** A path naming no folder rule and no table key has no route. */
  lemma UnmatchedHasNoRoute(table: RouteTable, path: string)
    requires Lookup(table, BaseName(path)).None?
    requires !Contains(Lower(path), "/xos/") && !Contains(Lower(path), "pages/") && !Contains(Lower(path), "components/")
    ensures RouteFor(table, path) == None
  {
  }

  // ---------------------------------------------------------------------------
  // InlineDiffViewer
  // ---------------------------------------------------------------------------

  /** The viewer always shows this many rows. */
  const DiffWindow: nat := 200

  /** `Math.min(Math.max(a, b, 200), 200)`, which is 200 whatever the line counts. */
  function DisplayLines(a: nat, b: nat): (n: nat)
    ensures n == DiffWindow
  {
    var maxLines := if a >= b && a >= 200 then a else if b >= 200 then b else 200;
    if maxLines <= 200 then maxLines else 200
  }

  datatype RowKind = Same | Add | Remove | Modify

  datatype DiffRow = DiffRow(kind: RowKind, lineNum: nat, origLine: Option<string>, modLine: Option<string>)

  /** `lines[i]`, undefined past the end. */
  function LineAt(lines: seq<string>, i: nat): (r: Option<string>)
    ensures r.Some? <==> i < |lines|
  {
    if i < |lines| then Some(lines[i]) else None
  }

  /**
   * One row: an added line when only the modified text has it, a removed one when only the
   * original has it, the same when both agree (also when both are missing), modified otherwise.
   */
  function Classify(orig: Option<string>, mod: Option<string>, lineNum: nat): (row: DiffRow)
    ensures row.kind == Add <==> orig.None? && mod.Some?
    ensures row.kind == Remove <==> orig.Some? && mod.None?
    ensures row.kind == Same <==> orig == mod
    ensures row.kind == Modify <==> orig.Some? && mod.Some? && orig != mod
    ensures row.lineNum == lineNum
    ensures row.origLine == if row.kind == Add then None else orig
    ensures row.modLine == if row.kind == Remove then None else mod
  {
    if orig.None? && mod.Some? then DiffRow(Add, lineNum, None, mod)
    else if orig.Some? && mod.None? then DiffRow(Remove, lineNum, orig, None)
    else if orig == mod then DiffRow(Same, lineNum, orig, mod)
    else DiffRow(Modify, lineNum, orig, mod)
  }

  /** The rows of `InlineDiffViewer`: line i of both texts, compared position by position. */
  method InlineDiff(original: string, modified: string) returns (rows: seq<DiffRow>)
    ensures |rows| == DiffWindow
    ensures forall i :: 0 <= i < |rows| ==>
      rows[i] == Classify(LineAt(Split(original, '\n'), i), LineAt(Split(modified, '\n'), i), i + 1)
  {
    var origLines := Split(original, '\n');
    var modLines := Split(modified, '\n');
    var displayLines := DisplayLines(|origLines|, |modLines|);
    rows := [];
    for i := 0 to displayLines
      invariant |rows| == i
      invariant forall k :: 0 <= k < i ==> rows[k] == Classify(LineAt(origLines, k), LineAt(modLines, k), k + 1)
    {
      var orig := LineAt(origLines, i);
      var mod := LineAt(modLines, i);
      if orig.None? && mod.Some? {
        rows := rows + [DiffRow(Add, i + 1, None, mod)];
      } else if orig.Some? && mod.None? {
        rows := rows + [DiffRow(Remove, i + 1, orig, None)];
      } else if orig == mod {
        rows := rows + [DiffRow(Same, i + 1, orig, mod)];
      } else {
        rows := rows + [DiffRow(Modify, i + 1, orig, mod)];
      }
    }
  }

  /** Past the end of both texts a row is `same`; identical texts give only `same` rows. */
  lemma DiffRowsOfEqualLines(orig: seq<string>, mod: seq<string>, i: nat)
    requires i < |orig| && i < |mod| ==> orig[i] == mod[i]
    requires i < |orig| <==> i < |mod|
    ensures Classify(LineAt(orig, i), LineAt(mod, i), i + 1).kind == Same
  {
  }

  // ---------------------------------------------------------------------------
  // PipelineReviewPanelV2: pending changes and approval
  // ---------------------------------------------------------------------------

  /** A staged change, reduced to what the review panel reads. */
  datatype Change = Change(id: nat, filePath: string, status: string)

  /** `changes.filter(c => c.status === "pending")`. */
  function PendingOf(changes: seq<Change>): (r: seq<Change>)
    ensures forall c :: c in r <==> c in changes && c.status == "pending"
  {
    if |changes| == 0 then []
    else (if changes[0].status == "pending" then [changes[0]] else []) + PendingOf(changes[1..])
  }

  /** The pending filter keeps the changes' order: it distributes over concatenation. */
  lemma {:induction false} PendingOfConcat(a: seq<Change>, b: seq<Change>)
    ensures PendingOf(a + b) == PendingOf(a) + PendingOf(b)
    decreases |a|
  {
    if |a| == 0 {
      assert a + b == b;
    } else {
      var head := if a[0].status == "pending" then [a[0]] else [];
      assert (a + b)[1..] == a[1..] + b;
      PendingOfConcat(a[1..], b);
      Seqs.AppendAssoc(head, PendingOf(a[1..]), PendingOf(b));
    }
  }

  /** One change is kept exactly when it is pending; with `PendingOfConcat` this fixes the order. */
  lemma PendingOfOne(c: Change)
    ensures PendingOf([c]) == if c.status == "pending" then [c] else []
  {
    assert [c][1..] == [];
  }

  function PathsOf(cs: seq<Change>): (r: seq<string>)
    ensures |r| == |cs| && forall i :: 0 <= i < |cs| ==> r[i] == cs[i].filePath
  {
    seq(|cs|, i requires 0 <= i < |cs| => cs[i].filePath)
  }

  /** The keys of a `Map` filled from `cs` by path, in order: each path once, where it first appeared. */
  function PathKeys(cs: seq<Change>): seq<string> {
    if |cs| == 0 then []
    else
      var init := PathKeys(cs[..|cs| - 1]);
      var last := cs[|cs| - 1].filePath;
      if last in init then init else init + [last]
  }

  /** The keys are exactly the paths of `cs`, each once. */
  lemma {:induction false} PathKeysSpec(cs: seq<Change>)
    ensures forall p :: p in PathKeys(cs) <==> exists k :: 0 <= k < |cs| && cs[k].filePath == p
    ensures forall i, j :: 0 <= i < j < |PathKeys(cs)| ==> PathKeys(cs)[i] != PathKeys(cs)[j]
  {
    if |cs| > 0 {
      var init := cs[..|cs| - 1];
      PathKeysSpec(init);
      assert forall k :: 0 <= k < |init| ==> init[k] == cs[k];
    }
  }

  /** The last change in `cs` with path `p`: the one a `Map.set` loop leaves behind. */
  function LastWith(cs: seq<Change>, p: string): Option<Change> {
    if |cs| == 0 then None
    else if cs[|cs| - 1].filePath == p then Some(cs[|cs| - 1])
    else LastWith(cs[..|cs| - 1], p)
  }

  /** `LastWith` finds a change exactly when one has the path, and no later change has it. */
  lemma LastWithIsLast(cs: seq<Change>, p: string)
    ensures LastWith(cs, p).Some? <==> exists k :: 0 <= k < |cs| && cs[k].filePath == p
    ensures LastWith(cs, p).Some? ==> exists k :: 0 <= k < |cs| && cs[k] == LastWith(cs, p).value &&
                                        cs[k].filePath == p && (forall j :: k < j < |cs| ==> cs[j].filePath != p)
  {
    LastWithFound(cs, p);
    LastWithLatest(cs, p);
  }

  lemma {:induction false} LastWithFound(cs: seq<Change>, p: string)
    ensures LastWith(cs, p).Some? <==> exists k :: 0 <= k < |cs| && cs[k].filePath == p
  {
    if |cs| > 0 && cs[|cs| - 1].filePath != p {
      var init := cs[..|cs| - 1];
      LastWithFound(init, p);
      assert forall k :: 0 <= k < |init| ==> init[k] == cs[k];
    }
  }

  lemma {:induction false} LastWithLatest(cs: seq<Change>, p: string)
    ensures LastWith(cs, p).Some? ==> exists k :: 0 <= k < |cs| && cs[k] == LastWith(cs, p).value &&
                                        cs[k].filePath == p && (forall j :: k < j < |cs| ==> cs[j].filePath != p)
  {
    if |cs| > 0 && cs[|cs| - 1].filePath != p {
      var init := cs[..|cs| - 1];
      LastWithLatest(init, p);
      assert forall k :: 0 <= k < |init| ==> init[k] == cs[k];
    }
  }

  lemma PathKeysSnoc(cs: seq<Change>, c: Change)
    ensures PathKeys(cs + [c]) == if c.filePath in PathKeys(cs) then PathKeys(cs) else PathKeys(cs) + [c.filePath]
  {
    assert (cs + [c])[..|cs|] == cs;
  }

  lemma LastWithSnoc(cs: seq<Change>, c: Change, p: string)
    ensures LastWith(cs + [c], p) == if c.filePath == p then Some(c) else LastWith(cs, p)
  {
    assert (cs + [c])[..|cs|] == cs;
  }

  /** One turn of the de-duplication loop keeps its keys and map in step with the changes seen. */
  lemma DedupeStep(all: seq<Change>, i: nat, seen: seq<Change>, keys: seq<string>, m: map<string, Change>)
    requires i < |all| && seen == all[..i + 1]
    requires keys == PathKeys(all[..i])
    requires forall p :: p in m <==> p in keys
    requires forall p :: p in m ==> LastWith(all[..i], p) == Some(m[p])
    ensures var c := all[i];
      var keys' := if c.filePath in m then keys else keys + [c.filePath];
      keys' == PathKeys(seen) &&
      (forall p :: p in m[c.filePath := c] <==> p in keys') &&
      (forall p :: p in m[c.filePath := c] ==> LastWith(seen, p) == Some(m[c.filePath := c][p]))
  {
    var done, c := all[..i], all[i];
    assert seen == done + [c];
    PathKeysSnoc(done, c);
    forall p | p in m[c.filePath := c]
      ensures LastWith(done + [c], p) == Some(m[c.filePath := c][p])
    {
      LastWithSnoc(done, c, p);
    }
  }

  /**
   * `pendingChanges`: the pending changes keyed by path in a `Map`; a path keeps the position of
   * its first pending change and holds its last one.
   */
  method DedupePending(changes: seq<Change>) returns (pending: seq<Change>)
    ensures var keys := PathKeys(PendingOf(changes));
      |pending| == |keys| &&
      forall i :: 0 <= i < |keys| ==> LastWith(PendingOf(changes), keys[i]) == Some(pending[i])
  {
    var all := PendingOf(changes);
    var keys: seq<string> := [];
    var pendingMap: map<string, Change> := map[];
    for i := 0 to |all|
      invariant keys == PathKeys(all[..i])
      invariant forall p :: p in pendingMap <==> p in keys
      invariant forall p :: p in pendingMap ==> LastWith(all[..i], p) == Some(pendingMap[p])
    {
      var c := all[i];
      DedupeStep(all, i, all[..i + 1], keys, pendingMap);
      if c.filePath !in pendingMap {
        keys := keys + [c.filePath];
      }
      pendingMap := pendingMap[c.filePath := c];
    }
    assert all[..|all|] == all;
    pending := seq(|keys|, j requires 0 <= j < |keys| => pendingMap[keys[j]]);
  }

  /** Every pending change's path gets exactly one row, and a row holds a pending change. */
  lemma PendingRowsCover(changes: seq<Change>, c: Change)
    requires c in changes && c.status == "pending"
    ensures var keys := PathKeys(PendingOf(changes));
      c.filePath in keys && LastWith(PendingOf(changes), c.filePath).Some?
  {
    var all := PendingOf(changes);
    PathKeysSpec(all);
    LastWithIsLast(all, c.filePath);
  }

  /** The body of the approve request: `selectedFiles` only when fewer files are selected than pending. */
  function ApproveBody(selected: seq<string>, pendingCount: nat): (body: Option<seq<string>>)
    ensures body.None? ==> |selected| >= pendingCount
    ensures body.Some? ==> body.value == selected && |selected| < pendingCount
  {
    if |selected| < pendingCount then Some(selected) else None
  }

  predicate Distinct(s: seq<string>) {
    forall i, j :: 0 <= i < j < |s| ==> s[i] != s[j]
  }

  lemma {:induction false} DistinctCard(s: seq<string>)
    requires Distinct(s)
    ensures |set x | x in s| == |s|
  {
    if |s| > 0 {
      var init := s[..|s| - 1];
      DistinctCard(init);
      assert (set x | x in s) == (set x | x in init) + {s[|s| - 1]};
      assert s[|s| - 1] !in init;
    }
  }

  lemma {:induction false} SubsetCard(a: set<string>, b: set<string>)
    requires a <= b
    ensures |a| <= |b|
    decreases |a|
  {
    if a != {} {
      var x :| x in a;
      SubsetCard(a - {x}, b - {x});
    }
  }

  /** With every pending file selected the body is empty, which approves all of them. */
  lemma SelectingAllApprovesAll(selected: seq<string>, pending: seq<Change>)
    requires Distinct(selected) && Distinct(PathsOf(pending))
    requires forall c :: c in pending ==> c.filePath in selected
    ensures ApproveBody(selected, |pending|) == None
  {
    DistinctCard(selected);
    DistinctCard(PathsOf(pending));
    var paths := PathsOf(pending);
    assert (set x | x in paths) <= (set x | x in selected) by {
      forall x | x in paths ensures x in selected {
        var k :| 0 <= k < |paths| && paths[k] == x;
        assert pending[k] in pending;
      }
    }
    SubsetCard(set x | x in paths, set x | x in selected);
  }

  /** With some pending file left out of a selection of pending files, exactly the selection is sent. */
  lemma PartialSelectionSent(selected: seq<string>, pending: seq<Change>, left: Change)
    requires Distinct(selected) && Distinct(PathsOf(pending))
    requires forall p :: p in selected ==> p in PathsOf(pending)
    requires left in pending && left.filePath !in selected
    ensures ApproveBody(selected, |pending|) == Some(selected)
  {
    DistinctCard(selected);
    DistinctCard(PathsOf(pending));
    var paths := PathsOf(pending);
    var k :| 0 <= k < |pending| && pending[k] == left;
    assert paths[k] == left.filePath;
    var chosen := set x | x in selected;
    var all := set x | x in paths;
    assert chosen <= all - {left.filePath};
    SubsetCard(chosen, all - {left.filePath});
  }

  // ---------------------------------------------------------------------------
  // detectRoute and the first preview route
  // ---------------------------------------------------------------------------

  /** The characters of the regular-expression class `\w`. */
  predicate IsWordChar(ch: char) {
    'a' <= ch <= 'z' || 'A' <= ch <= 'Z' || '0' <= ch <= '9' || ch == '_'
  }

  /** The number of leading word characters of `s`. */
  function WordRun(s: string): (n: nat)
    ensures n <= |s|
    ensures forall k :: 0 <= k < n ==> IsWordChar(s[k])
    ensures n < |s| ==> !IsWordChar(s[n])
  {
    if |s| == 0 || !IsWordChar(s[0]) then 0 else 1 + WordRun(s[1..])
  }

  /** A run of `m` word characters ended by another character is the whole leading run. */
  lemma {:induction false} WordRunIs(s: string, m: nat)
    requires m < |s| && !IsWordChar(s[m])
    requires forall k :: 0 <= k < m ==> IsWordChar(s[k])
    ensures WordRun(s) == m
  {
    if m > 0 {
      WordRunIs(s[1..], m - 1);
    }
  }

  const PagesDir: string := "pages/"
  const TsxExt: string := ".tsx"

  /** `pages/` at `j`, then one or more word characters, then `.tsx`: the captured name. */
  function PageNameAt(s: string, j: nat): Option<string>
    requires j <= |s|
  {
    if OccursAt(s, PagesDir, j) then
      var rest := s[j + |PagesDir|..];
      var n := WordRun(rest);
      if n > 0 && StartsWith(rest[n..], TsxExt) then Some(rest[..n]) else None
    else None
  }

  /** What `PageNameAt` captures at each position of `s`, the end included. */
  function PageNamesAt(s: string): (rs: seq<Option<string>>)
    ensures |rs| == |s| + 1 && forall j :: 0 <= j <= |s| ==> rs[j] == PageNameAt(s, j)
  {
    seq(|s| + 1, j requires 0 <= j <= |s| => PageNameAt(s, j))
  }

  /** `filePath.match(/pages\/(\w+)\.tsx/)?.[1]`: the captured name of the leftmost match. */
  function PageName(s: string): Option<string> {
    var rs := PageNamesAt(s);
    var i := FirstPresent(rs);
    if i.Some? then rs[i.value] else None
  }

  /** `pages/<name>.tsx` occurs at `j`, with `name` one or more word characters: a match of the pattern. */
  predicate MatchAt(s: string, j: nat, name: string) {
    && |name| > 0
    && (forall k :: 0 <= k < |name| ==> IsWordChar(name[k]))
    && OccursAt(s, PagesDir + name + TsxExt, j)
  }

  /** The name `PageNameAt` captures is that of a match at `j`. */
  lemma PageNameAtSound(s: string, j: nat)
    requires j <= |s| && PageNameAt(s, j).Some?
    ensures MatchAt(s, j, PageNameAt(s, j).value)
  {
    var rest := s[j + |PagesDir|..];
    var n := WordRun(rest);
    var name := rest[..n];
    assert s[j..] == PagesDir + rest;
    assert rest == name + TsxExt + rest[n + |TsxExt|..];
    assert s[j..] == PagesDir + name + TsxExt + rest[n + |TsxExt|..];
  }

  /** A match at `j` is the one `PageNameAt` captures: there is at most one, as `.` ends `\w+`. */
  lemma PageNameAtComplete(s: string, j: nat, name: string)
    requires j <= |s| && MatchAt(s, j, name)
    ensures PageNameAt(s, j) == Some(name)
  {
    var whole := PagesDir + name + TsxExt;
    var rest := s[j + |PagesDir|..];
    assert s[j..] == whole + s[j + |whole|..];
    assert rest == name + TsxExt + s[j + |whole|..];
    assert OccursAt(s, PagesDir, j);
    assert rest[|name|] == '.';
    WordRunIs(rest, |name|);
    assert rest[..|name|] == name;
  }

  /** `PageNameAt` captures exactly the name of the match at `j`. */
  lemma PageNameAtMatches(s: string, j: nat, name: string)
    requires j <= |s|
    ensures PageNameAt(s, j) == Some(name) <==> MatchAt(s, j, name)
  {
    if PageNameAt(s, j) == Some(name) {
      PageNameAtSound(s, j);
    }
    if MatchAt(s, j, name) {
      PageNameAtComplete(s, j, name);
    }
  }

  /**
   * `match` gives no name exactly when the pattern matches nowhere; otherwise it gives the name
   * of the leftmost match.
   */
  lemma PageNameLeftmost(s: string)
    ensures PageName(s).None? <==> forall i: nat, name :: i <= |s| ==> !MatchAt(s, i, name)
    ensures PageName(s).Some? ==> exists k: nat :: k <= |s| && MatchAt(s, k, PageName(s).value) &&
                                              forall i: nat, name :: i < k ==> !MatchAt(s, i, name)
  {
    var rs := PageNamesAt(s);
    var first := FirstPresent(rs);
    if first.Some? {
      var k := first.value;
      assert PageName(s) == PageNameAt(s, k);
      PageNameAtSound(s, k);
      forall i: nat, name | i < k ensures !MatchAt(s, i, name) {
        PageNameAtMatches(s, i, name);
      }
    } else {
      forall i: nat, name | i <= |s| ensures !MatchAt(s, i, name) {
        PageNameAtMatches(s, i, name);
      }
    }
  }

  /** A page under a directory without a `p`, such as `client/src/`, is recognised as that page. */
  lemma PageFileUnder(dir: string, name: string)
    requires 'p' !in dir
    requires |name| > 0 && forall k :: 0 <= k < |name| ==> IsWordChar(name[k])
    ensures PageName(dir + PagesDir + name + TsxExt) == Some(name)
  {
    var s := dir + PagesDir + name + TsxExt;
    forall i | 0 <= i < |dir| ensures PageNameAt(s, i).None? {
      assert s[i..][0] == dir[i] != PagesDir[0];
    }
    assert OccursAt(s, PagesDir + name + TsxExt, |dir|) by {
      assert s[|dir|..] == PagesDir + name + TsxExt;
    }
    PageNameAtComplete(s, |dir|, name);
    var rs := PageNamesAt(s);
    assert rs[|dir|] == Some(name);
    assert forall i :: 0 <= i < |dir| ==> rs[i].None?;
  }

  /** The pipeline's page files, `client/src/pages/<name>.tsx`, are recognised as the page `name`. */
  lemma ClientPageRecognised(name: string)
    requires |name| > 0 && forall k :: 0 <= k < |name| ==> IsWordChar(name[k])
    ensures PageName("client/src/" + PagesDir + name + TsxExt) == Some(name)
  {
    PageFileUnder("client/src/", name);
  }

  /** A file directly named `pages/<name>.tsx` is recognised as the page `name`. */
  lemma PageFileRecognised(name: string)
    requires |name| > 0 && forall k :: 0 <= k < |name| ==> IsWordChar(name[k])
    ensures PageName(PagesDir + name + TsxExt) == Some(name)
  {
    PageFileUnder("", name);
    assert "" + PagesDir == PagesDir;
  }

  /** `detectRoute`: a page's route (`/` when unlisted), else `/` for server routes, `/apps` for modules. */
  function DetectRoute(path: string): (r: Option<string>)
    ensures r.Some? ==> r.value != ""
    ensures PageName(path).Some? ==>
      var listed := Lookup(PageRoutes, PageName(path).value);
      r == Some(if listed.Some? && listed.value != "" then listed.value else "/")
    ensures PageName(path).None? ==>
      r == if Contains(path, "server/routes") then Some("/") else if Contains(path, "modules/") then Some("/apps") else None
  {
    match PageName(path)
    case Some(name) =>
      var route := Lookup(PageRoutes, name);
      Some(if route.Some? && route.value != "" then route.value else "/")
    case None =>
      if Contains(path, "server/routes") then Some("/")
      else if Contains(path, "modules/") then Some("/apps")
      else None
  }

  /**
   * The preview route chosen when pending changes arrive: the first non-null detected route,
   * taken only while the preview is still at `/`.
   */
  function InitialPreview(paths: seq<string>, previewUrl: string): (r: string)
    ensures previewUrl == "/" && FirstRoute(paths).Some? ==> r == FirstRoute(paths).value
    ensures previewUrl != "/" || FirstRoute(paths).None? ==> r == previewUrl
  {
    var first := FirstRoute(paths);
    if first.Some? && first.value != "" && previewUrl == "/" then first.value else previewUrl
  }

  /** The position of the first present route, if any. */
  function FirstPresent(rs: seq<Option<string>>): (i: Option<nat>)
    ensures i.Some? ==> i.value < |rs| && rs[i.value].Some?
    ensures i.Some? ==> forall j :: 0 <= j < i.value ==> rs[j].None?
    ensures i.None? ==> forall k :: 0 <= k < |rs| ==> rs[k].None?
  {
    if |rs| == 0 then None
    else if rs[0].Some? then Some(0)
    else
      var t := FirstPresent(rs[1..]);
      assert forall k :: 1 <= k < |rs| ==> rs[k] == rs[1..][k - 1];
      if t.Some? then Some(t.value + 1) else None
  }

  /** `paths.map(detectRoute).find(r => r !== null)`. */
  function FirstRoute(paths: seq<string>): (r: Option<string>)
    ensures r.Some? ==> r.value != ""
    ensures r.Some? ==> exists k :: 0 <= k < |paths| && DetectRoute(paths[k]) == r &&
                                    (forall j :: 0 <= j < k ==> DetectRoute(paths[j]).None?)
    ensures r.None? ==> forall k :: 0 <= k < |paths| ==> DetectRoute(paths[k]).None?
  {
    var rs := seq(|paths|, k requires 0 <= k < |paths| => DetectRoute(paths[k]));
    var i := FirstPresent(rs);
    if i.Some? then
      var k := i.value;
      assert rs[k] == DetectRoute(paths[k]);
      assert forall j :: 0 <= j < k ==> rs[j] == DetectRoute(paths[j]);
      rs[k]
    else
      assert forall k :: 0 <= k < |paths| ==> rs[k] == DetectRoute(paths[k]);
      None
  }

  /** A listed page file previews at its own route. */
  lemma PageFileDetected(name: string, route: string)
    requires |name| > 0 && forall k :: 0 <= k < |name| ==> IsWordChar(name[k])
    requires (name, route) in PageRoutes && route != ""
    requires forall k :: 0 <= k < |PageRoutes| ==> PageRoutes[k].0 == name ==> PageRoutes[k].1 == route
    ensures DetectRoute(PagesDir + name + TsxExt) == Some(route)
  {
    PageFileRecognised(name);
    var k :| 0 <= k < |PageRoutes| && PageRoutes[k] == (name, route);
    assert Lookup(PageRoutes, name).Some?;
  }

  /** `FILE_TO_ROUTE_MAP`, in declaration order. */
  const FileRoutes: RouteTable := [
    ("Cockpit", "/"), ("Home", "/"), ("Agent", "/agent"), ("Admin", "/admin"), ("Chat", "/chat"),
    ("WhatsApp", "/whatsapp"), ("XosInbox", "/comunicacao"), ("Automations", "/automations"),
    ("BiWorkspace", "/insights"), ("ProcessCompass", "/compass"), ("Crm", "/crm"),
    ("Production", "/production"), ("Support", "/support"), ("Valuation", "/valuation"),
    ("Canvas", "/canvas"), ("IDE", "/ide"), ("Scientist", "/scientist"), ("Knowledge", "/knowledge"),
    ("CentralApis", "/central-apis"), ("ApiTesterPage", "/api-tester"), ("ApiHub", "/api-hub"),
    ("Fisco", "/fisco"), ("People", "/people"), ("Contabil", "/contabil"), ("SOE", "/soe"),
    ("Financeiro", "/financeiro"), ("Communities", "/communities"), ("QualityModule", "/quality"),
    ("CommercialEnv", "/commercial-env"), ("FieldOperations", "/field-ops"),
    ("TechnicalModule", "/technical"), ("SuppliersPortal", "/suppliers"), ("NPSSurvey", "/nps"),
    ("EngineeringHub", "/engineering"), ("DevelopmentModule", "/development"),
    ("ArcadiaRetail", "/retail"), ("Plus", "/plus"), ("SuperAdmin", "/super-admin"),
    ("Marketplace", "/marketplace"), ("LMS", "/lms"), ("AppCenter", "/apps"), ("XosCentral", "/xos"),
    ("XosCrm", "/xos/crm"), ("XosTickets", "/xos/tickets"), ("XosCampaigns", "/xos/campaigns"),
    ("XosAutomations", "/xos/automations"), ("XosSites", "/xos/sites"),
    ("DocTypeBuilder", "/doctype-builder"), ("PageBuilder", "/page-builder"),
    ("Migration", "/migration"), ("DevCenter", "/dev-center")
  ]

  /** The keywords tried, in order, for a path under `/xos/`. */
  const XosRoutes: RouteTable := [
    ("crm", "/xos/crm"), ("inbox", "/comunicacao"), ("ticket", "/xos/tickets"),
    ("campaign", "/xos/campaigns"), ("automation", "/xos/automations"), ("site", "/xos/sites")
  ]

  /** The route table of `detectRoute`. */
  const PageRoutes: RouteTable := [
    ("BiWorkspace", "/insights"), ("Cockpit", "/"), ("Agent", "/agent"), ("Fisco", "/fisco"),
    ("SOE", "/soe"), ("Financeiro", "/financeiro"), ("People", "/people"),
    ("XosPipeline", "/xos/pipeline"), ("DevCenter", "/dev-center"), ("Admin", "/admin"),
    ("Chat", "/chat"), ("Tickets", "/tickets"), ("CommCenter", "/comm"), ("ApiHub", "/api-hub"),
    ("AppCenter", "/apps"), ("MetabaseProxyPage", "/insights"), ("ProxyPage", "/insights"),
    ("CommercialEnv", "/commercial")
  ]
}
