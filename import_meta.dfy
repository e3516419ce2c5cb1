/** PluginsImportMetaCommand: importing the saved plugin metadata files into
    the `plugins` and `plugin_files` tables, one transaction per file. */
module ImportMeta {
  import opened Wrappers
  import opened Php
  import opened Database

  /** A file of the raw-data directory: its name, its decoded contents and
      its modification time. */
  datatype RawFile = RawFile(name: string, contents: Fields, mtime: int)

  /** How the loop body ends for one file. Aborted is an uncaught TypeError
      (strict types): it ends the whole command with the transaction open. */
  datatype Outcome =
    | NotJson      // the name has no ".json": no transaction
    | Skipped      // the slug is already in the database: rolled back
    | Rejected     // an error other than "closed": rolled back
    | WroteClosed  // one plugin row, committed
    | WroteOpen    // a plugin row and its file rows, committed
    | Failed       // a statement raised a PDOException: rolled back
    | Aborted

  /** Command::SUCCESS. */
  const Success: int := 0

  /** `strpos($file, '.json') !== false`. */
  predicate HasJson(name: string)
    decreases |name|
  {
    |name| >= 5 && (name[..5] == ".json" || HasJson(name[1..]))
  }

  /** ".json" occurs in `name` at position `i`. */
  predicate JsonAt(name: string, i: int) {
    0 <= i && i + 5 <= |name| && name[i..i + 5] == ".json"
  }

  /** HasJson finds ".json" anywhere in the name. */
  lemma {:induction false} HasJsonFindsSubstring(name: string)
    ensures HasJson(name) <==> exists i :: JsonAt(name, i)
    decreases |name|
  {
    if |name| >= 5 {
      HasJsonFindsSubstring(name[1..]);
      if HasJson(name) {
        if name[..5] == ".json" {
          assert JsonAt(name, 0);
        } else {
          var i :| JsonAt(name[1..], i);
          assert name[i + 1..i + 6] == name[1..][i..i + 5];
          assert JsonAt(name, i + 1);
        }
      }
      if exists i :: JsonAt(name, i) {
        var i :| JsonAt(name, i);
        if i > 0 {
          assert name[1..][i - 1..i + 4] == name[i..i + 5];
          assert JsonAt(name[1..], i - 1);
        }
      }
    }
  }

  /** `$fileContents['slug'] ?? ''` passed to the `string` parameter of
      checkPluginInDatabase: None for any other type (a TypeError). */
  function SlugParam(data: Fields): (s: Option<string>)
    ensures Get(data, "slug").Str? ==> s == Some(Get(data, "slug").s)
    ensures Get(data, "slug") == Null ==> s == Some("")
    ensures s.None? <==> !(Get(data, "slug").Str? || Get(data, "slug") == Null)
  {
    match Get(data, "slug")
    case Null => Some("")
    case Str(s) => Some(s)
    case _ => None
  }

  /** The closed date written: the record's `closed_date` when it is set and
      not empty, else the time of the run; `strtotime` of a non-string is a
      TypeError (None). */
  function ClosedDate(data: Fields, now: int): Option<Time> {
    var v := Get(data, "closed_date");
    if IsSet(data, "closed_date") && !Empty(v) then
      if v.Str? then Some(FromText(v.s)) else None
    else Some(Clock(now))
  }

  /** `strtotime($fileContents['last_updated'])`: a TypeError (None) unless it
      is a string. */
  function UpdatedAt(data: Fields): Option<Time> {
    var v := Get(data, "last_updated");
    if v.Str? then Some(FromText(v.s)) else None
  }

  /** The row of a closed plugin: INSERT without current_version. */
  function ClosedPlugin(id: nat, data: Fields, closed: Time, mtime: int): Plugin {
    Plugin(id, Get(data, "name"), Get(data, "slug"), Null,
      if Get(data, "error") == Str("closed") then Str("closed") else Get(data, "error"),
      closed, Clock(mtime))
  }

  /** The row of an open plugin. */
  function OpenPlugin(id: nat, data: Fields, updated: Time, mtime: int): Plugin {
    Plugin(id, Get(data, "name"), Get(data, "slug"), Get(data, "version"), Str("open"), updated, Clock(mtime))
  }

  /** `foreach ($versions as $version => $url)`: (url, version) pairs in
      order; nothing is dropped, `trunk` included. */
  function VersionPairs(fs: Fields): (r: seq<(Value, Value)>)
    ensures |r| == |fs|
    ensures forall i :: 0 <= i < |fs| ==> r[i] == (fs[i].1, Str(fs[i].0))
  {
    seq(|fs|, i requires 0 <= i < |fs| => (fs[i].1, Str(fs[i].0)))
  }

  /** The (url, version) pairs of the file rows of an open plugin: every
      entry of a non-empty `versions`, else the single `download_link` with
      `version`. */
  function FileTargets(data: Fields): seq<(Value, Value)>
    requires Empty(Get(data, "versions")) || Get(data, "versions").Obj?
  {
    var versions := Get(data, "versions");
    if !Empty(versions) then VersionPairs(versions.fields)
    else [(Get(data, "download_link"), Get(data, "version"))]
  }

  function FileRow(id: nat, pluginId: nat, target: (Value, Value)): PluginFile {
    PluginFile(id, pluginId, target.0, "wp_cdn", target.1)
  }

  /** The rows written for `todo`, with identifiers counted from `first`. */
  function FileRows(first: nat, pluginId: nat, todo: seq<(Value, Value)>): (r: seq<PluginFile>)
    ensures |r| == |todo|
    decreases |todo|
  {
    if todo == [] then [] else [FileRow(first, pluginId, todo[0])] + FileRows(first + 1, pluginId, todo[1..])
  }

  /** Row `i` is the row of target `i`, under identifier `first + i`. */
  lemma {:induction false} FileRowsAt(first: nat, pluginId: nat, todo: seq<(Value, Value)>, i: nat)
    requires i < |todo|
    ensures FileRows(first, pluginId, todo)[i] == FileRow(first + i, pluginId, todo[i])
    decreases |todo|
  {
    if i > 0 {
      FileRowsAt(first + 1, pluginId, todo[1..], i - 1);
    }
  }

  /** The file INSERTs of an open plugin, in order, up to the first one the
      database refuses (false). Only the tables and the identifier counter
      change. */
  function WriteFiles(c: Conn, pluginId: nat, todo: seq<(Value, Value)>, rejects: Write -> bool): (r: (Conn, bool))
    ensures r.0.snapshot == c.snapshot && r.0.log == c.log && r.0.tables.plugins == c.tables.plugins
    ensures c.nextId <= r.0.nextId <= c.nextId + |todo|
    decreases |todo|
  {
    if todo == [] then (c, true)
    else
      var w := InsertFile(FileRow(c.nextId, pluginId, todo[0]));
      var c1 := Drawn(c);
      if rejects(w) then (c1, false) else WriteFiles(Applied(c1, w), pluginId, todo[1..], rejects)
  }

  /** The database accepts the file row of every target of `todo`, under
      the identifiers counted from `first`. */
  predicate AllAccepted(first: nat, pluginId: nat, todo: seq<(Value, Value)>, rejects: Write -> bool) {
    forall i :: 0 <= i < |todo| ==> !rejects(InsertFile(FileRow(first + i, pluginId, todo[i])))
  }

  /** The file INSERTs all succeed exactly when the database accepts each
      row under the identifier drawn for it. */
  lemma {:induction false} WriteFilesSucceeds(c: Conn, pluginId: nat, todo: seq<(Value, Value)>, rejects: Write -> bool)
    ensures WriteFiles(c, pluginId, todo, rejects).1 <==> AllAccepted(c.nextId, pluginId, todo, rejects)
    decreases |todo|
  {
    if todo != [] {
      var w := InsertFile(FileRow(c.nextId, pluginId, todo[0]));
      WriteFilesSucceeds(Applied(Drawn(c), w), pluginId, todo[1..], rejects);
      assert forall i :: 1 <= i < |todo| ==> todo[i] == todo[1..][i - 1];
      assert forall j :: 0 <= j < |todo| - 1 ==> todo[1..][j] == todo[j + 1];
    }
  }

  /** When every INSERT succeeds, exactly the rows of `todo` are added, one
      fresh identifier each. */
  lemma {:induction false} WriteFilesAddsRows(c: Conn, pluginId: nat, todo: seq<(Value, Value)>, rejects: Write -> bool)
    requires WriteFiles(c, pluginId, todo, rejects).1
    ensures var d := WriteFiles(c, pluginId, todo, rejects).0;
      d.tables.files == c.tables.files + FileRows(c.nextId, pluginId, todo) && d.nextId == c.nextId + |todo|
    decreases |todo|
  {
    if todo != [] {
      var w := InsertFile(FileRow(c.nextId, pluginId, todo[0]));
      var c2 := Applied(Drawn(c), w);
      WriteFilesAddsRows(c2, pluginId, todo[1..], rejects);
      assert c.tables.files + FileRows(c.nextId, pluginId, todo)
        == (c.tables.files + [FileRow(c.nextId, pluginId, todo[0])]) + FileRows(c.nextId + 1, pluginId, todo[1..]);
    }
  }

  /** Writing file rows for an existing plugin keeps the connection valid. */
  lemma {:induction false} WriteFilesKeepsValid(c: Conn, pluginId: nat, todo: seq<(Value, Value)>, rejects: Write -> bool)
    requires Valid(c) && HasPlugin(c.tables.plugins, pluginId)
    ensures Valid(WriteFiles(c, pluginId, todo, rejects).0)
    decreases |todo|
  {
    if todo != [] {
      var f := FileRow(c.nextId, pluginId, todo[0]);
      var c1 := Drawn(c);
      InsertFileKeepsValid(c.tables, f);
      ValidTablesMonotone(c.tables, c.nextId, c1.nextId);
      if c.snapshot.Some? {
        ValidTablesMonotone(c.snapshot.value, c.nextId, c1.nextId);
      }
      if !rejects(InsertFile(f)) {
        WriteFilesKeepsValid(Applied(c1, InsertFile(f)), pluginId, todo[1..], rejects);
      }
    }
  }

  /** The closed branch, inside the open transaction `c1`: one INSERT,
      then commit, or rollback on a PDOException. */
  function WriteClosed(c1: Conn, data: Fields, closed: Time, mtime: int, rejects: Write -> bool): (r: (Conn, Outcome))
    requires c1.snapshot.Some?
    ensures r.1 == WroteClosed || r.1 == Failed
    ensures r.0.snapshot.None?
  {
    var w := InsertPlugin(ClosedPlugin(c1.nextId, data, closed, mtime));
    var c2 := Drawn(c1);
    if rejects(w) then (RolledBack(c2), Failed) else (Committed(Applied(c2, w)), WroteClosed)
  }

  /** The open branch, inside the open transaction `c1`: the plugin row, then
      its file rows, then commit; rollback on a PDOException. */
  function WriteOpen(c1: Conn, data: Fields, updated: Time, mtime: int, rejects: Write -> bool): (r: (Conn, Outcome))
    requires c1.snapshot.Some?
    ensures r.1 == WroteOpen || r.1 == Failed || r.1 == Aborted
    ensures r.1 == Aborted <==> r.0.snapshot.Some?
  {
    var pluginId := c1.nextId;
    var w := InsertPlugin(OpenPlugin(pluginId, data, updated, mtime));
    var c2 := Drawn(c1);
    if rejects(w) then (RolledBack(c2), Failed)
    else
      var c3 := Applied(c2, w);
      var versions := Get(data, "versions");
      if !Empty(versions) && !versions.Obj? then (c3, Aborted)   // count() of a non-array
      else
        var written := WriteFiles(c3, pluginId, FileTargets(data), rejects);
        if written.1 then (Committed(written.0), WroteOpen) else (RolledBack(written.0), Failed)
  }

  /** The checks made once the transaction `c1` is open: the slug lookup,
      the error field and the dates, then one of the two branches. */
  function Screened(c1: Conn, data: Fields, now: int, mtime: int, rejects: Write -> bool): (r: (Conn, Outcome))
    requires c1.snapshot.Some?
    ensures r.1 != NotJson
    ensures r.1 == Aborted <==> r.0.snapshot.Some?
  {
    match SlugParam(data)
    case None => (c1, Aborted)
    case Some(slug) =>
      if SlugExists(c1.tables.plugins, slug) then (RolledBack(c1), Skipped)
      else if IsSet(data, "error") then
        if Get(data, "error") != Str("closed") then (RolledBack(c1), Rejected)
        else
          match ClosedDate(data, now)
          case None => (c1, Aborted)
          case Some(closed) => WriteClosed(c1, data, closed, mtime, rejects)
      else
        match UpdatedAt(data)
        case None => (c1, Aborted)
        case Some(updated) => WriteOpen(c1, data, updated, mtime, rejects)
  }

  /** Only the open branch ends in WroteOpen. */
  lemma ScreenedWroteOpen(c1: Conn, data: Fields, now: int, mtime: int, rejects: Write -> bool)
    requires c1.snapshot.Some?
    ensures Screened(c1, data, now, mtime, rejects).1 == WroteOpen ==>
      && SlugParam(data).Some? && !SlugExists(c1.tables.plugins, SlugParam(data).value)
      && !IsSet(data, "error") && UpdatedAt(data).Some?
      && Screened(c1, data, now, mtime, rejects) == WriteOpen(c1, data, UpdatedAt(data).value, mtime, rejects)
  {
  }

  /** What the open branch writes when it commits. */
  lemma WriteOpenWrote(c1: Conn, data: Fields, updated: Time, mtime: int, rejects: Write -> bool)
    requires c1.snapshot.Some? && WriteOpen(c1, data, updated, mtime, rejects).1 == WroteOpen
    ensures var d := WriteOpen(c1, data, updated, mtime, rejects).0;
      && (Empty(Get(data, "versions")) || Get(data, "versions").Obj?)
      && d.tables.plugins == c1.tables.plugins + [OpenPlugin(c1.nextId, data, updated, mtime)]
      && d.tables.files == c1.tables.files + FileRows(c1.nextId + 1, c1.nextId, FileTargets(data))
  {
    var c3 := Applied(Drawn(c1), InsertPlugin(OpenPlugin(c1.nextId, data, updated, mtime)));
    WriteFilesAddsRows(c3, c1.nextId, FileTargets(data), rejects);
  }

  /** The open branch commits exactly when `versions` can be counted and the
      database accepts the plugin row and every file row. */
  lemma WriteOpenSucceeds(c1: Conn, data: Fields, updated: Time, mtime: int, rejects: Write -> bool)
    requires c1.snapshot.Some?
    ensures WriteOpen(c1, data, updated, mtime, rejects).1 == WroteOpen <==>
      && !rejects(InsertPlugin(OpenPlugin(c1.nextId, data, updated, mtime)))
      && (Empty(Get(data, "versions")) || Get(data, "versions").Obj?)
      && AllAccepted(c1.nextId + 1, c1.nextId, FileTargets(data), rejects)
  {
    var c3 := Applied(Drawn(c1), InsertPlugin(OpenPlugin(c1.nextId, data, updated, mtime)));
    if Empty(Get(data, "versions")) || Get(data, "versions").Obj? {
      WriteFilesSucceeds(c3, c1.nextId, FileTargets(data), rejects);
    }
  }

  /** How the closed branch ends the transaction `c1`. */
  lemma WriteClosedEnds(c1: Conn, data: Fields, closed: Time, mtime: int, rejects: Write -> bool)
    requires c1.snapshot == Some(c1.tables)
    ensures var (d, o) := WriteClosed(c1, data, closed, mtime, rejects);
      && (o == WroteClosed ==> d.log == c1.log + [Commit])
      && (o == Failed ==> d.log == c1.log + [RollBack])
      && d.nextId == c1.nextId + 1
      && (d.tables.plugins == c1.tables.plugins || d.tables.plugins == c1.tables.plugins + [ClosedPlugin(c1.nextId, data, closed, mtime)])
  {
  }

  /** How the open branch ends the transaction `c1`, or leaves it open. */
  lemma WriteOpenEnds(c1: Conn, data: Fields, updated: Time, mtime: int, rejects: Write -> bool)
    requires c1.snapshot == Some(c1.tables)
    ensures var (d, o) := WriteOpen(c1, data, updated, mtime, rejects);
      && (o == Aborted ==> d.log == c1.log)
      && (o == WroteOpen ==> d.log == c1.log + [Commit])
      && (o == Failed ==> d.log == c1.log + [RollBack])
      && d.nextId > c1.nextId
      && (d.tables.plugins == c1.tables.plugins || d.tables.plugins == c1.tables.plugins + [OpenPlugin(c1.nextId, data, updated, mtime)])
  {
  }

  /** How the screened part of one iteration ends the transaction `c1`: rows
      are only appended, identifiers only drawn. */
  lemma ScreenedEnds(c1: Conn, data: Fields, now: int, mtime: int, rejects: Write -> bool)
    requires c1.snapshot == Some(c1.tables)
    ensures var (d, o) := Screened(c1, data, now, mtime, rejects);
      && (o == Aborted ==> d.log == c1.log)
      && (o == WroteClosed || o == WroteOpen ==> d.log == c1.log + [Commit])
      && (o == Skipped || o == Rejected || o == Failed ==> d.log == c1.log + [RollBack])
      && d.nextId >= c1.nextId
      && |c1.tables.plugins| <= |d.tables.plugins| && d.tables.plugins[..|c1.tables.plugins|] == c1.tables.plugins
  {
    var ps := c1.tables.plugins;
    assert ps[..|ps|] == ps;
    match SlugParam(data)
    case None =>
    case Some(slug) =>
      if !SlugExists(ps, slug) {
        if IsSet(data, "error") {
          if Get(data, "error") == Str("closed") && ClosedDate(data, now).Some? {
            var closed := ClosedDate(data, now).value;
            WriteClosedEnds(c1, data, closed, mtime, rejects);
            assert (ps + [ClosedPlugin(c1.nextId, data, closed, mtime)])[..|ps|] == ps;
          }
        } else if UpdatedAt(data).Some? {
          var updated := UpdatedAt(data).value;
          WriteOpenEnds(c1, data, updated, mtime, rejects);
          assert (ps + [OpenPlugin(c1.nextId, data, updated, mtime)])[..|ps|] == ps;
        }
      }
  }

  /** One iteration of execute's loop, on the connection's state. */
  function ImportRecord(c: Conn, f: RawFile, now: int, rejects: Write -> bool): (r: (Conn, Outcome))
    requires c.snapshot.None?
    ensures r.1 == Aborted <==> r.0.snapshot.Some?
  {
    if !HasJson(f.name) then (c, NotJson)
    else Screened(Began(c), f.contents, now, f.mtime, rejects)
  }

  /** The transaction calls one file causes: none for a non-JSON name, a
      begin left open by an abort, otherwise a begin closed by a commit
      exactly when something was written. Identifiers are never reused. */
  lemma ImportRecordLog(c: Conn, f: RawFile, now: int, rejects: Write -> bool)
    requires c.snapshot.None?
    ensures var (d, o) := ImportRecord(c, f, now, rejects);
      && (o == NotJson <==> !HasJson(f.name))
      && (o == NotJson ==> d == c)
      && (o == Aborted ==> d.log == c.log + [Begin])
      && (o == WroteClosed || o == WroteOpen ==> d.log == c.log + [Begin, Commit])
      && (o == Skipped || o == Rejected || o == Failed ==> d.log == c.log + [Begin, RollBack])
      && d.nextId >= c.nextId
  {
    if HasJson(f.name) {
      ScreenedEnds(Began(c), f.contents, now, f.mtime, rejects);
      assert c.log + [Begin] + [Commit] == c.log + [Begin, Commit];
      assert c.log + [Begin] + [RollBack] == c.log + [Begin, RollBack];
    }
  }

  /** A file that writes nothing leaves the tables as they were. */
  lemma UnwrittenRecordLeavesTables(c: Conn, f: RawFile, now: int, rejects: Write -> bool)
    requires c.snapshot.None?
    requires ImportRecord(c, f, now, rejects).1 in {NotJson, Skipped, Rejected, Failed}
    ensures ImportRecord(c, f, now, rejects).0.tables == c.tables
  {
  }

  /** A slug already in the database is skipped, whatever else the file says. */
  lemma ExistingSlugIsSkipped(c: Conn, f: RawFile, now: int, rejects: Write -> bool, slug: string)
    requires c.snapshot.None? && HasJson(f.name)
    requires SlugParam(f.contents) == Some(slug) && SlugExists(c.tables.plugins, slug)
    ensures ImportRecord(c, f, now, rejects) == (RolledBack(Began(c)), Skipped)
  {
  }

  /** A record with an error other than "closed" is never written. */
  lemma ForeignErrorIsRejected(c: Conn, f: RawFile, now: int, rejects: Write -> bool)
    requires c.snapshot.None? && HasJson(f.name) && SlugParam(f.contents).Some?
    requires !SlugExists(c.tables.plugins, SlugParam(f.contents).value)
    requires IsSet(f.contents, "error") && Get(f.contents, "error") != Str("closed")
    ensures ImportRecord(c, f, now, rejects).1 == Rejected
    ensures ImportRecord(c, f, now, rejects).0.tables == c.tables
  {
  }

  /** A closed record writes one plugin row, with status "closed", no current
      version and its closed date, and no file rows. */
  lemma ClosedRecordWritesOneRow(c: Conn, f: RawFile, now: int, rejects: Write -> bool)
    requires c.snapshot.None? && ImportRecord(c, f, now, rejects).1 == WroteClosed
    ensures var d := ImportRecord(c, f, now, rejects).0;
      && Get(f.contents, "error") == Str("closed")
      && ClosedDate(f.contents, now).Some?
      && d.tables.plugins == c.tables.plugins + [ClosedPlugin(c.nextId, f.contents, ClosedDate(f.contents, now).value, f.mtime)]
      && d.tables.files == c.tables.files
      && d.tables.plugins[|c.tables.plugins|].status == Str("closed")
      && d.tables.plugins[|c.tables.plugins|].currentVersion == Null
  {
  }

  /** An open record writes its plugin row and one `wp_cdn` file row per
      target, all pointing at the new plugin. */
  lemma OpenRecordWritesPluginAndFiles(c: Conn, f: RawFile, now: int, rejects: Write -> bool)
    requires c.snapshot.None?
    ensures ImportRecord(c, f, now, rejects).1 == WroteOpen ==>
      var d := ImportRecord(c, f, now, rejects).0;
      var data := f.contents;
      && !IsSet(data, "error")
      && UpdatedAt(data).Some?
      && (Empty(Get(data, "versions")) || Get(data, "versions").Obj?)
      && d.tables.plugins == c.tables.plugins + [OpenPlugin(c.nextId, data, UpdatedAt(data).value, f.mtime)]
      && d.tables.files == c.tables.files + FileRows(c.nextId + 1, c.nextId, FileTargets(data))
  {
    var data := f.contents;
    var c1 := Began(c);
    var r := ImportRecord(c, f, now, rejects);
    if r.1 == WroteOpen {
      assert HasJson(f.name);
      assert r == Screened(c1, data, now, f.mtime, rejects);
      ScreenedWroteOpen(c1, data, now, f.mtime, rejects);
      var updated := UpdatedAt(data).value;
      assert r == WriteOpen(c1, data, updated, f.mtime, rejects);
      WriteOpenWrote(c1, data, updated, f.mtime, rejects);
      assert c1.tables == c.tables && c1.nextId == c.nextId;
    }
  }

  /** Which records become a closed plugin row: a JSON file whose slug is a
      string or null and not yet stored, with `error` "closed", a readable
      closed date, and a plugin row the database accepts. */
  lemma ClosedRecordIsWritten(c: Conn, f: RawFile, now: int, rejects: Write -> bool)
    requires c.snapshot.None?
    ensures ImportRecord(c, f, now, rejects).1 == WroteClosed <==>
      && HasJson(f.name)
      && SlugParam(f.contents).Some? && !SlugExists(c.tables.plugins, SlugParam(f.contents).value)
      && Get(f.contents, "error") == Str("closed")
      && ClosedDate(f.contents, now).Some?
      && !rejects(InsertPlugin(ClosedPlugin(c.nextId, f.contents, ClosedDate(f.contents, now).value, f.mtime)))
  {
  }

  /** Which records become an open plugin with its files: a JSON file whose
      slug is a string or null and not yet stored, without `error`, with a
      string `last_updated`, a `versions` that is empty or an array, and
      every row accepted by the database. */
  lemma OpenRecordIsWritten(c: Conn, f: RawFile, now: int, rejects: Write -> bool)
    requires c.snapshot.None?
    ensures ImportRecord(c, f, now, rejects).1 == WroteOpen <==>
      && HasJson(f.name)
      && SlugParam(f.contents).Some? && !SlugExists(c.tables.plugins, SlugParam(f.contents).value)
      && !IsSet(f.contents, "error")
      && UpdatedAt(f.contents).Some?
      && !rejects(InsertPlugin(OpenPlugin(c.nextId, f.contents, UpdatedAt(f.contents).value, f.mtime)))
      && (Empty(Get(f.contents, "versions")) || Get(f.contents, "versions").Obj?)
      && AllAccepted(c.nextId + 1, c.nextId, FileTargets(f.contents), rejects)
  {
    var data := f.contents;
    var c1 := Began(c);
    if HasJson(f.name) {
      assert ImportRecord(c, f, now, rejects) == Screened(c1, data, now, f.mtime, rejects);
      ScreenedWroteOpen(c1, data, now, f.mtime, rejects);
      if SlugParam(data).Some? && !SlugExists(c.tables.plugins, SlugParam(data).value) && !IsSet(data, "error") && UpdatedAt(data).Some? {
        var updated := UpdatedAt(data).value;
        assert Screened(c1, data, now, f.mtime, rejects) == WriteOpen(c1, data, updated, f.mtime, rejects);
        WriteOpenSucceeds(c1, data, updated, f.mtime, rejects);
      }
    }
  }

  /** Without `versions`, an open record writes exactly one file row: the
      download link under the record's version. */
  lemma SingleVersionWritesOneFile(c: Conn, f: RawFile, now: int, rejects: Write -> bool)
    requires c.snapshot.None? && ImportRecord(c, f, now, rejects).1 == WroteOpen
    requires Empty(Get(f.contents, "versions"))
    ensures ImportRecord(c, f, now, rejects).0.tables.files
      == c.tables.files + [PluginFile(c.nextId + 1, c.nextId, Get(f.contents, "download_link"), "wp_cdn", Get(f.contents, "version"))]
  {
    OpenRecordWritesPluginAndFiles(c, f, now, rejects);
  }

  /** The import keeps every entry of `versions`: a `trunk` entry becomes a
      file row like any tagged version. */
  lemma TrunkVersionIsImported(c: Conn, f: RawFile, now: int, rejects: Write -> bool, k: nat)
    requires c.snapshot.None?
    requires Get(f.contents, "versions").Obj?
    requires k < |Get(f.contents, "versions").fields| && Get(f.contents, "versions").fields[k].0 == "trunk"
    ensures ImportRecord(c, f, now, rejects).1 == WroteOpen ==>
      PluginFile(c.nextId + 1 + k, c.nextId, Get(f.contents, "versions").fields[k].1, "wp_cdn", Str("trunk"))
        in ImportRecord(c, f, now, rejects).0.tables.files
  {
    if ImportRecord(c, f, now, rejects).1 == WroteOpen {
      OpenRecordWritesPluginAndFiles(c, f, now, rejects);
      var fs := Get(f.contents, "versions").fields;
      assert !Empty(Get(f.contents, "versions"));
      var rows := FileRows(c.nextId + 1, c.nextId, FileTargets(f.contents));
      FileRowsAt(c.nextId + 1, c.nextId, FileTargets(f.contents), k);
      assert rows[k] == FileRow(c.nextId + 1 + k, c.nextId, (fs[k].1, Str(fs[k].0)));
      assert ImportRecord(c, f, now, rejects).0.tables.files[|c.tables.files| + k] == rows[k];
    }
  }

  /** Inside a fresh transaction, a plugin row under the drawn identifier and
      an unused slug keeps the connection valid, whichever way the
      transaction ends. */
  lemma PluginInsertKeepsValid(c1: Conn, p: Plugin)
    requires c1.snapshot == Some(c1.tables) && Valid(c1) && p.id == c1.nextId
    requires p.slug.Str? ==> !SlugExists(c1.tables.plugins, p.slug.s)
    ensures var c3 := Applied(Drawn(c1), InsertPlugin(p));
      Valid(c3) && HasPlugin(c3.tables.plugins, p.id) && Valid(RolledBack(Drawn(c1)))
  {
    InsertPluginKeepsValid(c1.tables, p);
    ValidTablesMonotone(c1.tables, c1.nextId, c1.nextId + 1);
    var c3 := Applied(Drawn(c1), InsertPlugin(p));
    assert c3.tables.plugins[|c1.tables.plugins|] == p;
  }

  lemma WriteClosedKeepsValid(c1: Conn, data: Fields, closed: Time, mtime: int, rejects: Write -> bool)
    requires c1.snapshot == Some(c1.tables) && Valid(c1)
    requires Get(data, "slug").Str? ==> !SlugExists(c1.tables.plugins, Get(data, "slug").s)
    ensures Valid(WriteClosed(c1, data, closed, mtime, rejects).0)
  {
    PluginInsertKeepsValid(c1, ClosedPlugin(c1.nextId, data, closed, mtime));
  }

  lemma WriteOpenKeepsValid(c1: Conn, data: Fields, updated: Time, mtime: int, rejects: Write -> bool)
    requires c1.snapshot == Some(c1.tables) && Valid(c1)
    requires Get(data, "slug").Str? ==> !SlugExists(c1.tables.plugins, Get(data, "slug").s)
    ensures Valid(WriteOpen(c1, data, updated, mtime, rejects).0)
  {
    var p := OpenPlugin(c1.nextId, data, updated, mtime);
    PluginInsertKeepsValid(c1, p);
    var c3 := Applied(Drawn(c1), InsertPlugin(p));
    if Empty(Get(data, "versions")) || Get(data, "versions").Obj? {
      WriteFilesKeepsValid(c3, p.id, FileTargets(data), rejects);
      var d := WriteFiles(c3, p.id, FileTargets(data), rejects).0;
      ValidTablesMonotone(c1.tables, c1.nextId, d.nextId);
    }
  }

  /** Each file keeps the connection valid: fresh identifiers, file rows that
      point at plugin rows, unique string slugs. */
  lemma ImportRecordKeepsValid(c: Conn, f: RawFile, now: int, rejects: Write -> bool)
    requires c.snapshot.None? && Valid(c)
    ensures Valid(ImportRecord(c, f, now, rejects).0)
  {
    var data := f.contents;
    if HasJson(f.name) && SlugParam(data).Some? && !SlugExists(c.tables.plugins, SlugParam(data).value) {
      var c1 := Began(c);
      if IsSet(data, "error") {
        if Get(data, "error") == Str("closed") && ClosedDate(data, now).Some? {
          WriteClosedKeepsValid(c1, data, ClosedDate(data, now).value, f.mtime, rejects);
        }
      } else if UpdatedAt(data).Some? {
        WriteOpenKeepsValid(c1, data, UpdatedAt(data).value, f.mtime, rejects);
      }
    }
  }

  /** Plugin rows are only ever appended. */
  lemma PluginRowsOnlyGrow(c: Conn, f: RawFile, now: int, rejects: Write -> bool)
    requires c.snapshot.None?
    ensures var d := ImportRecord(c, f, now, rejects).0;
      |c.tables.plugins| <= |d.tables.plugins| && d.tables.plugins[..|c.tables.plugins|] == c.tables.plugins
  {
    if HasJson(f.name) {
      ScreenedEnds(Began(c), f.contents, now, f.mtime, rejects);
    } else {
      assert c.tables.plugins[..|c.tables.plugins|] == c.tables.plugins;
    }
  }

  /** Once a record is written, any later file with the same slug is skipped:
      importing the same data again writes nothing. */
  lemma ReimportIsSkipped(c: Conn, f: RawFile, g: RawFile, now: int, later: int, rejects: Write -> bool, slug: string)
    requires c.snapshot.None?
    requires ImportRecord(c, f, now, rejects).1 in {WroteClosed, WroteOpen}
    requires Get(f.contents, "slug") == Str(slug)
    requires HasJson(g.name) && SlugParam(g.contents) == Some(slug)
    ensures ImportRecord(ImportRecord(c, f, now, rejects).0, g, later, rejects).1 == Skipped
  {
    var d := ImportRecord(c, f, now, rejects).0;
    var n := |c.tables.plugins|;
    if ImportRecord(c, f, now, rejects).1 == WroteClosed {
      ClosedRecordWritesOneRow(c, f, now, rejects);
    } else {
      OpenRecordWritesPluginAndFiles(c, f, now, rejects);
    }
    assert d.tables.plugins[n].slug == Str(slug);
  }

  /** A slug in the database stays there for the rest of the run, so a second
      run over the same files skips every record the first one wrote. */
  lemma {:induction false} ImportAllKeepsSlugs(c: Conn, files: seq<RawFile>, now: int, rejects: Write -> bool, slug: string)
    requires c.snapshot.None? && SlugExists(c.tables.plugins, slug)
    ensures SlugExists(ImportAll(c, files, now, rejects).0.tables.plugins, slug)
    decreases |files|
  {
    if files != [] {
      var (c1, o) := ImportRecord(c, files[0], now, rejects);
      PluginRowsOnlyGrow(c, files[0], now, rejects);
      var i :| 0 <= i < |c.tables.plugins| && c.tables.plugins[i].slug == Str(slug);
      assert c1.tables.plugins[i] == c.tables.plugins[i];
      if o != Aborted {
        ImportAllKeepsSlugs(c1, files[1..], now, rejects, slug);
      }
    }
  }

  /** The number of names the loop treats as JSON files. */
  function JsonCount(files: seq<RawFile>): nat {
    if files == [] then 0 else (if HasJson(files[0].name) then 1 else 0) + JsonCount(files[1..])
  }

  /** The loop over the directory listing, from `c`: true when a TypeError
      ended it. */
  function ImportAll(c: Conn, files: seq<RawFile>, now: int, rejects: Write -> bool): (r: (Conn, bool))
    requires c.snapshot.None?
    ensures r.1 <==> r.0.snapshot.Some?
    decreases |files|
  {
    if files == [] then (c, false)
    else
      var (c1, o) := ImportRecord(c, files[0], now, rejects);
      if o == Aborted then (c1, true) else ImportAll(c1, files[1..], now, rejects)
  }

  /** A sequence of transactions each opened by a begin and closed by a
      commit or a rollback. */
  predicate Bracketed(events: seq<TxEvent>)
    decreases |events|
  {
    events == [] || (|events| >= 2 && events[0] == Begin && events[1] != Begin && Bracketed(events[2..]))
  }

  lemma {:induction false} BracketedConcat(a: seq<TxEvent>, b: seq<TxEvent>)
    requires Bracketed(a) && Bracketed(b)
    ensures Bracketed(a + b)
    decreases |a|
  {
    if a != [] {
      BracketedConcat(a[2..], b);
      assert (a + b)[2..] == a[2..] + b;
    } else {
      assert a + b == b;
    }
  }

  /** The calls one file that does not abort adds to the log: a begin
      closed by a commit or a rollback for a JSON name, nothing otherwise. */
  lemma RecordIsBracketed(c: Conn, f: RawFile, now: int, rejects: Write -> bool)
    requires c.snapshot.None?
    requires ImportRecord(c, f, now, rejects).1 != Aborted
    ensures var d := ImportRecord(c, f, now, rejects).0;
      && |c.log| <= |d.log| && d.log[..|c.log|] == c.log
      && Bracketed(d.log[|c.log|..])
      && |d.log| == |c.log| + (if HasJson(f.name) then 2 else 0)
  {
    ImportRecordLog(c, f, now, rejects);
    var d := ImportRecord(c, f, now, rejects).0;
    var own := d.log[|c.log|..];
    if HasJson(f.name) {
      assert own[2..] == [];
    } else {
      assert own == [];
    }
  }

  /** A run that is not ended by a TypeError opens exactly one transaction
      per JSON file and closes each before the next begins. */
  lemma {:induction false} ImportAllBracketsTransactions(c: Conn, files: seq<RawFile>, now: int, rejects: Write -> bool)
    requires c.snapshot.None?
    requires !ImportAll(c, files, now, rejects).1
    ensures var d := ImportAll(c, files, now, rejects).0;
      && |c.log| <= |d.log| && d.log[..|c.log|] == c.log
      && Bracketed(d.log[|c.log|..])
      && |d.log| == |c.log| + 2 * JsonCount(files)
    decreases |files|
  {
    if files != [] {
      var r := ImportRecord(c, files[0], now, rejects);
      var c1 := r.0;
      assert r.1 != Aborted;
      RecordIsBracketed(c, files[0], now, rejects);
      assert ImportAll(c, files, now, rejects) == ImportAll(c1, files[1..], now, rejects);
      ImportAllBracketsTransactions(c1, files[1..], now, rejects);
      var d := ImportAll(c1, files[1..], now, rejects).0;
      var own := c1.log[|c.log|..];
      var rest := d.log[|c1.log|..];
      assert d.log[|c.log|..] == own + rest;
      BracketedConcat(own, rest);
    } else {
      assert c.log[|c.log|..] == [];
    }
  }

  /** The whole run keeps the connection valid. */
  lemma {:induction false} ImportAllKeepsValid(c: Conn, files: seq<RawFile>, now: int, rejects: Write -> bool)
    requires c.snapshot.None? && Valid(c)
    ensures Valid(ImportAll(c, files, now, rejects).0)
    decreases |files|
  {
    if files != [] {
      ImportRecordKeepsValid(c, files[0], now, rejects);
      var (c1, o) := ImportRecord(c, files[0], now, rejects);
      if o != Aborted {
        ImportAllKeepsValid(c1, files[1..], now, rejects);
      }
    }
  }

  class PluginsImportMetaCommand {
    const pdo: Connection

    constructor (pdo: Connection)
      ensures this.pdo == pdo
    {
      this.pdo := pdo;
    }

    /** checkPluginInDatabase: whether a plugin row has this slug. */
    method CheckPluginInDatabase(slug: string) returns (found: bool)
      ensures found <==> SlugExists(pdo.tables.plugins, slug)
    {
      found := pdo.SlugTaken(slug);
    }

    /** The file rows of an open plugin: the foreach over `versions`, or the
        single INSERT of the download link. */
    method WriteFileRows(pluginId: nat, todo: seq<(Value, Value)>) returns (ok: bool)
      modifies pdo
      ensures (pdo.State(), ok) == WriteFiles(old(pdo.State()), pluginId, todo, pdo.rejects)
    {
      ok := true;
      var i := 0;
      while i < |todo| && ok
        invariant 0 <= i <= |todo|
        invariant ok ==> WriteFiles(pdo.State(), pluginId, todo[i..], pdo.rejects) == WriteFiles(old(pdo.State()), pluginId, todo, pdo.rejects)
        invariant !ok ==> (pdo.State(), false) == WriteFiles(old(pdo.State()), pluginId, todo, pdo.rejects)
      {
        assert todo[i..][0] == todo[i] && todo[i..][1..] == todo[i + 1..];
        var id := pdo.NewId();
        ok := pdo.Perform(InsertFile(FileRow(id, pluginId, todo[i])));
        i := i + 1;
      }
    }

    /** The body of execute's loop for one file. */
    method ImportFile(f: RawFile, now: int) returns (outcome: Outcome)
      requires !pdo.InTransaction()
      modifies pdo
      ensures (pdo.State(), outcome) == ImportRecord(old(pdo.State()), f, now, pdo.rejects)
    {
      if !HasJson(f.name) {
        return NotJson;
      }
      pdo.BeginTransaction();
      var data := f.contents;
      var slug := SlugParam(data);
      if slug.None? {
        return Aborted;
      }
      var found := CheckPluginInDatabase(slug.value);
      if found {
        pdo.RollBack();
        return Skipped;
      }
      if IsSet(data, "error") {
        if Get(data, "error") != Str("closed") {
          pdo.RollBack();
          return Rejected;
        }
        var closed := ClosedDate(data, now);
        if closed.None? {
          return Aborted;
        }
        var id := pdo.NewId();
        var ok := pdo.Perform(InsertPlugin(ClosedPlugin(id, data, closed.value, f.mtime)));
        if !ok {
          pdo.RollBack();
          return Failed;
        }
        outcome := WroteClosed;
      } else {
        var updated := UpdatedAt(data);
        if updated.None? {
          return Aborted;
        }
        var id := pdo.NewId();
        var ok := pdo.Perform(InsertPlugin(OpenPlugin(id, data, updated.value, f.mtime)));
        if !ok {
          pdo.RollBack();
          return Failed;
        }
        var versions := Get(data, "versions");
        if !Empty(versions) && !versions.Obj? {
          return Aborted;
        }
        ok := WriteFileRows(id, FileTargets(data));
        if !ok {
          pdo.RollBack();
          return Failed;
        }
        outcome := WroteOpen;
      }
      pdo.Commit();
    }

    /** execute over the directory listing `files` (in scandir order): every
        file imported in turn, then SUCCESS; None when a TypeError escapes. */
    method Execute(files: seq<RawFile>, now: int) returns (status: Option<int>)
      requires !pdo.InTransaction()
      modifies pdo
      ensures (pdo.State(), status.None?) == ImportAll(old(pdo.State()), files, now, pdo.rejects)
      ensures status.Some? ==> status.value == Success
    {
      var i := 0;
      while i < |files|
        invariant 0 <= i <= |files|
        invariant !pdo.InTransaction()
        invariant ImportAll(pdo.State(), files[i..], now, pdo.rejects) == ImportAll(old(pdo.State()), files, now, pdo.rejects)
      {
        assert files[i..][0] == files[i] && files[i..][1..] == files[i + 1..];
        var outcome := ImportFile(files[i], now);
        if outcome == Aborted {
          return None;
        }
        i := i + 1;
      }
      return Some(Success);
    }
  }
}
