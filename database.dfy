/** The part of the Postgres database the import command writes: the `plugins`
    and `plugin_files` tables, held in memory, behind a connection with
    beginTransaction / commit / rollBack, `perform` and a slug lookup.
    UUIDv7 identifiers are drawn from a counter. */
module Database {
  import opened Wrappers
  import opened Php

  /** A timestamp as it is written: the text `strtotime` reads (the parse
      itself is not modelled), or a point given by the clock or a file's
      modification time. */
  datatype Time = FromText(text: string) | Clock(at: int)

  /** A row of `plugins`. `currentVersion` is Null for a closed plugin, whose
      INSERT leaves the column out. */
  datatype Plugin = Plugin(
    id: nat,
    name: Value,
    slug: Value,
    currentVersion: Value,
    status: Value,
    updated: Time,
    pulledAt: Time)

  /** A row of `plugin_files`. */
  datatype PluginFile = PluginFile(id: nat, pluginId: nat, fileUrl: Value, kind: string, version: Value)

  datatype Tables = Tables(plugins: seq<Plugin>, files: seq<PluginFile>)

  /** An INSERT statement with its bound parameters. */
  datatype Write = InsertPlugin(plugin: Plugin) | InsertFile(file: PluginFile)

  datatype TxEvent = Begin | Commit | RollBack

  /** The connection as a value: the visible tables, the tables as they were
      when the open transaction began (None when none is open), the next
      identifier, and the transaction calls made so far. */
  datatype Conn = Conn(tables: Tables, snapshot: Option<Tables>, nextId: nat, log: seq<TxEvent>)

  /** The statement succeeds and its row is added. */
  function Insert(t: Tables, w: Write): Tables {
    match w
    case InsertPlugin(p) => t.(plugins := t.plugins + [p])
    case InsertFile(f) => t.(files := t.files + [f])
  }

  function Began(c: Conn): Conn
    requires c.snapshot.None?
  {
    c.(snapshot := Some(c.tables), log := c.log + [Begin])
  }

  function Committed(c: Conn): Conn
    requires c.snapshot.Some?
  {
    c.(snapshot := None, log := c.log + [Commit])
  }

  function RolledBack(c: Conn): Conn
    requires c.snapshot.Some?
  {
    c.(tables := c.snapshot.value, snapshot := None, log := c.log + [RollBack])
  }

  /** A fresh identifier was drawn. Drawing one is not undone by a rollback. */
  function Drawn(c: Conn): Conn {
    c.(nextId := c.nextId + 1)
  }

  function Applied(c: Conn, w: Write): Conn {
    c.(tables := Insert(c.tables, w))
  }

  /** `SELECT id FROM plugins WHERE slug = :slug` finds a row. */
  predicate SlugExists(plugins: seq<Plugin>, slug: string) {
    exists i :: 0 <= i < |plugins| && plugins[i].slug == Str(slug)
  }

  predicate HasPlugin(plugins: seq<Plugin>, id: nat) {
    exists j :: 0 <= j < |plugins| && plugins[j].id == id
  }

  /** What the tables promise: identifiers drawn before `nextId` and never
      reused, every file row pointing at a plugin row, and no two plugin
      rows with the same string slug. */
  predicate ValidTables(t: Tables, nextId: nat) {
    && (forall i :: 0 <= i < |t.plugins| ==> t.plugins[i].id < nextId)
    && (forall i :: 0 <= i < |t.files| ==> t.files[i].id < nextId)
    && (forall i, j :: 0 <= i < j < |t.plugins| ==> t.plugins[i].id != t.plugins[j].id)
    && (forall i, j :: 0 <= i < j < |t.files| ==> t.files[i].id != t.files[j].id)
    && (forall i :: 0 <= i < |t.files| ==> HasPlugin(t.plugins, t.files[i].pluginId))
    && (forall i, j :: 0 <= i < j < |t.plugins| && t.plugins[i].slug.Str? ==> t.plugins[i].slug != t.plugins[j].slug)
  }

  /** Both the visible tables and the ones a rollback would restore are valid. */
  predicate Valid(c: Conn) {
    ValidTables(c.tables, c.nextId) && (c.snapshot.Some? ==> ValidTables(c.snapshot.value, c.nextId))
  }

  lemma ValidTablesMonotone(t: Tables, n: nat, m: nat)
    requires ValidTables(t, n) && n <= m
    ensures ValidTables(t, m)
  {
  }

  /** Adding a plugin row under a fresh identifier and an unused slug keeps
      the tables valid. */
  lemma InsertPluginKeepsValid(t: Tables, p: Plugin)
    requires ValidTables(t, p.id)
    requires p.slug.Str? ==> !SlugExists(t.plugins, p.slug.s)
    ensures ValidTables(Insert(t, InsertPlugin(p)), p.id + 1)
  {
    var ps := Insert(t, InsertPlugin(p)).plugins;
    assert ps[..|t.plugins|] == t.plugins;
    forall i | 0 <= i < |t.files|
      ensures HasPlugin(ps, t.files[i].pluginId)
    {
      var j :| 0 <= j < |t.plugins| && t.plugins[j].id == t.files[i].pluginId;
      assert ps[j] == t.plugins[j];
    }
    forall i, j | 0 <= i < j < |ps| && ps[i].slug.Str?
      ensures ps[i].slug != ps[j].slug
    {
      if j == |t.plugins| {
        assert ps[i] == t.plugins[i];
      }
    }
  }

  /** Adding a file row under a fresh identifier for an existing plugin keeps
      the tables valid. */
  lemma InsertFileKeepsValid(t: Tables, f: PluginFile)
    requires ValidTables(t, f.id)
    requires HasPlugin(t.plugins, f.pluginId)
    ensures ValidTables(Insert(t, InsertFile(f)), f.id + 1)
  {
  }

  /** The database connection, kept in memory. `rejects` says which
      statements the database refuses with a PDOException (a constraint or
      type violation); the store applies every other one. */
  class Connection {
    var tables: Tables
    var snapshot: Option<Tables>
    var nextId: nat
    var log: seq<TxEvent>
    const rejects: Write -> bool

    function State(): Conn
      reads this
    {
      Conn(tables, snapshot, nextId, log)
    }

    predicate InTransaction()
      reads this
    {
      snapshot.Some?
    }

    constructor (initial: Tables, nextId: nat, rejects: Write -> bool)
      ensures State() == Conn(initial, None, nextId, [])
      ensures this.rejects == rejects
    {
      tables := initial;
      snapshot := None;
      this.nextId := nextId;
      log := [];
      this.rejects := rejects;
    }

    /** A transaction cannot be begun inside another one. */
    method BeginTransaction()
      requires !InTransaction()
      modifies this
      ensures State() == Began(old(State()))
    {
      snapshot := Some(tables);
      log := log + [Begin];
    }

    method Commit()
      requires InTransaction()
      modifies this
      ensures State() == Committed(old(State()))
    {
      snapshot := None;
      log := log + [TxEvent.Commit];
    }

    method RollBack()
      requires InTransaction()
      modifies this
      ensures State() == RolledBack(old(State()))
    {
      tables := snapshot.value;
      snapshot := None;
      log := log + [TxEvent.RollBack];
    }

    /** `Uuid::uuid7()`: an identifier no earlier call returned. */
    method NewId() returns (id: nat)
      modifies this
      ensures id == old(nextId)
      ensures State() == Drawn(old(State()))
    {
      id := nextId;
      nextId := nextId + 1;
    }

    /** `perform`: true when the statement runs, false for a PDOException,
        which leaves the tables as they were. */
    method Perform(w: Write) returns (ok: bool)
      modifies this
      ensures ok == !rejects(w)
      ensures State() == if ok then Applied(old(State()), w) else old(State())
    {
      ok := !rejects(w);
      if ok {
        tables := Insert(tables, w);
      }
    }

    /** `fetchOne('SELECT id FROM plugins WHERE slug = :slug')` yields a row. */
    method SlugTaken(slug: string) returns (found: bool)
      ensures found <==> SlugExists(tables.plugins, slug)
    {
      var plugins := tables.plugins;
      found := false;
      var i := 0;
      while i < |plugins| && !found
        invariant 0 <= i <= |plugins|
        invariant found ==> SlugExists(plugins, slug)
        invariant !found ==> forall j :: 0 <= j < i ==> plugins[j].slug != Str(slug)
      {
        found := plugins[i].slug == Str(slug);
        i := i + 1;
      }
    }
  }
}
