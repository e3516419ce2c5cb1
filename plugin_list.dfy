/** PluginListService: choosing the plugins to (re-)import for a sync action,
    and the revision ledger it keeps per action. HTTP, svn and the file cache
    are replaced by the values they would have produced. */
module PluginList {
  import opened Wrappers
  import opened Text
  import opened Php
  import opened SvnLog

  type Slug = string

  /** `array<string, string[]>`: slug to the versions known for it. */
  type PluginMap = map<Slug, seq<string>>

  // ---------------------------------------------------------------------
  // Cached responses and remote calls
  // ---------------------------------------------------------------------

  /** How long a cached response is reused, in seconds. */
  const CacheTtl: int := 86400

  /** `filemtime($f) > time() - 86400`. */
  predicate Fresh(mtime: int, now: int) {
    mtime > now - CacheTtl
  }

  /** A cache file: absent, or present with its modification time. */
  datatype CacheFile<T> = Missing | Cached(mtime: int, contents: T)

  /** `file_exists($f) && filemtime($f) > time() - 86400`. */
  predicate UseCache<T>(cache: CacheFile<T>, now: int) {
    cache.Cached? && Fresh(cache.mtime, now)
  }

  /** What a Guzzle GET produces: a body, a ClientException (a 4xx status,
      which carries the response), or any other exception. */
  datatype HttpResult<T> =
    | Fetched(body: T)
    | ClientError(code: int, message: string, body: T)
    | TransportError(message: string)

  // ---------------------------------------------------------------------
  // The whole listing: `#<li><a href="([^/]+)/">([^/]+)/</a></li>#`
  // ---------------------------------------------------------------------

  const HrefOpen: string := "<li><a href=\""
  const HrefMid: string := "/\">"
  const HrefClose: string := "/</a></li>"

  /** `t` without the literal prefix `lit`, if it starts with it. */
  function Lit(t: string, lit: string): (r: Option<string>)
    ensures r.Some? ==> t == lit + r.value
  {
    if |lit| <= |t| && t[..|lit|] == lit then Some(t[|lit|..]) else None
  }

  lemma LitOf(lit: string, rest: string)
    ensures Lit(lit + rest, lit) == Some(rest)
  {
    assert (lit + rest)[..|lit|] == lit;
    assert (lit + rest)[|lit|..] == rest;
  }

  /** The match of the listing pattern at the start of `t`, if any: the
      first capture and the text after the match. Each `[^/]+` is greedy
      and must be followed by a slash, so giving characters back never
      helps and no other match starts here. */
  function ListingEntry(t: string): (r: Option<(Slug, string)>)
    ensures r.Some? ==> |r.value.1| < |t| && |r.value.0| > 0 && '/' !in r.value.0
  {
    match Lit(t, HrefOpen)
    case None => None
    case Some(afterOpen) =>
      var (name, afterName) := Split(afterOpen, NotSlash);
      if name == [] then None
      else
        match Lit(afterName, HrefMid)
        case None => None
        case Some(afterMid) =>
          var (shown, afterShown) := Split(afterMid, NotSlash);
          if shown == [] then None
          else
            match Lit(afterShown, HrefClose)
            case None => None
            case Some(rest) =>
              assert forall i :: 0 <= i < |name| ==> name[i] != '/';
              Some((name, rest))
  }

  /** `$matches[1]` of `preg_match_all`: the first captures of all
      non-overlapping matches, left to right. */
  function Hrefs(t: string): (r: seq<Slug>)
    ensures forall i :: 0 <= i < |r| ==> |r[i]| > 0 && '/' !in r[i]
    decreases |t|
  {
    if t == [] then []
    else match ListingEntry(t)
      case Some(e) => [e.0] + Hrefs(e.1)
      case None => Hrefs(t[1..])
  }

  /** The list item the svn server writes for a directory, then `tail`. */
  function ListItem(slug: Slug, tail: string): string {
    HrefOpen + (slug + (HrefMid + (slug + (HrefClose + tail))))
  }

  /** The list that the listing page holds: one list item per line, each
      after the same indentation. */
  function ListingHtml(indent: string, slugs: seq<Slug>): string {
    if slugs == [] then "" else indent + ListItem(slugs[0], "\n" + ListingHtml(indent, slugs[1..]))
  }

  predicate IsDirName(slug: Slug) {
    |slug| > 0 && '/' !in slug
  }

  /** A list item matches, capturing its slug, and the scan resumes after it. */
  lemma EntryRecognised(slug: Slug, tail: string)
    requires IsDirName(slug)
    ensures ListingEntry(ListItem(slug, tail)) == Some((slug, tail))
  {
    assert forall i :: 0 <= i < |slug| ==> InClass(slug[i], NotSlash);
    var afterClose := HrefClose + tail;
    var afterMid := slug + afterClose;
    var afterName := HrefMid + afterMid;
    LitOf(HrefOpen, slug + afterName);
    assert afterName[0] == '/';
    SplitOfRun(slug, afterName, NotSlash);
    LitOf(HrefMid, afterMid);
    assert afterClose[0] == '/';
    SplitOfRun(slug, afterClose, NotSlash);
    LitOf(HrefClose, tail);
  }

  /** Text without a `<` (line breaks, indentation) holds no match and is
      skipped. */
  lemma {:induction false} HrefsSkipsPlainText(noise: string, t: string)
    requires '<' !in noise
    ensures Hrefs(noise + t) == Hrefs(t)
    decreases |noise|
  {
    if noise != [] {
      var u := noise + t;
      assert u[0] == noise[0];
      if |u| >= |HrefOpen| {
        assert u[..|HrefOpen|][0] == u[0] != HrefOpen[0];
      }
      assert ListingEntry(u) == None;
      assert u[1..] == noise[1..] + t;
      HrefsSkipsPlainText(noise[1..], t);
    } else {
      assert noise + t == t;
    }
  }

  /** Scanning the list of a listing page gives back exactly the directory
      names on it, in order. */
  lemma {:induction false} HrefsOfListing(indent: string, slugs: seq<Slug>)
    requires '<' !in indent
    requires forall i :: 0 <= i < |slugs| ==> IsDirName(slugs[i])
    ensures Hrefs(ListingHtml(indent, slugs)) == slugs
  {
    if slugs != [] {
      var rest := ListingHtml(indent, slugs[1..]);
      var item := ListItem(slugs[0], "\n" + rest);
      assert ListingHtml(indent, slugs) == indent + item;
      HrefsSkipsPlainText(indent, item);
      EntryRecognised(slugs[0], "\n" + rest);
      assert '<' !in "\n";
      HrefsSkipsPlainText("\n", rest);
      HrefsOfListing(indent, slugs[1..]);
    }
  }

  /** `$pluginsToReturn[$plugin] = []` for every captured slug. */
  function PluginsFromListing(slugs: seq<Slug>): (m: PluginMap)
    ensures forall s :: s in m <==> s in slugs
    ensures forall s :: s in m ==> m[s] == []
  {
    map s | s in slugs :: []
  }

  /** The foreach of pullWholePluginList. */
  method ListingToMap(slugs: seq<Slug>) returns (m: PluginMap)
    ensures m == PluginsFromListing(slugs)
  {
    m := map[];
    for i := 0 to |slugs|
      invariant forall s :: s in m <==> s in slugs[..i]
      invariant forall s :: s in m ==> m[s] == []
    {
      m := m[slugs[i] := []];
    }
    assert slugs[..|slugs|] == slugs;
  }

  /** The listing text: the cached copy when it is fresh, otherwise the
      downloaded page; a ClientException becomes a RuntimeException with the
      source's message, any other exception propagates. */
  function ListingText(cache: CacheFile<string>, now: int, response: HttpResult<string>): Result<string> {
    if UseCache(cache, now) then Ok(cache.contents)
    else match response
      case Fetched(body) => Ok(body)
      case ClientError(_, message, _) => Err("Unable to download plugin list: " + message)
      case TransportError(message) => Err(message)
  }

  /** pullWholePluginList, as a value. */
  function WholePluginList(cache: CacheFile<string>, now: int, response: HttpResult<string>): (r: Result<PluginMap>)
    ensures r.Ok? <==> ListingText(cache, now, response).Ok?
    ensures r.Ok? ==> forall s :: s in r.value <==> s in Hrefs(ListingText(cache, now, response).value)
    ensures r.Ok? ==> forall s :: s in r.value ==> r.value[s] == []
  {
    match ListingText(cache, now, response)
    case Ok(text) => Ok(PluginsFromListing(Hrefs(text)))
    case Err(e) => Err(e)
  }

  /** pullWholePluginList (writing the cache and raw-plugin-list files is not
      modelled). */
  method PullWholePluginList(cache: CacheFile<string>, now: int, response: HttpResult<string>) returns (r: Result<PluginMap>)
    ensures r == WholePluginList(cache, now, response)
  {
    var text := ListingText(cache, now, response);
    if text.Err? {
      return Err(text.message);
    }
    var plugins := ListingToMap(Hrefs(text.value));
    return Ok(plugins);
  }

  // ---------------------------------------------------------------------
  // filter and mergePluginsToUpdate
  // ---------------------------------------------------------------------

  /** An absent (null) or empty filter lets every plugin through. */
  predicate NoFilter(filter: Option<seq<Slug>>) {
    filter.None? || filter.value == []
  }

  /** filter, as a value. */
  function Filtered(plugins: PluginMap, filter: Option<seq<Slug>>): PluginMap {
    if NoFilter(filter) then plugins
    else map k | k in plugins && k in filter.value :: plugins[k]
  }

  /** filter: without a filter the input unchanged; otherwise exactly the
      requested slugs that are present, with their values. */
  method Filter(plugins: PluginMap, filter: Option<seq<Slug>>) returns (r: PluginMap)
    ensures NoFilter(filter) ==> r == plugins
    ensures !NoFilter(filter) ==> forall k :: k in r <==> k in filter.value && k in plugins
    ensures forall k :: k in r ==> k in plugins && r[k] == plugins[k]
    ensures r == Filtered(plugins, filter)
  {
    if NoFilter(filter) {
      return plugins;
    }
    var f := filter.value;
    r := map[];
    for i := 0 to |f|
      invariant forall k :: k in r <==> k in f[..i] && k in plugins
      invariant forall k :: k in r ==> r[k] == plugins[k]
    {
      if f[i] in plugins {
        r := r[f[i] := plugins[f[i]]];
      }
    }
    assert f[..|f|] == f;
  }

  /** The slugs mergePluginsToUpdate sets to `[]`: those of the whole list
      that are new to the baseline or explicitly requested. */
  predicate Selected(k: Slug, all: PluginMap, baseline: PluginMap, requested: seq<Slug>) {
    k in all && (k !in baseline || k in requested)
  }

  /** The merge over the slugs `keys` of the whole list. */
  function MergedOn(toUpdate: PluginMap, keys: set<Slug>, baseline: PluginMap, requested: seq<Slug>): PluginMap {
    toUpdate + map k | k in keys && (k !in baseline || k in requested) :: []
  }

  /** mergePluginsToUpdate, as a value. */
  function Merged(toUpdate: PluginMap, all: PluginMap, baseline: PluginMap, requested: seq<Slug>): PluginMap {
    MergedOn(toUpdate, all.Keys, baseline, requested)
  }

  /** What the merge promises: selected slugs end up mapped to `[]`, nothing
      outside the whole list is added, and every other entry is left as it
      was. */
  lemma MergedSelects(toUpdate: PluginMap, all: PluginMap, baseline: PluginMap, requested: seq<Slug>)
    ensures var r := Merged(toUpdate, all, baseline, requested);
      && (forall k :: k in r <==> k in toUpdate || Selected(k, all, baseline, requested))
      && (forall k :: Selected(k, all, baseline, requested) ==> r[k] == [])
      && (forall k :: k in toUpdate && !Selected(k, all, baseline, requested) ==> k in r && r[k] == toUpdate[k])
  {
  }

  /** One more slug of the whole list visited by the merge loop. */
  lemma MergedOnStep(toUpdate: PluginMap, done: set<Slug>, name: Slug, baseline: PluginMap, requested: seq<Slug>)
    ensures MergedOn(toUpdate, done + {name}, baseline, requested)
         == if name !in baseline || name in requested then MergedOn(toUpdate, done, baseline, requested)[name := []]
            else MergedOn(toUpdate, done, baseline, requested)
  {
  }

  /** mergePluginsToUpdate, with the whole list and the baseline's plugins
      given. */
  method MergePluginsToUpdate(toUpdate: PluginMap, all: PluginMap, baseline: PluginMap, requested: seq<Slug>) returns (r: PluginMap)
    ensures r == Merged(toUpdate, all, baseline, requested)
  {
    r := toUpdate;
    var todo := all.Keys;
    assert MergedOn(toUpdate, {}, baseline, requested) == toUpdate;
    while todo != {}
      invariant todo <= all.Keys
      invariant r == MergedOn(toUpdate, all.Keys - todo, baseline, requested)
      decreases todo
    {
      var name :| name in todo;
      MergedOnStep(toUpdate, all.Keys - todo, name, baseline, requested);
      assert all.Keys - (todo - {name}) == (all.Keys - todo) + {name};
      if name !in baseline {
        r := r[name := []];
      }
      if name in requested {
        r := r[name := []];
      }
      todo := todo - {name};
    }
    assert all.Keys - todo == all.Keys;
  }

  /** The merge rule's worked example: a slug in the baseline and in the
      request ends up a candidate with no versions. */
  lemma ExplicitRequestIsHonoured()
    ensures Merged(map[], map["akismet" := []], map["akismet" := ["5.3"]], ["akismet"]) == map["akismet" := []]
  {
  }

  // ---------------------------------------------------------------------
  // Plugin metadata and its versions
  // ---------------------------------------------------------------------

  /** getPluginMetadata, as a value: the cached copy when it is fresh, else
      the decoded response; a 404's body is used like any other, any other
      ClientException gives an empty array, and other exceptions propagate.
      (Decoding and writing the cache are not modelled.) */
  function PluginMetadata(cache: CacheFile<Fields>, now: int, response: HttpResult<Fields>): (r: Result<Fields>)
    ensures UseCache(cache, now) ==> r == Ok(cache.contents)
    ensures !UseCache(cache, now) && response.Fetched? ==> r == Ok(response.body)
    ensures !UseCache(cache, now) && response.ClientError? && response.code == 404 ==> r == Ok(response.body)
    ensures !UseCache(cache, now) && response.ClientError? && response.code != 404 ==> r == Ok([])
    ensures r.Err? <==> !UseCache(cache, now) && response.TransportError?
  {
    if UseCache(cache, now) then Ok(cache.contents)
    else match response
      case Fetched(data) => Ok(data)
      case ClientError(code, _, body) => Ok(if code == 404 then body else [])
      case TransportError(message) => Err(message)
  }

  /** The cache decision for the listing: a cached copy is used exactly
      when it was written less than a day ago, and then the server's answer
      does not matter; a stale or missing copy does not matter at all. */
  lemma ListingCacheDecides(cache: CacheFile<string>, other: CacheFile<string>, now: int, a: HttpResult<string>, b: HttpResult<string>)
    ensures UseCache(cache, now) <==> cache.Cached? && now < cache.mtime + CacheTtl
    ensures UseCache(cache, now) ==> ListingText(cache, now, a) == ListingText(cache, now, b) == Ok(cache.contents)
    ensures !UseCache(cache, now) && !UseCache(other, now) ==> ListingText(cache, now, a) == ListingText(other, now, a)
  {
  }

  /** The same decision for a plugin's metadata. */
  lemma MetadataCacheDecides(cache: CacheFile<Fields>, other: CacheFile<Fields>, now: int, a: HttpResult<Fields>, b: HttpResult<Fields>)
    ensures UseCache(cache, now) <==> cache.Cached? && now < cache.mtime + CacheTtl
    ensures UseCache(cache, now) ==> PluginMetadata(cache, now, a) == PluginMetadata(cache, now, b) == Ok(cache.contents)
    ensures !UseCache(cache, now) && !UseCache(other, now) ==> PluginMetadata(cache, now, a) == PluginMetadata(other, now, a)
  {
  }

  /** `if (isset($pluginData['trunk'])) unset($pluginData['trunk'])`. */
  function DropTrunk(versions: Fields): (r: Fields)
    ensures !IsSet(r, "trunk")
    ensures forall e :: e in r ==> e in versions
    ensures forall e :: e in versions && e.0 != "trunk" ==> e in r
  {
    if IsSet(versions, "trunk") then RemoveKey(versions, "trunk") else versions
  }

  /** getVersionsForPlugin over the plugin's metadata. `versions` wins over
      the `{version: download_link}` pair, and no `trunk` entry survives.
      None is the TypeError PHP raises when `versions` is set but is not an
      array, or `version` is an array (an illegal array key). */
  function VersionsForPlugin(data: Fields): (r: Option<Fields>)
    ensures r.Some? ==> !IsSet(r.value, "trunk")
    ensures IsSet(data, "versions") && Get(data, "versions").Obj? ==>
      && r.Some?
      && (forall e :: e in r.value ==> e in Get(data, "versions").fields)
      && (forall e :: e in Get(data, "versions").fields && e.0 != "trunk" ==> e in r.value)
    ensures IsSet(data, "versions") && !Get(data, "versions").Obj? ==> r.None?
    ensures !IsSet(data, "versions") && IsSet(data, "version") && ArrayKey(Get(data, "version")).Some? ==>
      var single := (ArrayKey(Get(data, "version")).value, Get(data, "download_link"));
      && r.Some?
      && (forall e :: e in r.value ==> e == single)
      && (single.0 != "trunk" ==> r.value == [single])
    ensures !IsSet(data, "versions") && Get(data, "version").Obj? ==> r.None?
    ensures !IsSet(data, "versions") && !IsSet(data, "version") ==> r == Some([])
  {
    var source: Option<Fields> :=
      if IsSet(data, "versions") then
        match Get(data, "versions")
        case Obj(fs) => Some(fs)
        case _ => None
      else if IsSet(data, "version") then
        match ArrayKey(Get(data, "version"))
        case Some(k) => Some([(k, Get(data, "download_link"))])
        case None => None
      else
        Some([]);
    match source
    case None => None
    case Some(fs) => Some(DropTrunk(fs))
  }

  // ---------------------------------------------------------------------
  // The revision ledger
  // ---------------------------------------------------------------------

  /** A row of the `revisions` table. */
  datatype RevisionRow = RevisionRow(id: int, action: string, revision: int)

  /** `['id' => ..., 'revision' => ...]`, what revisionData holds per action. */
  datatype RevisionEntry = RevisionEntry(id: int, revision: int)

  /** The foreach of loadRevisionData over `rows`, starting from `base`. */
  function Ledger(base: map<string, RevisionEntry>, rows: seq<RevisionRow>): map<string, RevisionEntry>
    decreases |rows|
  {
    if rows == [] then base
    else
      var last := rows[|rows| - 1];
      Ledger(base, rows[..|rows| - 1])[last.action := RevisionEntry(last.id, last.revision)]
  }

  /** The ledger is keyed by action: an action has an entry exactly when it
      had one before or some row names it. */
  lemma {:induction false} LedgerKeys(base: map<string, RevisionEntry>, rows: seq<RevisionRow>, a: string)
    ensures a in Ledger(base, rows) <==> a in base || exists i :: 0 <= i < |rows| && rows[i].action == a
    decreases |rows|
  {
    if rows != [] {
      var prefix := rows[..|rows| - 1];
      LedgerKeys(base, prefix, a);
      if exists i :: 0 <= i < |prefix| && prefix[i].action == a {
        var i :| 0 <= i < |prefix| && prefix[i].action == a;
        assert rows[i].action == a;
      }
      if exists i :: 0 <= i < |rows| && rows[i].action == a {
        var i :| 0 <= i < |rows| && rows[i].action == a;
        if i < |prefix| {
          assert prefix[i].action == a;
        }
      }
    }
  }

  /** The last row for an action wins. */
  lemma {:induction false} LastRowWins(base: map<string, RevisionEntry>, rows: seq<RevisionRow>, i: nat)
    requires i < |rows|
    requires forall j :: i < j < |rows| ==> rows[j].action != rows[i].action
    ensures rows[i].action in Ledger(base, rows)
    ensures Ledger(base, rows)[rows[i].action] == RevisionEntry(rows[i].id, rows[i].revision)
    decreases |rows|
  {
    if i < |rows| - 1 {
      var prefix := rows[..|rows| - 1];
      assert prefix[i] == rows[i];
      LastRowWins(base, prefix, i);
    }
  }

  /** An action no row names keeps its entry. */
  lemma {:induction false} UnnamedActionKept(base: map<string, RevisionEntry>, rows: seq<RevisionRow>, a: string)
    requires forall j :: 0 <= j < |rows| ==> rows[j].action != a
    requires a in base
    ensures a in Ledger(base, rows) && Ledger(base, rows)[a] == base[a]
    decreases |rows|
  {
    if rows != [] {
      UnnamedActionKept(base, rows[..|rows| - 1], a);
    }
  }

  /** The statement preserveRevision performs: the INSERT binds `action` and
      `revision` (its `id` parameter is unset), the UPDATE binds `id` and
      `revision` (its `action` is unset). A revision is null when
      currentRevision has nothing for the action. */
  datatype RevisionWrite =
    | InsertRevision(action: string, revision: Option<int>)
    | UpdateRevision(id: int, revision: Option<int>)

  // ---------------------------------------------------------------------
  // The saved plugin list
  // ---------------------------------------------------------------------

  /** The document preservePluginList writes to plugin-data.json. */
  datatype Snapshot = Snapshot(myRevision: map<string, int>, plugins: PluginMap)

  // ---------------------------------------------------------------------
  // The dispatch of getPluginListForAction
  // ---------------------------------------------------------------------

  /** What the remote side would produce for this run. */
  datatype Remote = Remote(
    now: int,
    listingCache: CacheFile<string>,
    listing: HttpResult<string>,
    svnLog: Result<string>)   // the output of `svn log -v -q ... -r FROM:HEAD`, or its error output

  /** How getPluginListForAction ends. On the diff path the method parses the
      log and then stops the process at `var_dump(...); die;`, so it never
      returns a list: Halted records the query sent and what the loop read. */
  datatype ListOutcome =
    | Listed(plugins: PluginMap)
    | Halted(query: LogQuery, parsed: ParseState)
    | QueryFailed(query: LogQuery, message: string)
    | Failed(message: string)

  /** getPluginsToUpdate up to the `die`. Its fast path compares the array
      currentRevision with the int prevRevision using `===`, which is never
      true, so it is never taken and is left out. */
  function PluginsToUpdate(lastRevision: int, svnLog: Result<string>): (r: ListOutcome)
    ensures r.Halted? || r.QueryFailed?
    ensures r.query == LogQuery(Rev(lastRevision + 1), Head)
    ensures r.Halted? <==> svnLog.Ok?
    ensures svnLog.Ok? ==> r.parsed == Run(Unassigned, Lines(svnLog.value))
  {
    var query := DiffQuery(lastRevision);
    match svnLog
    case Err(e) => QueryFailed(query, "Unable to get list of plugins to update" + e)
    case Ok(out) => Halted(query, Run(Unassigned, Lines(out)))
  }

  /** The TypeError `preg_match` raises for a null subject under strict types. */
  const SubjectIsNull: string := "preg_match(): Argument #2 ($subject) must be of type string, null given"

  class PluginListService {
    /** action to its ledger entry, loaded from the `revisions` table. */
    var revisionData: map<string, RevisionEntry>
    var prevRevision: int
    /** action to the revision observed by the diff; only the statement after
        the `die` assigns it. */
    var currentRevision: map<string, int>
    /** The previously saved snapshot (None for `[]`); only the deprecated
        getPluginList assigns it. */
    var oldPluginData: Option<Snapshot>

    /** The constructor: empty fields, then loadRevisionData over the rows of
        `revisions`. */
    constructor (revisions: seq<RevisionRow>)
      ensures revisionData == Ledger(map[], revisions)
      ensures prevRevision == 0 && currentRevision == map[] && oldPluginData == None
    {
      revisionData := map[];
      prevRevision := 0;
      currentRevision := map[];
      oldPluginData := None;
      new;
      LoadRevisionData(revisions);
    }

    /** loadRevisionData: one entry per row, keyed by action. */
    method LoadRevisionData(revisions: seq<RevisionRow>)
      modifies this`revisionData
      ensures revisionData == Ledger(old(revisionData), revisions)
    {
      for i := 0 to |revisions|
        invariant revisionData == Ledger(old(revisionData), revisions[..i])
      {
        var row := revisions[i];
        revisionData := revisionData[row.action := RevisionEntry(row.id, row.revision)];
        assert revisions[..i + 1][..i] == revisions[..i];
      }
      assert revisions[..|revisions|] == revisions;
    }

    /** getPluginListForAction: an action with a ledger entry takes the diff
        path, querying every revision after its recorded one; any other action
        gets the whole listing, filtered. */
    function PluginListForAction(filter: Option<seq<Slug>>, action: string, env: Remote): (r: ListOutcome)
      reads this
      ensures action in revisionData ==>
        (r.Halted? || r.QueryFailed?) && r.query == LogQuery(Rev(revisionData[action].revision + 1), Head)
      ensures action in revisionData ==> (r.Halted? <==> env.svnLog.Ok?)
      ensures action !in revisionData ==> r.Listed? || r.Failed?
      ensures action !in revisionData ==>
        (r.Listed? <==> ListingText(env.listingCache, env.now, env.listing).Ok?)
      ensures action !in revisionData && r.Failed? ==>
        ListingText(env.listingCache, env.now, env.listing) == Err(r.message)
      ensures action !in revisionData && r.Listed? ==>
        var text := ListingText(env.listingCache, env.now, env.listing);
        && text.Ok?
        && (forall k :: k in r.plugins <==> k in Hrefs(text.value) && (NoFilter(filter) || k in filter.value))
        && (forall k :: k in r.plugins ==> r.plugins[k] == [])
    {
      if action in revisionData then
        PluginsToUpdate(revisionData[action].revision, env.svnLog)
      else
        match WholePluginList(env.listingCache, env.now, env.listing)
        case Ok(all) => Listed(Filtered(all, filter))
        case Err(e) => Failed(e)
    }

    /** identifyCurrentRevision, as a value: the changelog from the fresh
        cache unless forced, else from `svn log -r HEAD`, then the revision
        on its second line. */
    static function CurrentRevision(force: bool, cache: CacheFile<string>, now: int, svnHead: Result<string>): Result<int> {
      var output :=
        if !force && UseCache(cache, now) then Ok(cache.contents)
        else match svnHead
          case Err(e) => Err("Unable to get list of plugins to update" + e)
          case Ok(out) => Ok(out);
      match output
      case Err(e) => Err(e)
      case Ok(out) =>
        match HeadRevision(Lines(out))
        case None => Err(SubjectIsNull)
        case Some(n) => Ok(n)
    }

    /** identifyCurrentRevision: the revision read is returned and kept in
        prevRevision; an error leaves prevRevision alone. */
    method IdentifyCurrentRevision(force: bool, cache: CacheFile<string>, now: int, svnHead: Result<string>) returns (r: Result<int>)
      modifies this`prevRevision
      ensures r == CurrentRevision(force, cache, now, svnHead)
      ensures r.Ok? ==> prevRevision == r.value
      ensures r.Err? ==> prevRevision == old(prevRevision)
    {
      var output: string;
      if !force && UseCache(cache, now) {
        output := cache.contents;
      } else {
        if svnHead.Err? {
          return Err("Unable to get list of plugins to update" + svnHead.message);
        }
        output := svnHead.value;
      }
      var revision := HeadRevision(Lines(output));
      if revision.None? {
        return Err(SubjectIsNull);
      }
      prevRevision := revision.value;
      r := Ok(prevRevision);
    }

    /** preservePluginList, as the document it writes: the new plugins
        merged over the old snapshot's (later keys win, as array_merge does
        for string keys), and the current revisions. */
    function PreservePluginList(plugins: PluginMap): (s: Snapshot)
      reads this
      ensures s.myRevision == currentRevision
      ensures forall k :: k in s.plugins <==> k in plugins || (oldPluginData.Some? && k in oldPluginData.value.plugins)
      ensures forall k :: k in plugins ==> s.plugins[k] == plugins[k]
      ensures oldPluginData.Some? ==>
        forall k :: k in oldPluginData.value.plugins && k !in plugins ==> s.plugins[k] == oldPluginData.value.plugins[k]
    {
      match oldPluginData
      case Some(previous) => Snapshot(currentRevision, previous.plugins + plugins)
      case None => Snapshot(currentRevision, plugins)
    }

    /** `$this->currentRevision[$action]['revision']`, null when unset. */
    function RecordedRevision(action: string): Option<int>
      reads this
    {
      if action in currentRevision then Some(currentRevision[action]) else None
    }

    /** preserveRevision as written: it tests `$data['null']`, a key that is
        never set, so the test `=== null` always holds and the INSERT is
        chosen even when the ledger already has a row for the action. */
    function PreserveRevision(action: string): (w: RevisionWrite)
      reads this
      ensures w.InsertRevision? && w.action == action
      ensures w.revision == RecordedRevision(action)
    {
      InsertRevision(action, RecordedRevision(action))
    }

    /** preserveRevision as intended: update the action's existing row by its
        id, insert only for an action the ledger does not have. */
    function IntendedPreserveRevision(action: string): (w: RevisionWrite)
      reads this
      ensures w.UpdateRevision? <==> action in revisionData
      ensures w.UpdateRevision? ==> w.id == revisionData[action].id
      ensures w.InsertRevision? ==> w.action == action
      ensures w.revision == RecordedRevision(action)
    {
      if action in revisionData then UpdateRevision(revisionData[action].id, RecordedRevision(action))
      else InsertRevision(action, RecordedRevision(action))
    }
  }

  /** The finding: for an action the ledger already holds, the source sends an
      INSERT of the action where an UPDATE of its row by id was meant. */
  lemma PreserveRevisionReinsertsKnownAction(svc: PluginListService, action: string)
    requires action in svc.revisionData
    ensures svc.PreserveRevision(action).InsertRevision?
    ensures svc.PreserveRevision(action).action in svc.revisionData
    ensures svc.IntendedPreserveRevision(action) == UpdateRevision(svc.revisionData[action].id, svc.RecordedRevision(action))
    ensures svc.PreserveRevision(action) != svc.IntendedPreserveRevision(action)
  {
  }

  /** For a fresh action the two agree. */
  lemma PreserveRevisionAgreesOnNewAction(svc: PluginListService, action: string)
    requires action !in svc.revisionData
    ensures svc.PreserveRevision(action) == svc.IntendedPreserveRevision(action)
  {
  }

  /** Cold start: for an action without a ledger entry and a listing page
      that lists `slugs`, the candidates are exactly those slugs that pass
      the filter, each with no versions. */
  lemma ColdPullListsTheCatalog(svc: PluginListService, filter: Option<seq<Slug>>, action: string, env: Remote, indent: string, slugs: seq<Slug>)
    requires action !in svc.revisionData
    requires '<' !in indent
    requires forall i :: 0 <= i < |slugs| ==> IsDirName(slugs[i])
    requires ListingText(env.listingCache, env.now, env.listing) == Ok(ListingHtml(indent, slugs))
    ensures svc.PluginListForAction(filter, action, env).Listed?
    ensures var r := svc.PluginListForAction(filter, action, env).plugins;
      && (forall k :: k in r <==> k in slugs && (NoFilter(filter) || k in filter.value))
      && (forall k :: k in r ==> r[k] == [])
  {
    HrefsOfListing(indent, slugs);
    var all := WholePluginList(env.listingCache, env.now, env.listing);
    assert all.Ok?;
    assert svc.PluginListForAction(filter, action, env) == Listed(Filtered(all.value, filter));
  }

  /** Output with no second line is refused, whatever its text. */
  lemma OneLineOutputIsRefused(cache: CacheFile<string>, now: int, line: string)
    requires '\n' !in line
    ensures PluginListService.CurrentRevision(true, cache, now, Ok(line)) == Err(SubjectIsNull)
  {
    LinesJoin([line]);
  }

  /** Reading the HEAD revision from svn's output text. */
  lemma {:induction false} CurrentRevisionFromSvnOutput(cache: CacheFile<string>, now: int, separator: string, n: nat, rest: string, more: seq<string>)
    requires n <= IntMax
    requires '\n' !in separator && '\n' !in rest
    requires forall i :: 0 <= i < |more| ==> '\n' !in more[i]
    ensures PluginListService.CurrentRevision(true, cache, now, Ok(Join([separator, HeaderLine(n, rest)] + more))) == Ok(n)
  {
    var ls := [separator, HeaderLine(n, rest)] + more;
    var d := Decimal(n);
    assert forall i :: 0 <= i < |d| ==> InClass(d[i], Digit);
    assert '\n' !in d;
    assert '\n' !in HeaderLine(n, rest);
    assert forall i :: 0 <= i < |ls| ==> '\n' !in ls[i];
    LinesJoin(ls);
    HeadRevisionOfSvnOutput(separator, n, rest, more);
  }
}
