/** PodcastBackend (src/podcasts/podcastbackend.cpp): subscribes to podcasts by
    storing them and their episodes in the `podcasts` and `podcast_episodes`
    tables, and reads subscriptions back. Every statement can fail; the
    failures are given as parameters. */
module PodcastBackends {

  import opened QtTypes
  import opened Sql
  import opened SqlStore
  import PodcastEpisodes
  import Podcasts

  type EpisodeRecord = PodcastEpisodes.EpisodeRecord
  type PodcastRecord = Podcasts.PodcastRecord

  const PodcastTable := "podcasts"
  const EpisodeTable := "podcast_episodes"

  /** Where the url is stored in a podcast row (after the ROWID it is column 1
      of the result row, before it column 0 of the stored values). */
  const UrlColumn: nat := 0

  /** The INSERT statements, with the value list parenthesised. */
  const PodcastInsertSql := InsertSql(PodcastTable, Podcasts.ColumnSpec, Podcasts.BindSpec)
  const EpisodeInsertSql := InsertSql(EpisodeTable, PodcastEpisodes.ColumnSpec, PodcastEpisodes.BindSpec)

  /** The INSERT statements as the source concatenates them: `VALUES ` is
      followed directly by the bind spec, with no parentheses. */
  const PodcastInsertSqlAsWritten := InsertSqlUnparenthesized(PodcastTable, Podcasts.ColumnSpec, Podcasts.BindSpec)
  const EpisodeInsertSqlAsWritten := InsertSqlUnparenthesized(EpisodeTable, PodcastEpisodes.ColumnSpec, PodcastEpisodes.BindSpec)

  /** What the two statements insert: each table's columns, in order, one placeholder each. */
  const PodcastPlan := InsertPlan(PodcastTable, Podcasts.Columns, Podcasts.Placeholders)
  const EpisodePlan := InsertPlan(EpisodeTable, PodcastEpisodes.Columns, PodcastEpisodes.Placeholders)

  /** The two tables exist, with the columns the records list, and are valid. */
  ghost predicate Schema(tables: map<string, Table>)
  {
    && TablesValid(tables)
    && PodcastTable in tables && tables[PodcastTable].columns == Podcasts.Columns
    && EpisodeTable in tables && tables[EpisodeTable].columns == PodcastEpisodes.Columns
  }

  /** The parenthesised podcast statement inserts into `podcasts`, naming its
      columns in order with one placeholder each. */
  lemma PodcastInsertParses()
    ensures ParseInsert(PodcastInsertSql) == Some(PodcastPlan)
  {
    Podcasts.SpecsAreDelimited();
    ParseInsertSql(PodcastTable, Podcasts.Columns, Podcasts.Placeholders);
  }

  /** The parenthesised episode statement inserts into `podcast_episodes`,
      naming its columns in order with one placeholder each. */
  lemma EpisodeInsertParses()
    ensures ParseInsert(EpisodeInsertSql) == Some(EpisodePlan)
  {
    PodcastEpisodes.SpecsAreDelimited();
    ParseInsertSql(EpisodeTable, PodcastEpisodes.Columns, PodcastEpisodes.Placeholders);
  }

  /** The podcast statement as written is refused by SQLite's grammar, so
      every podcast insert fails whatever the tables hold. */
  lemma PodcastInsertAsWrittenRejected(tables: map<string, Table>)
    ensures ParseInsert(PodcastInsertSqlAsWritten) == None
    ensures !Accepts(tables, PodcastInsertSqlAsWritten)
  {
    Podcasts.SpecsAreDelimited();
    ParseRejectsUnparenthesized(PodcastTable, Podcasts.Columns, Podcasts.BindSpec);
  }

  /** Likewise every episode insert as written fails. */
  lemma EpisodeInsertAsWrittenRejected(tables: map<string, Table>)
    ensures ParseInsert(EpisodeInsertSqlAsWritten) == None
    ensures !Accepts(tables, EpisodeInsertSqlAsWritten)
  {
    PodcastEpisodes.SpecsAreDelimited();
    ParseRejectsUnparenthesized(EpisodeTable, PodcastEpisodes.Columns, PodcastEpisodes.BindSpec);
  }

  // ---------------------------------------------------------------- lookups

  /** The first row with the given ROWID, or |rows| when there is none. */
  function FindRowId(rows: seq<StoredRow>, id: int): (k: nat)
    ensures k <= |rows|
    ensures forall j :: 0 <= j < k ==> rows[j].rowid != id
    ensures k < |rows| ==> rows[k].rowid == id
  {
    if rows == [] then 0
    else if rows[0].rowid == id then 0
    else 1 + FindRowId(rows[1..], id)
  }

  /** The first row whose value in the given column equals v, or |rows|. */
  function FindValue(rows: seq<StoredRow>, column: nat, v: Value): (k: nat)
    ensures k <= |rows|
    ensures forall j :: 0 <= j < k ==> ValueAt(rows[j].values, column) != v
    ensures k < |rows| ==> ValueAt(rows[k].values, column) == v
  {
    if rows == [] then 0
    else if ValueAt(rows[0].values, column) == v then 0
    else 1 + FindValue(rows[1..], column, v)
  }

  /** A podcast read from a row into a default-constructed Podcast. */
  function RowPodcast(r: StoredRow, c: Codecs): PodcastRecord
  {
    Podcasts.FromRow(Podcasts.Default, ResultRow(r), c)
  }

  /** The first row at index k, read as a podcast, or the default podcast when
      k is past the end. */
  function PodcastAt(rows: seq<StoredRow>, k: nat, c: Codecs): PodcastRecord
  {
    if k < |rows| then RowPodcast(rows[k], c) else Podcasts.Default
  }

  /** GetSubscriptionById on the podcasts table. */
  function SubscriptionById(t: Table, id: int, c: Codecs, fault: bool): PodcastRecord
  {
    if fault then Podcasts.Default else PodcastAt(t.rows, FindRowId(t.rows, id), c)
  }

  /** GetSubscriptionByUrl on the podcasts table: the url is compared in its encoded form. */
  function SubscriptionByUrl(t: Table, url: Url, c: Codecs, fault: bool): PodcastRecord
  {
    if fault then Podcasts.Default
    else PodcastAt(t.rows, FindValue(t.rows, UrlColumn, Blob(c.urlToEncoded(url))), c)
  }

  /** GetAllSubscriptions on the podcasts table. */
  function AllSubscriptions(t: Table, c: Codecs, fault: bool): seq<PodcastRecord>
  {
    if fault then [] else seq(|t.rows|, i requires 0 <= i < |t.rows| => RowPodcast(t.rows[i], c))
  }

  /** A lookup returns a stored podcast, which is valid and has no episodes,
      exactly when the query succeeds and some row matches; otherwise the
      default podcast, whose database id is -1. */
  lemma LookupsFindStoredRows(t: Table, id: int, url: Url, c: Codecs, fault: bool)
    requires TableValid(t)
    ensures var r := SubscriptionById(t, id, c, fault);
      && r.episodes == []
      && (Podcasts.IsValid(r) <==> !fault && exists j :: 0 <= j < |t.rows| && t.rows[j].rowid == id)
      && (Podcasts.IsValid(r) ==> r.databaseId == id)
      && (!Podcasts.IsValid(r) ==> r == Podcasts.Default)
    ensures var r := SubscriptionByUrl(t, url, c, fault);
      && r.episodes == []
      && (Podcasts.IsValid(r) <==>
            !fault && exists j :: 0 <= j < |t.rows| && ValueAt(t.rows[j].values, UrlColumn) == Blob(c.urlToEncoded(url)))
      && (!Podcasts.IsValid(r) ==> r == Podcasts.Default)
  {
    var k := FindRowId(t.rows, id);
    if !fault && k < |t.rows| {
      assert t.rows[k].rowid >= 1;
    }
    var m := FindValue(t.rows, UrlColumn, Blob(c.urlToEncoded(url)));
    if !fault && m < |t.rows| {
      assert t.rows[m].rowid >= 1;
    }
  }

  /** In a valid table ROWIDs are distinct, so looking up the ROWID of row i finds row i. */
  lemma FindRowIdOfRow(rows: seq<StoredRow>, i: nat)
    requires i < |rows|
    requires forall a, b :: 0 <= a < b < |rows| ==> rows[a].rowid < rows[b].rowid
    ensures FindRowId(rows, rows[i].rowid) == i
  {
    assert forall a :: 0 <= a < i ==> rows[a].rowid < rows[i].rowid;
  }

  /** Every podcast GetAllSubscriptions lists is the one GetSubscriptionById
      returns for its ROWID: one per stored row, in table order. */
  lemma AllSubscriptionsAreFoundById(t: Table, c: Codecs)
    requires TableValid(t)
    ensures |AllSubscriptions(t, c, false)| == |t.rows|
    ensures forall i :: 0 <= i < |t.rows| ==>
      AllSubscriptions(t, c, false)[i] == SubscriptionById(t, t.rows[i].rowid, c, false)
  {
    forall i | 0 <= i < |t.rows|
      ensures AllSubscriptions(t, c, false)[i] == SubscriptionById(t, t.rows[i].rowid, c, false)
    {
      FindRowIdOfRow(t.rows, i);
    }
  }

  // ------------------------------------------------------------- subscribing

  /** The failures Subscribe meets: the url lookup, the podcast insert, and
      the inserts of the episodes at the given positions. `kept` is what the
      end of the ScopedTransaction's scope does with the inserts made in it:
      keeps them, or rolls them back (Subscribe never commits, and the
      transaction's own code is not part of this model, so both are left open). */
  datatype Faults = Faults(lookup: bool, podcastInsert: bool, episodeInserts: set<nat>, kept: bool)

  /** The tables and the caller's podcast after Subscribe. */
  datatype Outcome = Outcome(tables: map<string, Table>, podcast: PodcastRecord)

  /** The stored values of a podcast row and of an episode row. */
  function PodcastRow(p: PodcastRecord, c: Codecs): seq<Value>
  {
    StoredValues(Podcasts.Placeholders, Podcasts.Bindings(p, c))
  }

  function EpisodeRow(e: EpisodeRecord, c: Codecs): seq<Value>
  {
    StoredValues(PodcastEpisodes.Placeholders, PodcastEpisodes.Bindings(e, c))
  }

  /** An episode row starts with the id of the podcast it belongs to. */
  lemma EpisodeRowHoldsPodcastId(e: EpisodeRecord, c: Codecs)
    ensures EpisodeRow(e, c)[0] == Integer(e.podcastDatabaseId)
  {
    PodcastEpisodes.PlaceholdersSpelled();
  }

  /** A podcast row holds the encoded url in the url column. */
  lemma PodcastRowHoldsUrl(p: PodcastRecord, c: Codecs)
    ensures PodcastRow(p, c)[UrlColumn] == Blob(c.urlToEncoded(p.url))
  {
    Podcasts.PlaceholdersSpelled();
  }

  function EpisodeRows(es: seq<EpisodeRecord>, c: Codecs): (rows: seq<seq<Value>>)
    ensures |rows| == |es|
    ensures forall j :: 0 <= j < |rows| ==> |rows[j]| == |PodcastEpisodes.Columns|
  {
    seq(|es|, j requires 0 <= j < |es| => EpisodeRow(es[j], c))
  }

  /** A table after one insert per row, in order, each taking the next ROWID. */
  function Extended(t: Table, rows: seq<seq<Value>>): (r: Table)
    ensures r.columns == t.columns
  {
    t.(rows := t.rows + seq(|rows|, j requires 0 <= j < |rows| => StoredRow(t.nextRowId + j, rows[j])),
       nextRowId := t.nextRowId + |rows|)
  }

  /** Every episode with the podcast's database id. */
  function Stamped(es: seq<EpisodeRecord>, id: int): (r: seq<EpisodeRecord>)
    ensures |r| == |es|
  {
    seq(|es|, j requires 0 <= j < |es| => es[j].(podcastDatabaseId := id))
  }

  /** The first n episodes with the ROWIDs base, base + 1, ...; the rest unchanged. */
  function WithIds(es: seq<EpisodeRecord>, n: nat, base: int): (r: seq<EpisodeRecord>)
    ensures |r| == |es|
  {
    seq(|es|, j requires 0 <= j < |es| => if j < n then es[j].(databaseId := base + j) else es[j])
  }

  /** How many of n inserts succeed when the loop stops at the first failing one. */
  function FirstFailure(failing: set<nat>, n: nat): (k: nat)
    ensures k <= n
    ensures forall j :: 0 <= j < k ==> j !in failing
    ensures k < n ==> k in failing
  {
    if n == 0 then 0
    else
      var k := FirstFailure(failing, n - 1);
      if k < n - 1 then k
      else if n - 1 in failing then n - 1
      else n
  }

  /** The loop may go on past insert i exactly when i is not a failing one. */
  lemma FirstFailureStep(failing: set<nat>, n: nat, i: nat)
    requires i < n && i <= FirstFailure(failing, n)
    ensures i in failing ==> i == FirstFailure(failing, n)
    ensures i !in failing ==> i + 1 <= FirstFailure(failing, n)
  {
  }

  /** What Subscribe does: nothing for a stored podcast; take the stored
      record with the same url; otherwise insert the podcast, give it the new
      ROWID, stamp that id on its episodes and insert them in order until
      the first one that fails. The ids given to the caller's podcast stay
      either way; the rows stay only when the transaction's end keeps them. */
  function Subscribed(tables: map<string, Table>, p: PodcastRecord, c: Codecs, f: Faults): Outcome
    requires PodcastTable in tables && EpisodeTable in tables
  {
    if Podcasts.IsValid(p) then Outcome(tables, p)
    else
      var existing := SubscriptionByUrl(tables[PodcastTable], p.url, c, f.lookup);
      if Podcasts.IsValid(existing) then Outcome(tables, existing)
      else
        var r := Inserted(tables, p, c, f);
        if f.kept then r else Outcome(tables, r.podcast)
  }

  /** The part of Subscribe after the url lookup found nothing: the podcast
      row is inserted, then the stamped episodes up to the first failing
      insert. */
  function Inserted(tables: map<string, Table>, p: PodcastRecord, c: Codecs, f: Faults): Outcome
    requires PodcastTable in tables && EpisodeTable in tables
  {
    if f.podcastInsert then Outcome(tables, p)
    else
      var podcasts := tables[PodcastTable];
      var id := podcasts.nextRowId;
      var stamped := Stamped(p.episodes, id);
      var n := FirstFailure(f.episodeInserts, |stamped|);
      var episodes := tables[EpisodeTable];
      Outcome(
        tables[PodcastTable := Appended(podcasts, PodcastRow(p, c))]
              [EpisodeTable := Extended(episodes, EpisodeRows(stamped[..n], c))],
        p.(databaseId := id, episodes := WithIds(stamped, n, episodes.nextRowId)))
  }

  /** The three early returns of Subscribe change no table: a podcast that is
      already stored is left as it is, a url already stored replaces the
      caller's podcast by the stored one (which has no episodes), and a
      failed podcast insert leaves the podcast unassigned. */
  lemma SubscribeEarlyReturns(tables: map<string, Table>, p: PodcastRecord, c: Codecs, f: Faults)
    requires Schema(tables)
    ensures Podcasts.IsValid(p) ==> Subscribed(tables, p, c, f) == Outcome(tables, p)
    ensures var existing := SubscriptionByUrl(tables[PodcastTable], p.url, c, f.lookup);
      !Podcasts.IsValid(p) && Podcasts.IsValid(existing) ==>
        && Subscribed(tables, p, c, f) == Outcome(tables, existing)
        && existing.episodes == []
        && !f.lookup
    ensures var existing := SubscriptionByUrl(tables[PodcastTable], p.url, c, f.lookup);
      !Podcasts.IsValid(p) && !Podcasts.IsValid(existing) && f.podcastInsert ==>
        && Subscribed(tables, p, c, f) == Outcome(tables, p)
        && Subscribed(tables, p, c, f).podcast.databaseId == -1
  {
    LookupsFindStoredRows(tables[PodcastTable], 0, p.url, c, f.lookup);
  }

  /** A subscription that reaches the podcast insert and succeeds: the
      podcast gets the next podcast ROWID and every episode carries it; the
      episodes before the first failing insert get consecutive fresh ROWIDs
      in list order, the others keep their database id; exactly one podcast
      row and one episode row per inserted episode are added, and the
      tables stay valid. When the transaction's end rolls the inserts back,
      the tables are as before but the podcast keeps its new ids. */
  lemma SubscribeInserts(tables: map<string, Table>, p: PodcastRecord, c: Codecs, f: Faults)
    requires Schema(tables)
    requires !Podcasts.IsValid(p)
    requires !Podcasts.IsValid(SubscriptionByUrl(tables[PodcastTable], p.url, c, f.lookup))
    requires !f.podcastInsert
    ensures var r := Subscribed(tables, p, c, f);
      var id := tables[PodcastTable].nextRowId;
      var n := FirstFailure(f.episodeInserts, |p.episodes|);
      var base := tables[EpisodeTable].nextRowId;
      && Schema(r.tables)
      && (!f.kept ==> r.tables == tables)
      && r.podcast.databaseId == id && Podcasts.IsValid(r.podcast)
      && r.podcast == p.(databaseId := id, episodes := r.podcast.episodes)
      && |r.podcast.episodes| == |p.episodes|
      && (forall j :: 0 <= j < |p.episodes| ==> r.podcast.episodes[j].podcastDatabaseId == id)
      && (forall j :: 0 <= j < n ==> r.podcast.episodes[j].databaseId == base + j)
      && (forall j :: n <= j < |p.episodes| ==> r.podcast.episodes[j].databaseId == p.episodes[j].databaseId)
      && (forall i, j :: 0 <= i < j < n ==> r.podcast.episodes[i].databaseId < r.podcast.episodes[j].databaseId)
      && (f.kept ==> |r.tables[PodcastTable].rows| == |tables[PodcastTable].rows| + 1)
      && (f.kept ==> |r.tables[EpisodeTable].rows| == |tables[EpisodeTable].rows| + n)
      && (f.kept ==> forall j :: |tables[EpisodeTable].rows| <= j < |r.tables[EpisodeTable].rows| ==>
            r.tables[EpisodeTable].rows[j].values[0] == Integer(id))
  {
    var r := Inserted(tables, p, c, f);
    var id := tables[PodcastTable].nextRowId;
    var stamped := Stamped(p.episodes, id);
    var n := FirstFailure(f.episodeInserts, |stamped|);
    var episodes := tables[EpisodeTable];
    var rows := EpisodeRows(stamped[..n], c);
    var stored := tables[PodcastTable := Appended(tables[PodcastTable], PodcastRow(p, c))];
    AppendedValid(tables[PodcastTable], PodcastRow(p, c));
    assert TablesValid(stored);
    ExtendedValid(episodes, rows);
    assert r.tables == stored[EpisodeTable := Extended(episodes, rows)];
    assert Subscribed(tables, p, c, f) == (if f.kept then r else Outcome(tables, r.podcast));
    forall j | |episodes.rows| <= j < |r.tables[EpisodeTable].rows|
      ensures r.tables[EpisodeTable].rows[j].values[0] == Integer(id)
    {
      EpisodeRowHoldsPodcastId(stamped[j - |episodes.rows|], c);
    }
  }

  /** Inserting full rows keeps a table valid. */
  lemma {:induction false} ExtendedValid(t: Table, rows: seq<seq<Value>>)
    requires TableValid(t)
    requires forall j :: 0 <= j < |rows| ==> |rows[j]| == |t.columns|
    ensures TableValid(Extended(t, rows))
  {
    var r := Extended(t, rows);
    forall a, b | 0 <= a < b < |r.rows| ensures r.rows[a].rowid < r.rows[b].rowid {
      if b >= |t.rows| && a < |t.rows| {
        assert r.rows[a] == t.rows[a];
      }
    }
  }

  /** Once Subscribe has stored a new podcast, both lookups return it, with
      every stored field as the caller gave it and no episodes (given codecs
      that round-trip, a url lookup that did not fail, and a transaction end
      that keeps the inserts). */
  lemma SubscribedPodcastIsFound(tables: map<string, Table>, p: PodcastRecord, c: Codecs, f: Faults)
    requires Schema(tables)
    requires c.Lossless()
    requires !Podcasts.IsValid(p)
    requires !f.lookup && !f.podcastInsert && f.kept
    requires !Podcasts.IsValid(SubscriptionByUrl(tables[PodcastTable], p.url, c, f.lookup))
    ensures var r := Subscribed(tables, p, c, f);
      var id := tables[PodcastTable].nextRowId;
      var stored := p.(databaseId := id, episodes := []);
      && SubscriptionById(r.tables[PodcastTable], id, c, false) == stored
      && SubscriptionByUrl(r.tables[PodcastTable], p.url, c, false) == stored
  {
    var r := Subscribed(tables, p, c, f);
    var t := tables[PodcastTable];
    var t' := r.tables[PodcastTable];
    var id := t.nextRowId;
    var key := Blob(c.urlToEncoded(p.url));
    assert t' == Appended(t, PodcastRow(p, c));
    var last := StoredRow(id, PodcastRow(p, c));
    assert t'.rows == t.rows + [last];
    Podcasts.RoundTrip(p, Podcasts.Default, c, id);
    assert RowPodcast(last, c) == p.(databaseId := id, episodes := []);
    // By ROWID: every earlier row has a smaller one.
    assert TableValid(t);
    FoundAfterEarlierRows(t.rows, last, UrlColumn, key);
    // By url: no earlier row holds the url, since the lookup found none.
    LookupsFindStoredRows(t, 0, p.url, c, false);
    PodcastRowHoldsUrl(p, c);
  }

  /** A row appended after rows that neither share its ROWID nor hold v in
      the column is the one both searches find. */
  lemma FoundAfterEarlierRows(rows: seq<StoredRow>, last: StoredRow, column: nat, v: Value)
    requires forall j :: 0 <= j < |rows| ==> rows[j].rowid != last.rowid
    ensures FindRowId(rows + [last], last.rowid) == |rows|
    ensures (forall j :: 0 <= j < |rows| ==> ValueAt(rows[j].values, column) != v) && ValueAt(last.values, column) == v
      ==> FindValue(rows + [last], column, v) == |rows|
  {
    var all := rows + [last];
    assert forall j :: 0 <= j < |rows| ==> all[j].rowid != last.rowid;
    assert all[|rows|].rowid == last.rowid && all[|rows|].values == last.values;
    if forall j :: 0 <= j < |rows| ==> ValueAt(rows[j].values, column) != v {
      assert forall j :: 0 <= j < |rows| ==> ValueAt(all[j].values, column) != v;
    }
  }

  /** Subscribing to a url that is already stored inserts nothing more: a
      second, new podcast with the same url takes the stored record (when the
      first subscription's inserts were kept). */
  lemma ResubscribeTakesStoredRecord(tables: map<string, Table>, p: PodcastRecord, q: PodcastRecord, c: Codecs, f: Faults, g: Faults)
    requires Schema(tables)
    requires c.Lossless()
    requires !Podcasts.IsValid(p) && !Podcasts.IsValid(q) && q.url == p.url
    requires !f.lookup && !f.podcastInsert && f.kept && !g.lookup
    requires !Podcasts.IsValid(SubscriptionByUrl(tables[PodcastTable], p.url, c, f.lookup))
    ensures var r := Subscribed(tables, p, c, f);
      var id := tables[PodcastTable].nextRowId;
      Subscribed(r.tables, q, c, g) == Outcome(r.tables, p.(databaseId := id, episodes := []))
  {
    var r := Subscribed(tables, p, c, f);
    SubscribeInserts(tables, p, c, f);
    SubscribedPodcastIsFound(tables, p, c, f);
  }

  /** When the transaction's end rolls the inserts back, the caller's podcast
      is left valid, with the ROWID it was given, yet no row holds it: a
      lookup by its url finds nothing, and subscribing it again does nothing. */
  lemma RolledBackPodcastIsNotStored(tables: map<string, Table>, p: PodcastRecord, c: Codecs, f: Faults, g: Faults)
    requires Schema(tables)
    requires !Podcasts.IsValid(p)
    requires !f.lookup && !f.podcastInsert && !f.kept
    requires !Podcasts.IsValid(SubscriptionByUrl(tables[PodcastTable], p.url, c, f.lookup))
    ensures var r := Subscribed(tables, p, c, f);
      && r.tables == tables
      && Podcasts.IsValid(r.podcast) && r.podcast.databaseId == tables[PodcastTable].nextRowId
      && !Podcasts.IsValid(SubscriptionByUrl(r.tables[PodcastTable], r.podcast.url, c, false))
      && Subscribed(r.tables, r.podcast, c, g) == r
  {
    SubscribeInserts(tables, p, c, f);
  }

  // -------------------------------------------------------------- the class

  /** The state AddEpisodes has reached once the first i episodes of es
      are stored: the episode table extended by their rows, and those
      episodes numbered from the table's former counter, nothing else of the
      podcast changed. */
  ghost predicate Added(tables: map<string, Table>, t: Table, es: seq<EpisodeRecord>, p: PodcastRecord, c: Codecs,
                        i: nat, current: map<string, Table>, data: PodcastRecord)
  {
    && i <= |es| && |data.episodes| == |es|
    && current == tables[EpisodeTable := Extended(t, EpisodeRows(es[..i], c))]
    && data.episodes == WithIds(es, i, t.nextRowId)
    && data == p.(episodes := data.episodes)
  }

  lemma PrefixGrows<T>(s: seq<T>, i: nat)
    requires i < |s|
    ensures s[..i + 1] == s[..i] + [s[i]]
  {
  }

  lemma PrefixIsWhole<T>(s: seq<T>)
    ensures s[..|s|] == s
  {
  }

  /** The backend, holding the application's database and the codecs its
      records use. */
  class PodcastBackend {
    const db: Database
    const codecs: Codecs
    /** The texts of the two INSERT statements. */
    const podcastInsert: string
    const episodeInsert: string

    ghost predicate Valid()
      reads this, db
    {
      && Schema(db.tables)
      && ParseInsert(podcastInsert) == Some(PodcastPlan)
      && ParseInsert(episodeInsert) == Some(EpisodePlan)
    }

    constructor(db: Database, codecs: Codecs)
      requires Schema(db.tables)
      ensures Valid()
      ensures this.db == db && this.codecs == codecs
      ensures podcastInsert == PodcastInsertSql && episodeInsert == EpisodeInsertSql
    {
      this.db := db;
      this.codecs := codecs;
      podcastInsert := PodcastInsertSql;
      episodeInsert := EpisodeInsertSql;
      new;
      PodcastInsertParses();
      EpisodeInsertParses();
    }

    /** GetAllSubscriptions: one podcast per stored row, in table order, each
        read into a fresh Podcast; an empty list if the query fails. */
    method GetAllSubscriptions(fault: bool) returns (ret: seq<PodcastRecord>)
      requires Valid()
      ensures ret == AllSubscriptions(db.tables[PodcastTable], codecs, fault)
    {
      ret := [];
      if fault {
        return;
      }
      var rows := db.tables[PodcastTable].rows;
      ghost var all := AllSubscriptions(db.tables[PodcastTable], codecs, false);
      var i := 0;
      while i < |rows|
        invariant 0 <= i <= |rows| == |all|
        invariant ret == all[..i]
      {
        var podcast := ReadRow(rows[i]);
        PrefixGrows(all, i);
        ret := ret + [podcast];
        i := i + 1;
      }
      PrefixIsWhole(all);
    }

    /** The podcast a fresh Podcast holds after InitFromQuery on one row. */
    method ReadRow(row: StoredRow) returns (r: PodcastRecord)
      ensures r == RowPodcast(row, codecs)
    {
      var podcast := new Podcasts.Podcast();
      podcast.InitFromQuery(ResultRow(row), codecs);
      r := podcast.data;
    }

    /** GetSubscriptionById: the first row with that ROWID, or the default podcast. */
    method GetSubscriptionById(id: int, fault: bool) returns (r: PodcastRecord)
      requires Valid()
      ensures r == SubscriptionById(db.tables[PodcastTable], id, codecs, fault)
    {
      var ret := new Podcasts.Podcast();
      var rows := db.tables[PodcastTable].rows;
      if !fault {
        var k := FindRowId(rows, id);
        if k < |rows| {
          ret.InitFromQuery(ResultRow(rows[k]), codecs);
        }
      }
      r := ret.data;
    }

    /** GetSubscriptionByUrl: the first row with that url, or the default podcast. */
    method GetSubscriptionByUrl(url: Url, fault: bool) returns (r: PodcastRecord)
      requires Valid()
      ensures r == SubscriptionByUrl(db.tables[PodcastTable], url, codecs, fault)
    {
      var ret := new Podcasts.Podcast();
      var rows := db.tables[PodcastTable].rows;
      if !fault {
        var k := FindValue(rows, UrlColumn, Blob(codecs.urlToEncoded(url)));
        if k < |rows| {
          ret.InitFromQuery(ResultRow(rows[k]), codecs);
        }
      }
      r := ret.data;
    }

    /** Subscribe, with the podcast insert written as evidently intended. */
    method Subscribe(podcast: Podcasts.Podcast, faults: Faults)
      requires Valid()
      modifies podcast, db
      ensures Valid()
      ensures Outcome(db.tables, podcast.data) == Subscribed(old(db.tables), old(podcast.data), codecs, faults)
    {
      if Podcasts.IsValid(podcast.data) {
        return;
      }
      var existing := GetSubscriptionByUrl(podcast.data.url, faults.lookup);
      if Podcasts.IsValid(existing) {
        var found := new Podcasts.Podcast.Copy(existing);
        podcast.Assign(found);
        return;
      }
      var before := db.tables;
      InsertSubscription(podcast, faults);
      if !faults.kept {
        // The transaction's end of scope rolls the inserts back; the ids
        // already written into the podcast stay.
        db.tables := before;
      }
    }

    /** The insert path of Subscribe: the podcast row, its new ROWID, the
        stamped episodes. */
    method InsertSubscription(podcast: Podcasts.Podcast, faults: Faults)
      requires Valid()
      modifies podcast, db
      ensures Valid()
      ensures Outcome(db.tables, podcast.data) == Inserted(old(db.tables), old(podcast.data), codecs, faults)
    {
      ghost var tables := db.tables;
      ghost var p := podcast.data;
      var q := new Query();
      podcast.BindToQuery(q, codecs);
      PodcastInsertStep(tables, podcastInsert, p, codecs);
      var ok, id := db.ExecInsert(podcastInsert, q.bindings, faults.podcastInsert);
      if !ok {
        return;
      }
      assert id == tables[PodcastTable].nextRowId;
      ghost var stored := db.tables;
      assert stored[EpisodeTable] == tables[EpisodeTable];
      podcast.SetDatabaseId(id);
      StampEpisodes(podcast, id);
      ghost var stamped := podcast.data.episodes;
      assert stamped == Stamped(p.episodes, id);
      AddEpisodes(podcast, faults.episodeInserts);
    }

    /** AddEpisodes: inserts the podcast's episodes in list order through one
        prepared statement, giving each its new ROWID, and stops at the first
        insert that fails. */
    method AddEpisodes(podcast: Podcasts.Podcast, failing: set<nat>)
      requires Valid()
      modifies podcast, db
      ensures Valid()
      ensures var es := old(podcast.data.episodes);
        var n := FirstFailure(failing, |es|);
        var t := old(db.tables)[EpisodeTable];
        && db.tables == old(db.tables)[EpisodeTable := Extended(t, EpisodeRows(es[..n], codecs))]
        && podcast.data == old(podcast.data).(episodes := WithIds(es, n, t.nextRowId))
    {
      ghost var es := podcast.data.episodes;
      ghost var tables := db.tables;
      ghost var p := podcast.data;
      ghost var t := db.tables[EpisodeTable];
      var q := new Query();
      var i := 0;
      ExtendedByNothing(t);
      assert es[..0] == [];
      assert tables[EpisodeTable := t] == tables;
      while i < |podcast.data.episodes|
        invariant Valid()
        invariant i <= FirstFailure(failing, |es|)
        invariant Added(tables, t, es, p, codecs, i, db.tables, podcast.data)
      {
        var ok := NextEpisode(podcast, q, i, i in failing, tables, t, es, p);
        FirstFailureStep(failing, |es|, i);
        if !ok {
          assert i == FirstFailure(failing, |es|);
          return;
        }
        i := i + 1;
      }
      assert i == FirstFailure(failing, |es|);
    }

    /** AddEpisodes' loop body: episode i is inserted and numbered, extending
        the progress made so far by one episode, or nothing changes. */
    method NextEpisode(podcast: Podcasts.Podcast, q: Query, i: nat, fault: bool,
                       ghost tables: map<string, Table>, ghost t: Table, ghost es: seq<EpisodeRecord>, ghost p: PodcastRecord)
        returns (ok: bool)
      requires Valid() && i < |es|
      requires Added(tables, t, es, p, codecs, i, db.tables, podcast.data)
      modifies podcast, db, q
      ensures Valid()
      ensures ok == !fault
      ensures ok ==> Added(tables, t, es, p, codecs, i + 1, db.tables, podcast.data)
      ensures !ok ==> db.tables == old(db.tables) && podcast.data == old(podcast.data)
    {
      ghost var done := EpisodeRows(es[..i], codecs);
      ghost var numbered := podcast.data.episodes;
      assert db.tables[EpisodeTable] == Extended(t, done);
      assert Extended(t, done).nextRowId == t.nextRowId + i;
      ok := InsertEpisode(podcast, q, i, fault);
      if ok {
        assert podcast.data.episodes == numbered[i := numbered[i].(databaseId := Extended(t, done).nextRowId)];
        NumberedStep(es, i, t.nextRowId, Extended(t, done).nextRowId, numbered, podcast.data.episodes);
        ExtendedByOne(t, done, EpisodeRow(es[i], codecs));
        EpisodeRowsGrow(es, i, codecs);
      }
    }

    /** One pass of AddEpisodes' loop: episode i is bound to the statement,
        the statement runs and, when it succeeds, the episode takes the new
        ROWID. */
    method InsertEpisode(podcast: Podcasts.Podcast, q: Query, i: nat, fault: bool) returns (ok: bool)
      requires Valid()
      requires i < |podcast.data.episodes|
      modifies podcast, db, q
      ensures Valid()
      ensures ok == !fault
      ensures var e := old(podcast.data.episodes[i]);
        var t := old(db.tables[EpisodeTable]);
        if ok then
          && db.tables == old(db.tables)[EpisodeTable := Appended(t, EpisodeRow(e, codecs))]
          && podcast.data.episodes == old(podcast.data.episodes)[i := e.(databaseId := t.nextRowId)]
          && podcast.data == old(podcast.data).(episodes := podcast.data.episodes)
        else
          db.tables == old(db.tables) && podcast.data == old(podcast.data)
    {
      ghost var e := podcast.data.episodes[i];
      ghost var tables := db.tables;
      var episode := new PodcastEpisodes.PodcastEpisode.Copy(podcast.data.episodes[i]);
      ghost var previous := q.bindings;
      episode.BindToQuery(q, codecs);
      EpisodeInsertStep(tables, episodeInsert, previous, e, codecs);
      var id;
      ok, id := db.ExecInsert(episodeInsert, q.bindings, fault);
      if ok {
        assert id == tables[EpisodeTable].nextRowId;
        episode.SetDatabaseId(id);
        podcast.SetEpisodeAt(i, episode.data);
      }
    }

    /** The loop of Subscribe that writes the podcast's new id into every
        episode, in place. */
    method StampEpisodes(podcast: Podcasts.Podcast, id: int)
      modifies podcast
      ensures podcast.data == old(podcast.data).(episodes := Stamped(old(podcast.data.episodes), id))
    {
      ghost var p := podcast.data;
      ghost var es := podcast.data.episodes;
      var i := 0;
      while i < |podcast.data.episodes|
        invariant 0 <= i <= |es|
        invariant podcast.data == p.(episodes := Stamped(es[..i], id) + es[i..])
      {
        StampStep(es, i, id);
        var episode := new PodcastEpisodes.PodcastEpisode.Copy(podcast.data.episodes[i]);
        episode.SetPodcastDatabaseId(id);
        podcast.SetEpisodeAt(i, episode.data);
        i := i + 1;
      }
      StampStep(es, i, id);
    }
  }

  /** An episode insert: a database with the schema accepts it, and it
      appends the episode's row to `podcast_episodes` and keeps the schema,
      whatever the statement still held from the previous episode. */
  lemma EpisodeInsertStep(tables: map<string, Table>, sql: string, previous: map<string, Value>, e: EpisodeRecord, c: Codecs)
    requires Schema(tables)
    requires ParseInsert(sql) == Some(EpisodePlan)
    ensures Accepts(tables, sql)
    ensures ParseInsert(sql).value.table == EpisodeTable
    ensures var next := tables[EpisodeTable := Appended(tables[EpisodeTable], EpisodeRow(e, c))];
      && AfterInsert(tables, sql, previous + PodcastEpisodes.Bindings(e, c)) == next
      && Schema(next)
  {
    RebindingStoresTheEpisode(previous, e, c);
    InsertByPlan(tables, sql, EpisodePlan, previous + PodcastEpisodes.Bindings(e, c));
    assert TableValid(tables[EpisodeTable]);
    AppendedValid(tables[EpisodeTable], EpisodeRow(e, c));
    ReplacedValid(tables, EpisodeTable, Appended(tables[EpisodeTable], EpisodeRow(e, c)));
  }

  /** The rows of one more episode are the rows before and its own. */
  lemma EpisodeRowsGrow(es: seq<EpisodeRecord>, i: nat, c: Codecs)
    requires i < |es|
    ensures EpisodeRows(es[..i + 1], c) == EpisodeRows(es[..i], c) + [EpisodeRow(es[i], c)]
  {
    var a := EpisodeRows(es[..i + 1], c);
    var b := EpisodeRows(es[..i], c) + [EpisodeRow(es[i], c)];
    forall j | 0 <= j < |a| ensures a[j] == b[j] {
      if j < i {
        assert es[..i + 1][j] == es[..i][j];
      }
    }
  }

  /** Giving episode i its ROWID extends the numbered prefix by one. */
  lemma NumberedStep(es: seq<EpisodeRecord>, i: nat, base: int, id: int, numbered: seq<EpisodeRecord>, after: seq<EpisodeRecord>)
    requires i < |es| && id == base + i
    requires numbered == WithIds(es, i, base)
    requires after == numbered[i := numbered[i].(databaseId := id)]
    ensures after == WithIds(es, i + 1, base)
  {
    assert numbered[i] == es[i];
  }

  /** The podcast insert: a database with the schema accepts it, and it
      appends the podcast's row to `podcasts` and keeps the schema. */
  lemma PodcastInsertStep(tables: map<string, Table>, sql: string, p: PodcastRecord, c: Codecs)
    requires Schema(tables)
    requires ParseInsert(sql) == Some(PodcastPlan)
    ensures Accepts(tables, sql)
    ensures ParseInsert(sql).value.table == PodcastTable
    ensures var next := tables[PodcastTable := Appended(tables[PodcastTable], PodcastRow(p, c))];
      && AfterInsert(tables, sql, map[] + Podcasts.Bindings(p, c)) == next
      && Schema(next)
  {
    UnionWithNothing(Podcasts.Bindings(p, c));
    InsertByPlan(tables, sql, PodcastPlan, map[] + Podcasts.Bindings(p, c));
    assert TableValid(tables[PodcastTable]);
    AppendedValid(tables[PodcastTable], PodcastRow(p, c));
    ReplacedValid(tables, PodcastTable, Appended(tables[PodcastTable], PodcastRow(p, c)));
  }

  /** Stamping episode i extends the stamped prefix by one; with all of them
      stamped the list is Stamped(es, id). */
  lemma StampStep(es: seq<EpisodeRecord>, i: nat, id: int)
    requires i <= |es|
    ensures i < |es| ==> (Stamped(es[..i], id) + es[i..])[i] == es[i]
    ensures i < |es| ==>
      Stamped(es[..i + 1], id) + es[i + 1..] == (Stamped(es[..i], id) + es[i..])[i := es[i].(podcastDatabaseId := id)]
    ensures i == |es| ==> Stamped(es[..i], id) + es[i..] == Stamped(es, id)
  {
    if i < |es| {
      var before := Stamped(es[..i], id) + es[i..];
      var after := Stamped(es[..i + 1], id) + es[i + 1..];
      assert |after| == |before|;
      forall j | 0 <= j < |es| ensures after[j] == before[i := es[i].(podcastDatabaseId := id)][j] {
        if j < i {
          assert after[j] == Stamped(es[..i + 1], id)[j];
        } else if j > i {
          assert after[j] == es[i + 1..][j - i - 1];
        }
      }
    } else {
      assert es[..i] == es;
    }
  }

  /** A fresh statement holds no bindings, so after BindToQuery it holds exactly the record's. */
  lemma UnionWithNothing(m: map<string, Value>)
    ensures map[] + m == m
  {
  }

  /** No rows inserted, no change. */
  lemma ExtendedByNothing(t: Table)
    ensures Extended(t, []) == t
  {
    assert Extended(t, []).rows == t.rows;
  }

  /** The statement is reused for every episode: each BindToQuery sets every
      placeholder again, so what is left from the previous episode is not stored. */
  lemma RebindingStoresTheEpisode(previous: map<string, Value>, e: EpisodeRecord, c: Codecs)
    ensures StoredValues(PodcastEpisodes.Placeholders, previous + PodcastEpisodes.Bindings(e, c)) == EpisodeRow(e, c)
  {
    PodcastEpisodes.BindsExactlyThePlaceholders(e, c);
  }

  lemma ExtendedByOne(t: Table, rows: seq<seq<Value>>, row: seq<Value>)
    ensures Extended(t, rows + [row]) == Appended(Extended(t, rows), row)
  {
    assert Extended(t, rows + [row]).rows == Extended(t, rows).rows + [StoredRow(t.nextRowId + |rows|, row)];
  }
}
