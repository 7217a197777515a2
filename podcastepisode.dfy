/** PodcastEpisode (src/podcasts/podcastepisode.cpp): one episode of a
    subscription, a copy-on-write value whose shared record is `Private`, and
    its mapping onto the `podcast_episodes` table. */
module PodcastEpisodes {

  import opened QtTypes
  import opened Sql
  import opened SqlStore

  /** kColumns: the stored columns, in the order the statements list them. */
  const Columns: seq<string> := [
    "podcast_database_id", "title", "description", "author",
    "publication_date", "duration_secs", "url", "listened",
    "downloaded", "local_url", "extra"]

  /** kColumnSpec and kBindSpec. */
  const ColumnSpec: string := Join(Columns)
  const Placeholders: seq<string> := Prepend(":", Columns)
  const BindSpec: string := Join(Placeholders)

  /** The shared record (`PodcastEpisode::Private`). */
  datatype EpisodeRecord = EpisodeRecord(
    databaseId: int,
    podcastDatabaseId: int,
    title: string,
    description: string,
    author: string,
    publicationDate: DateTime,
    durationSecs: int,
    url: Url,
    listened: bool,
    downloaded: bool,
    localUrl: Url,
    extra: VariantMap)

  /** What `Private()` holds: sentinel ids and duration, both flags off. */
  const Default: EpisodeRecord :=
    EpisodeRecord(-1, -1, "", "", "", NullDateTime, -1, EmptyUrl, false, false, EmptyUrl, map[])

  /** The record InitFromQuery leaves: ROWID from index 0, column i from index i + 1. */
  function FromRow(row: seq<Value>, c: Codecs): EpisodeRecord
  {
    EpisodeRecord(
      ToInt(ValueAt(row, 0)),
      ToInt(ValueAt(row, 1)),
      ToText(ValueAt(row, 2)),
      ToText(ValueAt(row, 3)),
      ToText(ValueAt(row, 4)),
      c.fromTimeT(ToInt(ValueAt(row, 5))),
      ToInt(ValueAt(row, 6)),
      c.urlFromEncoded(ToBytes(ValueAt(row, 7))),
      ToBool(ValueAt(row, 8)),
      ToBool(ValueAt(row, 9)),
      c.urlFromEncoded(ToBytes(ValueAt(row, 10))),
      c.readMap(ToBytes(ValueAt(row, 11))))
  }

  /** The bindings BindToQuery makes, by placeholder name. */
  function Bindings(e: EpisodeRecord, c: Codecs): map<string, Value>
  {
    map[
      ":podcast_database_id" := Integer(e.podcastDatabaseId),
      ":title" := Text(e.title),
      ":description" := Text(e.description),
      ":author" := Text(e.author),
      ":publication_date" := Integer(c.toTimeT(e.publicationDate)),
      ":duration_secs" := Integer(e.durationSecs),
      ":url" := Blob(c.urlToEncoded(e.url)),
      ":listened" := Boolean(e.listened),
      ":downloaded" := Boolean(e.downloaded),
      ":local_url" := Blob(c.urlToEncoded(e.localUrl)),
      ":extra" := Blob(c.writeMap(e.extra))]
  }

  /** The placeholder list, spelled out. */
  const PlaceholderNames: seq<string> := [
    ":podcast_database_id", ":title", ":description", ":author",
    ":publication_date", ":duration_secs", ":url", ":listened",
    ":downloaded", ":local_url", ":extra"]

  lemma PlaceholdersSpelled()
    ensures Placeholders == PlaceholderNames
  {
    forall i | 0 <= i < 11 ensures Placeholders[i] == PlaceholderNames[i] {
      if i == 0 { assert ":" + "podcast_database_id" == ":podcast_database_id";
      } else if i == 1 { assert ":" + "title" == ":title";
      } else if i == 2 { assert ":" + "description" == ":description";
      } else if i == 3 { assert ":" + "author" == ":author";
      } else if i == 4 { assert ":" + "publication_date" == ":publication_date";
      } else if i == 5 { assert ":" + "duration_secs" == ":duration_secs";
      } else if i == 6 { assert ":" + "url" == ":url";
      } else if i == 7 { assert ":" + "listened" == ":listened";
      } else if i == 8 { assert ":" + "downloaded" == ":downloaded";
      } else if i == 9 { assert ":" + "local_url" == ":local_url";
      } else if i == 10 { assert ":" + "extra" == ":extra";
      }
    }
  }

  /** kColumnSpec lists the 11 columns joined by ", ", kBindSpec the same
      columns each prefixed with ':' in the same order, and each spec can be
      read back into its list. */
  lemma SpecsListTheColumns()
    ensures |Columns| == 11 && |Placeholders| == 11
    ensures forall i :: 0 <= i < 11 ==> Placeholders[i] == ":" + Columns[i]
    ensures Split(ColumnSpec) == Columns
    ensures Split(BindSpec) == Placeholders
  {
    SpecsAreDelimited();
    SplitJoin(Columns);
    SplitJoin(Placeholders);
  }

  /** The facts an INSERT built from the two specs needs: no name holds a
      comma or a closing parenthesis, and the bind spec opens with ':'. */
  lemma SpecsAreDelimited()
    ensures |Columns| >= 1 && Avoids(Columns, ',') && Avoids(Columns, ')')
    ensures |Placeholders| >= 1 && Avoids(Placeholders, ',')
    ensures |BindSpec| >= 1 && BindSpec[0] == ':'
  {
    assert Avoids(Columns, ',') && Avoids(Columns, ')') by {
      forall i | 0 <= i < |Columns| ensures ',' !in Columns[i] && ')' !in Columns[i] {}
    }
    PrependAvoids(":", Columns, ',');
    JoinStartsWithFirst(Placeholders);
    assert Placeholders[0] == ":" + Columns[0];
    assert BindSpec[..|Placeholders[0]|][0] == ':';
  }

  /** BindToQuery binds exactly the placeholders of kBindSpec: none missing, none extra. */
  lemma BindsExactlyThePlaceholders(e: EpisodeRecord, c: Codecs)
    ensures Bindings(e, c).Keys == set p | p in Placeholders
  {
    PlaceholdersSpelled();
  }

  /** Binding an episode, storing the row an INSERT with kBindSpec makes and
      reading it back with its ROWID gives the same episode, whose database id
      is now that ROWID; the publication date comes back as the time codec
      returns it, which is the date itself when toTime_t can represent it
      (the null date of a fresh episode is not such a date). */
  lemma RoundTrip(e: EpisodeRecord, c: Codecs, rowid: int)
    requires c.Lossless()
    ensures FromRow(ResultRow(StoredRow(rowid, StoredValues(Placeholders, Bindings(e, c)))), c)
         == e.(databaseId := rowid, publicationDate := c.fromTimeT(c.toTimeT(e.publicationDate)))
    ensures Representable(e.publicationDate) ==>
      FromRow(ResultRow(StoredRow(rowid, StoredValues(Placeholders, Bindings(e, c)))), c) == e.(databaseId := rowid)
  {
    PlaceholdersSpelled();
  }

  /** Binding the names one after another, in BindToQuery's order, on top
      of earlier bindings gives the earlier bindings overridden by Bindings. */
  lemma BindingInOrder(m: map<string, Value>, d: EpisodeRecord, c: Codecs)
    ensures m
              [":podcast_database_id" := Integer(d.podcastDatabaseId)]
              [":title" := Text(d.title)]
              [":description" := Text(d.description)]
              [":author" := Text(d.author)]
              [":publication_date" := Integer(c.toTimeT(d.publicationDate))]
              [":duration_secs" := Integer(d.durationSecs)]
              [":url" := Blob(c.urlToEncoded(d.url))]
              [":listened" := Boolean(d.listened)]
              [":downloaded" := Boolean(d.downloaded)]
              [":local_url" := Blob(c.urlToEncoded(d.localUrl))]
              [":extra" := Blob(c.writeMap(d.extra))]
         == m + Bindings(d, c)
  {
    var bound: map<string, Value> := map[];
    BindOnTop(m, bound, ":podcast_database_id", Integer(d.podcastDatabaseId));
    bound := bound[":podcast_database_id" := Integer(d.podcastDatabaseId)];
    BindOnTop(m, bound, ":title", Text(d.title));
    bound := bound[":title" := Text(d.title)];
    BindOnTop(m, bound, ":description", Text(d.description));
    bound := bound[":description" := Text(d.description)];
    BindOnTop(m, bound, ":author", Text(d.author));
    bound := bound[":author" := Text(d.author)];
    BindOnTop(m, bound, ":publication_date", Integer(c.toTimeT(d.publicationDate)));
    bound := bound[":publication_date" := Integer(c.toTimeT(d.publicationDate))];
    BindOnTop(m, bound, ":duration_secs", Integer(d.durationSecs));
    bound := bound[":duration_secs" := Integer(d.durationSecs)];
    BindOnTop(m, bound, ":url", Blob(c.urlToEncoded(d.url)));
    bound := bound[":url" := Blob(c.urlToEncoded(d.url))];
    BindOnTop(m, bound, ":listened", Boolean(d.listened));
    bound := bound[":listened" := Boolean(d.listened)];
    BindOnTop(m, bound, ":downloaded", Boolean(d.downloaded));
    bound := bound[":downloaded" := Boolean(d.downloaded)];
    BindOnTop(m, bound, ":local_url", Blob(c.urlToEncoded(d.localUrl)));
    bound := bound[":local_url" := Blob(c.urlToEncoded(d.localUrl))];
    BindOnTop(m, bound, ":extra", Blob(c.writeMap(d.extra)));
    bound := bound[":extra" := Blob(c.writeMap(d.extra))];
    assert bound == Bindings(d, c);
  }

  /** A PodcastEpisode handle; copies share `data` and, since the record is a
      value, a change through one handle is never seen through another. */
  class PodcastEpisode {
    var data: EpisodeRecord

    /** A fresh episode: no database ids, unknown duration, neither listened nor downloaded. */
    constructor()
      ensures data == Default
      ensures data.databaseId == -1 && data.podcastDatabaseId == -1 && data.durationSecs == -1
      ensures !data.listened && !data.downloaded
    {
      data := Default;
    }

    /** The copy constructor: the new handle shares the other's record. */
    constructor Copy(other: EpisodeRecord)
      ensures data == other
    {
      data := other;
    }

    /** operator=. */
    method Assign(other: PodcastEpisode)
      modifies this
      ensures data == old(other.data)
    {
      data := other.data;
    }

    /** extra(key): the value under key, or an invalid QVariant; nothing changes. */
    function Extra(key: string): (v: Variant)
      reads this
      ensures key in data.extra ==> v == data.extra[key]
      ensures key !in data.extra ==> v == InvalidVariant
    {
      ValueOf(data.extra, key)
    }

    method SetDatabaseId(v: int)
      modifies this
      ensures data == old(data).(databaseId := v)
    {
      data := data.(databaseId := v);
    }

    method SetPodcastDatabaseId(v: int)
      modifies this
      ensures data == old(data).(podcastDatabaseId := v)
    {
      data := data.(podcastDatabaseId := v);
    }

    method SetTitle(v: string)
      modifies this
      ensures data == old(data).(title := v)
    {
      data := data.(title := v);
    }

    method SetDescription(v: string)
      modifies this
      ensures data == old(data).(description := v)
    {
      data := data.(description := v);
    }

    method SetAuthor(v: string)
      modifies this
      ensures data == old(data).(author := v)
    {
      data := data.(author := v);
    }

    method SetPublicationDate(v: DateTime)
      modifies this
      ensures data == old(data).(publicationDate := v)
    {
      data := data.(publicationDate := v);
    }

    method SetDurationSecs(v: int)
      modifies this
      ensures data == old(data).(durationSecs := v)
    {
      data := data.(durationSecs := v);
    }

    method SetUrl(v: Url)
      modifies this
      ensures data == old(data).(url := v)
    {
      data := data.(url := v);
    }

    method SetListened(v: bool)
      modifies this
      ensures data == old(data).(listened := v)
    {
      data := data.(listened := v);
    }

    method SetDownloaded(v: bool)
      modifies this
      ensures data == old(data).(downloaded := v)
    {
      data := data.(downloaded := v);
    }

    method SetLocalUrl(v: Url)
      modifies this
      ensures data == old(data).(localUrl := v)
    {
      data := data.(localUrl := v);
    }

    method SetExtra(v: VariantMap)
      modifies this
      ensures data == old(data).(extra := v)
    {
      data := data.(extra := v);
    }

    /** set_extra(key, value): that key now reads back the value, every other key reads as before. */
    method SetExtraValue(key: string, value: Variant)
      modifies this
      ensures data == old(data).(extra := old(data.extra)[key := value])
      ensures Extra(key) == value
      ensures forall k :: k != key ==> Extra(k) == old(Extra(k))
    {
      data := data.(extra := data.extra[key := value]);
    }

    /** Reads the current result row into every field. */
    method InitFromQuery(row: seq<Value>, c: Codecs)
      modifies this
      ensures data == FromRow(row, c)
    {
      data := data.(databaseId := ToInt(ValueAt(row, 0)));
      data := data.(podcastDatabaseId := ToInt(ValueAt(row, 1)));
      data := data.(title := ToText(ValueAt(row, 2)));
      data := data.(description := ToText(ValueAt(row, 3)));
      data := data.(author := ToText(ValueAt(row, 4)));
      data := data.(publicationDate := c.fromTimeT(ToInt(ValueAt(row, 5))));
      data := data.(durationSecs := ToInt(ValueAt(row, 6)));
      data := data.(url := c.urlFromEncoded(ToBytes(ValueAt(row, 7))));
      data := data.(listened := ToBool(ValueAt(row, 8)));
      data := data.(downloaded := ToBool(ValueAt(row, 9)));
      data := data.(localUrl := c.urlFromEncoded(ToBytes(ValueAt(row, 10))));
      data := data.(extra := c.readMap(ToBytes(ValueAt(row, 11))));
    }

    /** Binds every stored field to its placeholder; the episode is not changed. */
    method BindToQuery(q: Query, c: Codecs)
      modifies q
      ensures q.bindings == old(q.bindings) + Bindings(data, c)
    {
      var d := data;
      q.BindValue(":podcast_database_id", Integer(d.podcastDatabaseId));
      q.BindValue(":title", Text(d.title));
      q.BindValue(":description", Text(d.description));
      q.BindValue(":author", Text(d.author));
      q.BindValue(":publication_date", Integer(c.toTimeT(d.publicationDate)));
      q.BindValue(":duration_secs", Integer(d.durationSecs));
      q.BindValue(":url", Blob(c.urlToEncoded(d.url)));
      q.BindValue(":listened", Boolean(d.listened));
      q.BindValue(":downloaded", Boolean(d.downloaded));
      q.BindValue(":local_url", Blob(c.urlToEncoded(d.localUrl)));
      q.BindValue(":extra", Blob(c.writeMap(d.extra)));
      BindingInOrder(old(q.bindings), d, c);
    }
  }

  /** Copies behave as independent values: changing the copy leaves the original as it was. */
  method CopyIsIndependent(original: PodcastEpisode, title: string) returns (copy: PodcastEpisode)
    ensures fresh(copy)
    ensures copy.data == original.data.(title := title)
    ensures original.data == old(original.data)
  {
    copy := new PodcastEpisode.Copy(original.data);
    copy.SetTitle(title);
  }
}
