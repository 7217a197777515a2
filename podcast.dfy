/** Podcast (src/podcasts/podcast.cpp): a subscription, a copy-on-write value
    whose shared record is `Private`, its list of episodes, and its mapping
    onto the `podcasts` table. */
module Podcasts {

  import opened QtTypes
  import opened Sql
  import opened SqlStore
  import PodcastEpisodes

  type EpisodeRecord = PodcastEpisodes.EpisodeRecord

  /** kColumns: the stored columns, in the order the statements list them. */
  const Columns: seq<string> := [
    "url", "title", "description", "copyright", "link",
    "image_url", "author", "owner_name", "author_email", "extra"]

  /** kColumnSpec and kBindSpec. */
  const ColumnSpec: string := Join(Columns)
  const Placeholders: seq<string> := Prepend(":", Columns)
  const BindSpec: string := Join(Placeholders)

  /** The shared record (`Podcast::Private`). The episodes live in another table. */
  datatype PodcastRecord = PodcastRecord(
    databaseId: int,
    url: Url,
    title: string,
    description: string,
    copyright: string,
    link: Url,
    imageUrl: Url,
    author: string,
    ownerName: string,
    ownerEmail: string,
    extra: VariantMap,
    episodes: seq<EpisodeRecord>)

  /** What `Private()` holds: no database id, empty fields, no episodes. */
  const Default: PodcastRecord :=
    PodcastRecord(-1, EmptyUrl, "", "", "", EmptyUrl, EmptyUrl, "", "", "", map[], [])

  /** is_valid(): the podcast has been stored. */
  predicate IsValid(p: PodcastRecord)
  {
    p.databaseId != -1
  }

  /** The record InitFromQuery leaves: ROWID from index 0, column i from index
      i + 1; the episode list is not touched. */
  function FromRow(base: PodcastRecord, row: seq<Value>, c: Codecs): (p: PodcastRecord)
    ensures p.episodes == base.episodes
  {
    base.(
      databaseId := ToInt(ValueAt(row, 0)),
      url := c.urlFromEncoded(ToBytes(ValueAt(row, 1))),
      title := ToText(ValueAt(row, 2)),
      description := ToText(ValueAt(row, 3)),
      copyright := ToText(ValueAt(row, 4)),
      link := c.urlFromEncoded(ToBytes(ValueAt(row, 5))),
      imageUrl := c.urlFromEncoded(ToBytes(ValueAt(row, 6))),
      author := ToText(ValueAt(row, 7)),
      ownerName := ToText(ValueAt(row, 8)),
      ownerEmail := ToText(ValueAt(row, 9)),
      extra := c.readMap(ToBytes(ValueAt(row, 10))))
  }

  /** The bindings BindToQuery makes as the source writes it: the owner's
      e-mail goes to `:owner_email`, a name kBindSpec does not contain. */
  function BindingsAsWritten(p: PodcastRecord, c: Codecs): map<string, Value>
  {
    map[
      ":url" := Blob(c.urlToEncoded(p.url)),
      ":title" := Text(p.title),
      ":description" := Text(p.description),
      ":copyright" := Text(p.copyright),
      ":link" := Blob(c.urlToEncoded(p.link)),
      ":image_url" := Blob(c.urlToEncoded(p.imageUrl)),
      ":author" := Text(p.author),
      ":owner_name" := Text(p.ownerName),
      ":owner_email" := Text(p.ownerEmail),
      ":extra" := Blob(c.writeMap(p.extra))]
  }

  /** The bindings BindToQuery evidently means to make: the owner's e-mail
      goes to the placeholder of its column, `:author_email`. */
  function Bindings(p: PodcastRecord, c: Codecs): map<string, Value>
  {
    map[
      ":url" := Blob(c.urlToEncoded(p.url)),
      ":title" := Text(p.title),
      ":description" := Text(p.description),
      ":copyright" := Text(p.copyright),
      ":link" := Blob(c.urlToEncoded(p.link)),
      ":image_url" := Blob(c.urlToEncoded(p.imageUrl)),
      ":author" := Text(p.author),
      ":owner_name" := Text(p.ownerName),
      ":author_email" := Text(p.ownerEmail),
      ":extra" := Blob(c.writeMap(p.extra))]
  }

  /** The placeholder list, spelled out. */
  const PlaceholderNames: seq<string> := [
    ":url", ":title", ":description", ":copyright", ":link",
    ":image_url", ":author", ":owner_name", ":author_email", ":extra"]

  lemma PlaceholdersSpelled()
    ensures Placeholders == PlaceholderNames
  {
    forall i | 0 <= i < 10 ensures Placeholders[i] == PlaceholderNames[i] {
      if i == 0 {
        assert ":" + "url" == ":url";
      } else if i == 1 {
        assert ":" + "title" == ":title";
      } else if i == 2 {
        assert ":" + "description" == ":description";
      } else if i == 3 {
        assert ":" + "copyright" == ":copyright";
      } else if i == 4 {
        assert ":" + "link" == ":link";
      } else if i == 5 {
        assert ":" + "image_url" == ":image_url";
      } else if i == 6 {
        assert ":" + "author" == ":author";
      } else if i == 7 {
        assert ":" + "owner_name" == ":owner_name";
      } else if i == 8 {
        assert ":" + "author_email" == ":author_email";
      } else if i == 9 {
        assert ":" + "extra" == ":extra";
      }
    }
  }

  /** kColumnSpec lists the 10 columns joined by ", " in declaration order,
      kBindSpec the same columns each prefixed with ':', and each spec can be
      read back into its list. */
  lemma SpecsListTheColumns()
    ensures |Columns| == 10 && |Placeholders| == 10
    ensures forall i :: 0 <= i < 10 ==> Placeholders[i] == ":" + Columns[i]
    ensures Split(ColumnSpec) == Columns
    ensures Split(BindSpec) == Placeholders
  {
    SpecsAreDelimited();
    SplitJoin(Columns);
    SplitJoin(Placeholders);
  }

  /** The facts an INSERT built from the two specs needs: no name holds a
      comma or a closing parenthesis, and the bind spec opens with ':'. */
  lemma SpecsAreDelimited()
    ensures |Columns| >= 1 && Avoids(Columns, ',') && Avoids(Columns, ')')
    ensures |Placeholders| >= 1 && Avoids(Placeholders, ',')
    ensures |BindSpec| >= 1 && BindSpec[0] == ':'
  {
    assert Avoids(Columns, ',') && Avoids(Columns, ')') by {
      forall i | 0 <= i < |Columns| ensures ',' !in Columns[i] && ')' !in Columns[i] {}
    }
    PrependAvoids(":", Columns, ',');
    JoinStartsWithFirst(Placeholders);
    assert Placeholders[0] == ":" + Columns[0];
    assert BindSpec[..|Placeholders[0]|][0] == ':';
  }

  /** As written, BindToQuery binds every placeholder of kBindSpec but
      `:author_email`, and binds `:owner_email`, which kBindSpec lacks. */
  lemma AsWrittenMissesAuthorEmail(p: PodcastRecord, c: Codecs)
    ensures ":author_email" in Placeholders && ":author_email" !in BindingsAsWritten(p, c)
    ensures ":owner_email" in BindingsAsWritten(p, c) && ":owner_email" !in Placeholders
  {
    PlaceholdersSpelled();
    assert ":author_email" != ":owner_email" by {
      assert ":author_email"[1] != ":owner_email"[1];
    }
  }

  /** Those are the only differences: the names bound as written are the
      placeholders with `:author_email` traded for `:owner_email`. */
  lemma AsWrittenDiffersOnlyThere(p: PodcastRecord, c: Codecs)
    ensures BindingsAsWritten(p, c).Keys == (set q | q in Placeholders) - {":author_email"} + {":owner_email"}
  {
    PlaceholdersSpelled();
  }

  /** The row the as-written bindings store: every field in column order,
      NULL in the `author_email` column. */
  lemma AsWrittenStoredValues(p: PodcastRecord, c: Codecs)
    ensures StoredValues(Placeholders, BindingsAsWritten(p, c)) == [
      Blob(c.urlToEncoded(p.url)), Text(p.title), Text(p.description), Text(p.copyright),
      Blob(c.urlToEncoded(p.link)), Blob(c.urlToEncoded(p.imageUrl)), Text(p.author),
      Text(p.ownerName), Null, Blob(c.writeMap(p.extra))]
  {
    PlaceholdersSpelled();
    var b := BindingsAsWritten(p, c);
    assert ":author_email" !in b by {
      AsWrittenMissesAuthorEmail(p, c);
    }
  }

  /** As written, storing a podcast and reading it back loses the owner's
      e-mail: the `author_email` column is left NULL, which reads as "". */
  lemma AsWrittenRoundTrip(p: PodcastRecord, base: PodcastRecord, c: Codecs, rowid: int)
    requires c.Lossless()
    ensures FromRow(base, ResultRow(StoredRow(rowid, StoredValues(Placeholders, BindingsAsWritten(p, c)))), c)
         == p.(databaseId := rowid, ownerEmail := "", episodes := base.episodes)
  {
    AsWrittenStoredValues(p, c);
  }

  /** The counterexample: any podcast with a non-empty owner e-mail does not
      come back as it was stored. */
  lemma AsWrittenLosesOwnerEmail(p: PodcastRecord, c: Codecs, rowid: int)
    requires c.Lossless()
    requires p.ownerEmail != ""
    ensures FromRow(p, ResultRow(StoredRow(rowid, StoredValues(Placeholders, BindingsAsWritten(p, c)))), c)
         != p.(databaseId := rowid)
  {
    AsWrittenRoundTrip(p, p, c, rowid);
  }

  /** With the corrected names BindToQuery binds exactly the placeholders of
      kBindSpec: none missing, none extra. */
  lemma BindsExactlyThePlaceholders(p: PodcastRecord, c: Codecs)
    ensures Bindings(p, c).Keys == set q | q in Placeholders
  {
    PlaceholdersSpelled();
  }

  /** With the corrected names, storing a podcast and reading it back gives
      every stored field back, the ROWID as its database id; the episodes are
      those of the record read into, since they are not stored here. */
  lemma RoundTrip(p: PodcastRecord, base: PodcastRecord, c: Codecs, rowid: int)
    requires c.Lossless()
    ensures FromRow(base, ResultRow(StoredRow(rowid, StoredValues(Placeholders, Bindings(p, c)))), c)
         == p.(databaseId := rowid, episodes := base.episodes)
  {
    PlaceholdersSpelled();
  }

  /** Binding the names one after another, in BindToQuery's order, on top
      of earlier bindings gives the earlier bindings overridden by Bindings. */
  lemma BindingInOrder(m: map<string, Value>, d: PodcastRecord, c: Codecs)
    ensures m
              [":url" := Blob(c.urlToEncoded(d.url))]
              [":title" := Text(d.title)]
              [":description" := Text(d.description)]
              [":copyright" := Text(d.copyright)]
              [":link" := Blob(c.urlToEncoded(d.link))]
              [":image_url" := Blob(c.urlToEncoded(d.imageUrl))]
              [":author" := Text(d.author)]
              [":owner_name" := Text(d.ownerName)]
              [":author_email" := Text(d.ownerEmail)]
              [":extra" := Blob(c.writeMap(d.extra))]
         == m + Bindings(d, c)
  {
    var bound: map<string, Value> := map[];
    BindOnTop(m, bound, ":url", Blob(c.urlToEncoded(d.url)));
    bound := bound[":url" := Blob(c.urlToEncoded(d.url))];
    BindOnTop(m, bound, ":title", Text(d.title));
    bound := bound[":title" := Text(d.title)];
    BindOnTop(m, bound, ":description", Text(d.description));
    bound := bound[":description" := Text(d.description)];
    BindOnTop(m, bound, ":copyright", Text(d.copyright));
    bound := bound[":copyright" := Text(d.copyright)];
    BindOnTop(m, bound, ":link", Blob(c.urlToEncoded(d.link)));
    bound := bound[":link" := Blob(c.urlToEncoded(d.link))];
    BindOnTop(m, bound, ":image_url", Blob(c.urlToEncoded(d.imageUrl)));
    bound := bound[":image_url" := Blob(c.urlToEncoded(d.imageUrl))];
    BindOnTop(m, bound, ":author", Text(d.author));
    bound := bound[":author" := Text(d.author)];
    BindOnTop(m, bound, ":owner_name", Text(d.ownerName));
    bound := bound[":owner_name" := Text(d.ownerName)];
    BindOnTop(m, bound, ":author_email", Text(d.ownerEmail));
    bound := bound[":author_email" := Text(d.ownerEmail)];
    BindOnTop(m, bound, ":extra", Blob(c.writeMap(d.extra)));
    bound := bound[":extra" := Blob(c.writeMap(d.extra))];
    assert bound == Bindings(d, c);
  }

  /** A Podcast handle; copies share `data` and, since the record is a value,
      a change through one handle is never seen through another. */
  class Podcast {
    var data: PodcastRecord

    /** A fresh podcast: no database id and no episodes. */
    constructor()
      ensures data == Default
      ensures data.databaseId == -1 && data.episodes == []
    {
      data := Default;
    }

    /** The copy constructor: the new handle shares the other's record. */
    constructor Copy(other: PodcastRecord)
      ensures data == other
    {
      data := other;
    }

    /** operator=. */
    method Assign(other: Podcast)
      modifies this
      ensures data == old(other.data)
    {
      data := other.data;
    }

    /** extra(key): the value under key, or an invalid QVariant; nothing changes. */
    function Extra(key: string): (v: Variant)
      reads this
      ensures key in data.extra ==> v == data.extra[key]
      ensures key !in data.extra ==> v == InvalidVariant
    {
      ValueOf(data.extra, key)
    }

    /** episodes(). */
    function Episodes(): (es: seq<EpisodeRecord>)
      reads this
      ensures es == data.episodes
    {
      data.episodes
    }

    method SetDatabaseId(v: int)
      modifies this
      ensures data == old(data).(databaseId := v)
    {
      data := data.(databaseId := v);
    }

    method SetUrl(v: Url)
      modifies this
      ensures data == old(data).(url := v)
    {
      data := data.(url := v);
    }

    method SetTitle(v: string)
      modifies this
      ensures data == old(data).(title := v)
    {
      data := data.(title := v);
    }

    method SetDescription(v: string)
      modifies this
      ensures data == old(data).(description := v)
    {
      data := data.(description := v);
    }

    method SetCopyright(v: string)
      modifies this
      ensures data == old(data).(copyright := v)
    {
      data := data.(copyright := v);
    }

    method SetLink(v: Url)
      modifies this
      ensures data == old(data).(link := v)
    {
      data := data.(link := v);
    }

    method SetImageUrl(v: Url)
      modifies this
      ensures data == old(data).(imageUrl := v)
    {
      data := data.(imageUrl := v);
    }

    method SetAuthor(v: string)
      modifies this
      ensures data == old(data).(author := v)
    {
      data := data.(author := v);
    }

    method SetOwnerName(v: string)
      modifies this
      ensures data == old(data).(ownerName := v)
    {
      data := data.(ownerName := v);
    }

    method SetOwnerEmail(v: string)
      modifies this
      ensures data == old(data).(ownerEmail := v)
    {
      data := data.(ownerEmail := v);
    }

    method SetExtra(v: VariantMap)
      modifies this
      ensures data == old(data).(extra := v)
    {
      data := data.(extra := v);
    }

    /** set_extra(key, value): that key now reads back the value, every other key reads as before. */
    method SetExtraValue(key: string, value: Variant)
      modifies this
      ensures data == old(data).(extra := old(data.extra)[key := value])
      ensures Extra(key) == value
      ensures forall k :: k != key ==> Extra(k) == old(Extra(k))
    {
      data := data.(extra := data.extra[key := value]);
    }

    /** set_episodes: the list is replaced as a whole. */
    method SetEpisodes(v: seq<EpisodeRecord>)
      modifies this
      ensures data == old(data).(episodes := v)
    {
      data := data.(episodes := v);
    }

    /** add_episode: the episode goes at the end, the others stay in order. */
    method AddEpisode(episode: EpisodeRecord)
      modifies this
      ensures data == old(data).(episodes := old(data.episodes) + [episode])
      ensures Episodes()[..|old(Episodes())|] == old(Episodes())
      ensures Episodes()[|Episodes()| - 1] == episode
    {
      data := data.(episodes := data.episodes + [episode]);
    }

    /** An edit through mutable_episodes(): episode i is replaced in place,
        the rest of the list and of the record stay as they were. */
    method SetEpisodeAt(i: nat, episode: EpisodeRecord)
      requires i < |data.episodes|
      modifies this
      ensures data == old(data).(episodes := old(data.episodes)[i := episode])
    {
      data := data.(episodes := data.episodes[i := episode]);
    }

    /** Reads the current result row into every stored field; the episodes stay. */
    method InitFromQuery(row: seq<Value>, c: Codecs)
      modifies this
      ensures data == FromRow(old(data), row, c)
      ensures data.episodes == old(data.episodes)
    {
      data := data.(databaseId := ToInt(ValueAt(row, 0)));
      data := data.(url := c.urlFromEncoded(ToBytes(ValueAt(row, 1))));
      data := data.(title := ToText(ValueAt(row, 2)));
      data := data.(description := ToText(ValueAt(row, 3)));
      data := data.(copyright := ToText(ValueAt(row, 4)));
      data := data.(link := c.urlFromEncoded(ToBytes(ValueAt(row, 5))));
      data := data.(imageUrl := c.urlFromEncoded(ToBytes(ValueAt(row, 6))));
      data := data.(author := ToText(ValueAt(row, 7)));
      data := data.(ownerName := ToText(ValueAt(row, 8)));
      data := data.(ownerEmail := ToText(ValueAt(row, 9)));
      data := data.(extra := c.readMap(ToBytes(ValueAt(row, 10))));
    }

    /** Binds every stored field to its placeholder, with the owner's e-mail
        under `:author_email` (see AsWrittenMissesAuthorEmail for the source's
        name); the podcast is not changed. */
    method BindToQuery(q: Query, c: Codecs)
      modifies q
      ensures q.bindings == old(q.bindings) + Bindings(data, c)
    {
      var d := data;
      q.BindValue(":url", Blob(c.urlToEncoded(d.url)));
      q.BindValue(":title", Text(d.title));
      q.BindValue(":description", Text(d.description));
      q.BindValue(":copyright", Text(d.copyright));
      q.BindValue(":link", Blob(c.urlToEncoded(d.link)));
      q.BindValue(":image_url", Blob(c.urlToEncoded(d.imageUrl)));
      q.BindValue(":author", Text(d.author));
      q.BindValue(":owner_name", Text(d.ownerName));
      q.BindValue(":author_email", Text(d.ownerEmail));
      q.BindValue(":extra", Blob(c.writeMap(d.extra)));
      BindingInOrder(old(q.bindings), d, c);
    }
  }

  /** Copies behave as independent values: changing the copy leaves the original as it was. */
  method CopyIsIndependent(original: Podcast, episode: EpisodeRecord) returns (copy: Podcast)
    ensures fresh(copy)
    ensures copy.data == original.data.(episodes := original.data.episodes + [episode])
    ensures original.data == old(original.data)
  {
    copy := new Podcast.Copy(original.data);
    copy.AddEpisode(episode);
  }
}
