/**
 The reader's parse cache: parsed events reused by file identity, extended when
 the file has grown over an unchanged prefix, dropped otherwise (readJournal).
 */
module JournalCache {
  import opened Wrappers
  import opened JournalText

  const CACHE_LIMIT: nat := 32

  type Path = string

  /** A journal as fstat and the following reads show it. */
  datatype FileImage = FileImage(device: int, inode: int, modifiedAt: int, changedAt: int, bytes: seq<Byte>)

  datatype Entry<B, D> = Entry(device: int, inode: int, byteOffset: nat, modifiedAt: int, changedAt: int,
                               endsWithNewline: bool, prefixDigest: D, events: seq<Event<B>>, lastCursor: nat)

  /** Two images with the same identity, size and times hold the same bytes. */
  ghost predicate StampsTellBytes(images: set<FileImage>) {
    forall a, b | a in images && b in images
                  && a.device == b.device && a.inode == b.inode && |a.bytes| == |b.bytes|
                  && a.modifiedAt == b.modifiedAt && a.changedAt == b.changedAt :: a.bytes == b.bytes
  }

  ghost predicate CollisionFree<D>(digest: seq<Byte> -> D) {
    forall a, b :: digest(a) == digest(b) ==> a == b
  }

  /** New bytes parsed on top of the cached events give the parse of the whole file, errors included. */
  lemma GrowthParsesAsWhole<B>(c: Codec<B>, prefix: seq<Byte>, appended: seq<Byte>, events: seq<Event<B>>)
    requires EndsLine(prefix) && Parse(c, prefix) == Ok(events)
    ensures ParseLines(c, Lines(appended), events, LastCursor(events)) == Parse(c, prefix + appended)
  {
    LinesConcat(prefix, appended);
    ParseResumes(c, Lines(prefix), Lines(appended), [], 0);
  }

  /** A JavaScript Map: its rows in insertion order, one to a path. */
  datatype Row<B, D> = Row(path: Path, entry: Entry<B, D>)

  predicate OneToAPath<B, D>(rows: seq<Row<B, D>>) {
    forall i, j | 0 <= i < j < |rows| :: rows[i].path != rows[j].path
  }

  function Find<B, D>(rows: seq<Row<B, D>>, path: Path): (r: Option<Entry<B, D>>)
    ensures r.Some? ==> exists i | 0 <= i < |rows| :: rows[i] == Row(path, r.value)
    ensures r.None? ==> forall i | 0 <= i < |rows| :: rows[i].path != path
  {
    if rows == [] then None else if rows[0].path == path then Some(rows[0].entry) else Find(rows[1..], path)
  }

  function Drop<B, D>(rows: seq<Row<B, D>>, path: Path): (r: seq<Row<B, D>>)
    ensures |r| <= |rows|
    ensures forall i | 0 <= i < |r| :: r[i].path != path && exists j | 0 <= j < |rows| :: rows[j] == r[i]
  {
    if rows == [] then []
    else if rows[0].path == path then Drop(rows[1..], path)
    else [rows[0]] + Drop(rows[1..], path)
  }

  /** The row becomes the newest; the oldest rows beyond the limit go. */
  function Put<B, D>(rows: seq<Row<B, D>>, path: Path, entry: Entry<B, D>): seq<Row<B, D>> {
    Newest(Drop(rows, path) + [Row(path, entry)])
  }

  function Newest<B, D>(rows: seq<Row<B, D>>): seq<Row<B, D>> {
    if |rows| > CACHE_LIMIT then rows[|rows| - CACHE_LIMIT..] else rows
  }

  lemma {:induction false} DropKeepsOne<B, D>(rows: seq<Row<B, D>>, path: Path)
    requires OneToAPath(rows)
    ensures OneToAPath(Drop(rows, path))
    ensures (exists i | 0 <= i < |rows| :: rows[i].path == path) ==> |Drop(rows, path)| < |rows|
  {
    if rows != [] {
      assert forall i | 0 < i < |rows| :: rows[i] == rows[1..][i - 1];
      DropKeepsOne(rows[1..], path);
    }
  }

  lemma {:induction false} DropAgain<B, D>(rows: seq<Row<B, D>>, path: Path, entry: Entry<B, D>)
    ensures Drop(Drop(rows, path) + [Row(path, entry)], path) == Drop(rows, path)
  {
    if rows == [] {
      var one := [Row(path, entry)];
      assert [] + one == one && one[1..] == [];
    } else {
      DropAgain(rows[1..], path, entry);
      if rows[0].path != path {
        var rest := Drop(rows[1..], path) + [Row(path, entry)];
        assert Drop(rows, path) + [Row(path, entry)] == [rows[0]] + rest;
        DropFirst(rows[0], rest, path);
      }
    }
  }

  lemma DropFirst<B, D>(first: Row<B, D>, rest: seq<Row<B, D>>, path: Path)
    requires first.path != path
    ensures Drop([first] + rest, path) == [first] + Drop(rest, path)
  {
    assert ([first] + rest)[1..] == rest;
  }

  ghost predicate Reads<B, D>(c: Codec<B>, digest: seq<Byte> -> D, e: Entry<B, D>, f: FileImage) {
    && e.device == f.device && e.inode == f.inode && e.byteOffset == |f.bytes|
    && e.modifiedAt == f.modifiedAt && e.changedAt == f.changedAt
    && e.endsWithNewline == EndsLine(f.bytes)
    && e.prefixDigest == digest(f.bytes)
    && Parse(c, f.bytes) == Ok(e.events)
    && e.lastCursor == LastCursor(e.events)
  }

  /** The entry was read from a file that was really there. */
  ghost predicate Backed<B, D>(c: Codec<B>, digest: seq<Byte> -> D, e: Entry<B, D>, seen: set<FileImage>) {
    exists f :: f in seen && Reads(c, digest, e, f)
  }

  ghost predicate AllBacked<B, D>(c: Codec<B>, digest: seq<Byte> -> D, rows: seq<Row<B, D>>, seen: set<FileImage>) {
    forall i | 0 <= i < |rows| :: Backed(c, digest, rows[i].entry, seen)
  }

  /** A cached entry answers for the file now found, or its verified prefix does. */
  lemma BackedAnswers<B, D>(c: Codec<B>, digest: seq<Byte> -> D, e: Entry<B, D>, seen: set<FileImage>, file: FileImage)
    requires CollisionFree(digest) && StampsTellBytes(seen) && file in seen && Backed(c, digest, e, seen)
    requires e.device == file.device && e.inode == file.inode && e.byteOffset <= |file.bytes|
    ensures e.byteOffset == |file.bytes| && e.modifiedAt == file.modifiedAt && e.changedAt == file.changedAt ==>
              Parse(c, file.bytes) == Ok(e.events)
    ensures e.endsWithNewline && digest(file.bytes[..e.byteOffset]) == e.prefixDigest ==>
              ParseLines(c, Lines(file.bytes[e.byteOffset..]), e.events, e.lastCursor) == Parse(c, file.bytes)
  {
    var f :| f in seen && Reads(c, digest, e, f);
    var prefix := file.bytes[..e.byteOffset];
    if e.endsWithNewline && digest(prefix) == e.prefixDigest {
      GrowthParsesAsWhole(c, prefix, file.bytes[e.byteOffset..], e.events);
      assert prefix + file.bytes[e.byteOffset..] == file.bytes;
    }
  }

  function EntryFor<B, D>(digest: seq<Byte> -> D, f: FileImage, events: seq<Event<B>>): Entry<B, D> {
    Entry(f.device, f.inode, |f.bytes|, f.modifiedAt, f.changedAt, EndsLine(f.bytes), digest(f.bytes), events, LastCursor(events))
  }

  class ReadCache<B, D(==)> {
    const codec: Codec<B>
    const digest: seq<Byte> -> D
    var rows: seq<Row<B, D>>
    ghost var seen: set<FileImage>  // every file ever looked at

    ghost predicate Valid()
      reads this
    {
      |rows| <= CACHE_LIMIT && OneToAPath(rows) && AllBacked(codec, digest, rows, seen)
    }

    constructor (codec: Codec<B>, digest: seq<Byte> -> D)
      ensures Valid() && rows == [] && seen == {}
      ensures this.codec == codec && this.digest == digest
    {
      this.codec, this.digest := codec, digest;
      rows, seen := [], {};
    }

    /** Map.delete: after a failed parse, a missing file, or an append whose fsync failed. */
    method Forget(path: Path)
      requires Valid()
      modifies this`rows
      ensures Valid() && rows == Drop(old(rows), path)
    {
      DropKeepsOne(rows, path);
      rows := Drop(rows, path);
    }

    /** cacheJournalRead */
    method Remember(path: Path, entry: Entry<B, D>)
      requires Valid() && Backed(codec, digest, entry, seen)
      modifies this`rows
      ensures Valid() && rows == Put(old(rows), path, entry)
    {
      Forget(path);
      rows := rows + [Row(path, entry)];
      ghost var all := rows;
      while |rows| > CACHE_LIMIT
        invariant |rows| <= |all| <= CACHE_LIMIT + 1 && rows == all[|all| - |rows|..]
        invariant |rows| < |all| ==> |rows| == CACHE_LIMIT
      {
        rows := rows[1..];
      }
    }

    /**
     readJournal on the file found at `path` now. Whatever happened to the file
     since the last look, the answer is the parse of its whole text.
     */
    method ReadJournal(path: Path, file: Option<FileImage>) returns (r: Result<seq<Event<B>>, JournalError>)
      requires Valid() && CollisionFree(digest)
      requires StampsTellBytes(seen + if file.Some? then {file.value} else {})
      modifies this
      ensures Valid() && seen == old(seen) + if file.Some? then {file.value} else {}
      ensures r == if file.None? then Ok([]) else Parse(codec, file.value.bytes)
      ensures rows == Settled(digest, old(rows), path, file, r)
    {
      if file.None? {
        Forget(path);
        return Ok([]);
      }
      Seen(file.value);
      r := ReadFound(path, file.value);
    }

    /** readJournal past its stat: the file is there. */
    method ReadFound(path: Path, stat: FileImage) returns (r: Result<seq<Event<B>>, JournalError>)
      requires Valid() && CollisionFree(digest) && StampsTellBytes(seen) && stat in seen
      modifies this`rows
      ensures Valid() && r == Parse(codec, stat.bytes)
      ensures rows == Settled(digest, old(rows), path, Some(stat), r)
    {
      var size := |stat.bytes|;
      var found := Find(rows, path);
      if found.Some? {
        var cached := found.value;
        Remember(path, cached);
        RefreshedOnce(old(rows), path, cached);
        var sameFile := cached.device == stat.device && cached.inode == stat.inode;
        if sameFile && size >= cached.byteOffset {
          BackedAnswers(codec, digest, cached, seen, stat);
          if size == cached.byteOffset && stat.modifiedAt == cached.modifiedAt && stat.changedAt == cached.changedAt {
            return Ok(cached.events);
          }
          if size > cached.byteOffset && cached.endsWithNewline {
            if digest(stat.bytes[..cached.byteOffset]) == cached.prefixDigest {
              var appended := stat.bytes[cached.byteOffset..];
              r := ParseJournalLines(codec, appended, cached.events, Some(cached.lastCursor));
              Keep(path, stat, r);
              return;
            }
          }
        }
      }
      r := ParseJournalLines(codec, stat.bytes, [], None);
      Keep(path, stat, r);
    }

    /** What both parsing branches do with their outcome. */
    method Keep(path: Path, stat: FileImage, r: Result<seq<Event<B>>, JournalError>)
      requires Valid() && stat in seen && r == Parse(codec, stat.bytes)
      modifies this`rows
      ensures Valid()
      ensures rows == if r.Ok? then Put(old(rows), path, EntryFor(digest, stat, r.value)) else Drop(old(rows), path)
    {
      if r.Err? {
        Forget(path);
      } else {
        assert Reads(codec, digest, EntryFor(digest, stat, r.value), stat);
        Remember(path, EntryFor(digest, stat, r.value));
      }
    }

    ghost method Seen(stat: FileImage)
      requires Valid()
      modifies this`seen
      ensures Valid() && seen == old(seen) + {stat}
    {
      seen := seen + {stat};
      forall i | 0 <= i < |rows| ensures Backed(codec, digest, rows[i].entry, seen) {
        var f :| f in old(seen) && Reads(codec, digest, rows[i].entry, f);
        assert f in seen;
      }
    }
  }

  /** What a read leaves in the cache: the path refreshed with what the file holds, or dropped. */
  function Settled<B, D>(digest: seq<Byte> -> D, rows: seq<Row<B, D>>, path: Path, file: Option<FileImage>,
                         r: Result<seq<Event<B>>, JournalError>): seq<Row<B, D>> {
    if file.None? || r.Err? then Drop(rows, path) else Put(rows, path, EntryFor(digest, file.value, r.value))
  }

  /** A cached path is refreshed before its entry is replaced or dropped; only one move shows. */
  lemma RefreshedOnce<B, D>(rows: seq<Row<B, D>>, path: Path, entry: Entry<B, D>)
    requires |rows| <= CACHE_LIMIT && OneToAPath(rows) && Find(rows, path) == Some(entry)
    ensures forall e :: Put(Put(rows, path, entry), path, e) == Put(rows, path, e)
    ensures Drop(Put(rows, path, entry), path) == Drop(rows, path)
  {
    DropKeepsOne(rows, path);
    DropAgain(rows, path, entry);
  }
}
