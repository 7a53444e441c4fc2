/**
 * The content store: an append-only byte log (Cache) paired with an ordered
 * index (CacheIndex) whose entries record where each blob sits in the log.
 * A CacheObject joins one log and one index.
 *
 * The index is a singly-linked list of caller-allocated IndexNode objects,
 * appended at the tail through the `last` pointer; the ghost sequence `nodes`
 * lists them in order and `Contents` is their value. The files the store is
 * written to are modelled as the sequences last written to them.
 */
module Cache {

  type byte = x: int | 0 <= x < 256

  /** An element of the digest array (C `short`). */
  type Short = x: int | -0x8000 <= x < 0x8000

  /** Number of digest elements (a SHA-1 digest). */
  const HashSize: nat := 20

  /** A content digest: always exactly HashSize elements. */
  type Digest = d: seq<Short> | |d| == HashSize witness seq(HashSize, k => 0)

  /** The value of one index record. */
  datatype IndexEntry = IndexEntry(start: nat, len: nat, filePath: string, sha1: Digest)

  /** The bytes of the blobs laid end to end. */
  function Concat(blobs: seq<seq<byte>>): seq<byte>
  {
    if blobs == [] then [] else Concat(blobs[..|blobs| - 1]) + blobs[|blobs| - 1]
  }

  /**
   * The index entries describe the log exactly: the log is the blobs end to
   * end, and entry k covers blob k, starting where blob k - 1 ended.
   */
  ghost predicate Tiles(log: seq<byte>, entries: seq<IndexEntry>, blobs: seq<seq<byte>>)
  {
    |entries| == |blobs| && log == Concat(blobs) &&
    forall k :: 0 <= k < |entries| ==>
      entries[k].start == |Concat(blobs[..k])| && entries[k].len == |blobs[k]|
  }

  /** The blobs before blob m are laid out at the head of the whole log. */
  lemma {:induction false} ConcatPrefix(blobs: seq<seq<byte>>, m: nat)
    requires m <= |blobs|
    ensures Concat(blobs[..m]) <= Concat(blobs)
    decreases |blobs|
  {
    if m < |blobs| {
      var front := blobs[..|blobs| - 1];
      assert front[..m] == blobs[..m];
      ConcatPrefix(front, m);
    } else {
      assert blobs[..m] == blobs;
    }
  }

  /**
   * Recording an entry at the current end of the log and then appending its
   * buffer keeps the log and the index in lock-step.
   */
  lemma TilesAppend(log: seq<byte>, entries: seq<IndexEntry>, blobs: seq<seq<byte>>,
                    buf: seq<byte>, path: string, digest: Digest)
    requires Tiles(log, entries, blobs)
    ensures Tiles(log + buf, entries + [IndexEntry(|log|, |buf|, path, digest)], blobs + [buf])
  {
    var blobs' := blobs + [buf];
    assert blobs'[..|blobs'| - 1] == blobs;
    forall k | 0 <= k < |blobs|
      ensures blobs'[..k] == blobs[..k]
    {
    }
    assert blobs'[..|blobs|] == blobs;
  }

  /**
   * In a store whose index tiles its log, every entry's byte range lies in the
   * log and reading it gives back exactly the blob stored under that entry.
   */
  lemma TilesRead(log: seq<byte>, entries: seq<IndexEntry>, blobs: seq<seq<byte>>, k: nat)
    requires Tiles(log, entries, blobs) && k < |entries|
    ensures entries[k].start + entries[k].len <= |log|
    ensures log[entries[k].start .. entries[k].start + entries[k].len] == blobs[k]
  {
    ConcatPrefix(blobs, k + 1);
    var upto := blobs[..k + 1];
    assert upto[..|upto| - 1] == blobs[..k];
    assert Concat(upto) == Concat(blobs[..k]) + blobs[k];
  }

  /** One record of the index list (struct cache_index_entry_list). */
  class IndexNode {
    var start: nat
    var len: nat
    var filePath: string
    var sha1: Digest
    var next: IndexNode?

    /** A node prepared by the caller with the path it will index. */
    constructor (filePath: string)
      ensures this.filePath == filePath && next == null
    {
      start, len := 0, 0;
      this.filePath := filePath;
      sha1 := seq(HashSize, k => 0);
      next := null;
    }
  }

  /** The content log (struct cache). */
  class Cache {
    var numEntries: int
    var cacheBuf: seq<byte>
    var cachefile: seq<byte>
    var flushed: bool

    constructor ()
      ensures numEntries == 0 && cacheBuf == [] && cachefile == [] && !flushed
    {
      numEntries, cacheBuf, cachefile, flushed := 0, [], [], false;
    }
  }

  /** The content index (struct cache_index). */
  class CacheIndex {
    var num: nat
    var idxfile: seq<IndexEntry>
    var flushed: bool
    var entries: IndexNode?
    var last: IndexNode?
    ghost var nodes: seq<IndexNode>
    ghost var Contents: seq<IndexEntry>

    /**
     * `entries` heads a null-terminated chain through exactly `nodes`, `last`
     * is its tail, `num` is its length, and Contents is what the nodes hold.
     */
    ghost predicate Valid()
      reads this, nodes
    {
      |nodes| == |Contents| == num &&
      (nodes == [] ==> entries == null && last == null) &&
      (nodes != [] ==> entries == nodes[0] && last == nodes[|nodes| - 1] && last.next == null) &&
      (forall k :: 0 <= k < |nodes| - 1 ==> nodes[k].next == nodes[k + 1]) &&
      (forall k, l :: 0 <= k < l < |nodes| ==> nodes[k] != nodes[l]) &&
      (forall k :: 0 <= k < |nodes| ==>
        Contents[k] == IndexEntry(nodes[k].start, nodes[k].len, nodes[k].filePath, nodes[k].sha1))
    }

    constructor ()
      ensures Valid() && nodes == [] && Contents == []
      ensures num == 0 && idxfile == [] && !flushed
    {
      num, idxfile, flushed := 0, [], false;
      entries, last := null, null;
      nodes, Contents := [], [];
    }

    /**
     * Fills a node that is not yet in the list with an entry's offset, length
     * and digest, links it after `last` and makes it the new `last`.
     */
    method Link(node: IndexNode, start: nat, len: nat, sha1: Digest)
      requires Valid() && node !in nodes
      modifies this, nodes, node
      ensures Valid()
      ensures nodes == old(nodes) + [node] && last == node
      ensures Contents == old(Contents) + [IndexEntry(start, len, old(node.filePath), sha1)]
      ensures num == old(num) + 1 && idxfile == old(idxfile) && flushed == old(flushed)
    {
      node.start, node.len, node.sha1 := start, len, sha1;
      node.next := null;
      if last == null {
        entries := node;
      } else {
        last.next := node;
      }
      last := node;
      num := num + 1;
      nodes := nodes + [node];
      Contents := Contents + [IndexEntry(start, len, node.filePath, sha1)];
    }
  }

  /** One log and one index, always added to, written and flushed together (struct cache_object). */
  class CacheObject {
    const cc: Cache
    const ci: CacheIndex
    /** The buffer passed to each addindex, in order. */
    ghost var blobs: seq<seq<byte>>
    ghost var Repr: set<object>

    /**
     * The index is well formed, its count and the log's count are equal, and
     * the two flushed flags agree.
     */
    ghost predicate Valid()
      reads this, Repr
    {
      this in Repr && cc in Repr && ci in Repr &&
      (forall n :: n in ci.nodes ==> n in Repr) &&
      ci.Valid() &&
      cc.numEntries == ci.num &&
      cc.flushed == ci.flushed &&
      |blobs| == |ci.Contents|
    }

    /** Every byte of the log belongs to exactly one index entry, in order. */
    ghost predicate InStep()
      reads this, Repr
      requires Valid()
    {
      Tiles(cc.cacheBuf, ci.Contents, blobs)
    }

    /** cache_object_init: an empty, unflushed log and index. */
    constructor ()
      ensures Valid() && InStep() && fresh(Repr)
      ensures cc.cacheBuf == [] && cc.numEntries == 0 && ci.num == 0 && ci.Contents == []
      ensures !cc.flushed && !ci.flushed
      ensures cc.cachefile == [] && ci.idxfile == []
    {
      cc := new Cache();
      ci := new CacheIndex();
      blobs := [];
      new;
      Repr := {this, cc, ci};
    }

    /** cache_object_add: appends the buffer's bytes to the log; nothing else changes. */
    method Add(buf: seq<byte>)
      requires Valid() && !cc.flushed
      modifies cc
      ensures Valid()
      ensures cc.cacheBuf == old(cc.cacheBuf) + buf
      ensures cc.numEntries == old(cc.numEntries) && cc.cachefile == old(cc.cachefile) && !cc.flushed
    {
      cc.cacheBuf := cc.cacheBuf + buf;
    }

    /**
     * cache_object_add_file: a regular file's bytes go through Add; anything
     * else is refused and the store is left as it was.
     */
    method AddFile(f: OpenFile)
      requires Valid() && !cc.flushed
      modifies cc
      ensures Valid()
      ensures cc.cacheBuf == old(cc.cacheBuf) + (if f.RegularFile? then f.contents else [])
      ensures cc.numEntries == old(cc.numEntries) && cc.cachefile == old(cc.cachefile) && !cc.flushed
    {
      if f.RegularFile? {
        Add(f.contents);
      }
    }

    /**
     * cache_object_addindex: fills the caller's node with the current log
     * offset, the buffer's length and its digest, links it after `last`, and
     * counts it in both the index and the log.
     */
    method AddIndex(buf: seq<byte>, node: IndexNode, digest: Digest)
      requires Valid() && !cc.flushed && node !in Repr
      modifies this, cc, ci, ci.nodes, node
      ensures Valid() && Repr == old(Repr) + {node}
      ensures ci.Contents == old(ci.Contents) + [IndexEntry(old(|cc.cacheBuf|), |buf|, old(node.filePath), digest)]
      ensures ci.nodes == old(ci.nodes) + [node]
      ensures ci.num == old(ci.num) + 1 && cc.numEntries == old(cc.numEntries) + 1
      ensures blobs == old(blobs) + [buf]
      ensures cc.cacheBuf == old(cc.cacheBuf) && !cc.flushed
      ensures cc.cachefile == old(cc.cachefile) && ci.idxfile == old(ci.idxfile)
      ensures old(InStep()) ==> Tiles(cc.cacheBuf + buf, ci.Contents, blobs)
    {
      ghost var wasInStep := InStep();
      ci.Link(node, |cc.cacheBuf|, |buf|, digest);
      cc.numEntries := cc.numEntries + 1;
      if wasInStep {
        TilesAppend(cc.cacheBuf, old(ci.Contents), blobs, buf, node.filePath, digest);
      }
      blobs := blobs + [buf];
      Repr := Repr + {node};
    }

    /**
     * cache_object_write: writes the log buffer to the log file and the index
     * list, walked from its head, to the index file, then sets both flushed
     * flags; on a flushed store it writes nothing.
     */
    method Write()
      requires Valid()
      modifies cc, ci
      ensures Valid() && cc.flushed && ci.flushed
      ensures !old(cc.flushed) ==> cc.cachefile == cc.cacheBuf && ci.idxfile == ci.Contents
      ensures old(cc.flushed) ==> cc.cachefile == old(cc.cachefile) && ci.idxfile == old(ci.idxfile)
      ensures cc.cacheBuf == old(cc.cacheBuf) && ci.Contents == old(ci.Contents)
      ensures cc.numEntries == old(cc.numEntries) && ci.num == old(ci.num)
    {
      if !cc.flushed {
        cc.cachefile := cc.cacheBuf;
        var records: seq<IndexEntry> := [];
        var p := ci.entries;
        ghost var k := 0;
        while p != null
          invariant 0 <= k <= |ci.nodes|
          invariant p == (if k < |ci.nodes| then ci.nodes[k] else null)
          invariant records == ci.Contents[..k]
          decreases |ci.nodes| - k
        {
          records := records + [IndexEntry(p.start, p.len, p.filePath, p.sha1)];
          p := p.next;
          k := k + 1;
        }
        ci.idxfile := records;
        cc.flushed := true;
        ci.flushed := true;
      }
    }
  }

  /** What the caller hands to cache_object_add_file. */
  datatype OpenFile = RegularFile(contents: seq<byte>) | NotRegularFile

  /**
   * One blob stored the way callers pair the calls: a fresh node for the
   * path, its index entry first, at the current end of the log, then its
   * bytes. A store whose index tiles its log still does afterwards, with one
   * more entry for the new blob.
   */
  method StoreBlob(co: CacheObject, buf: seq<byte>, path: string, digest: Digest)
    requires co.Valid() && !co.cc.flushed
    modifies co.Repr
    ensures co.Valid() && fresh(co.Repr - old(co.Repr)) && !co.cc.flushed
    ensures old(co.InStep()) ==> co.InStep()
    ensures co.ci.Contents == old(co.ci.Contents) + [IndexEntry(old(|co.cc.cacheBuf|), |buf|, path, digest)]
    ensures co.cc.cacheBuf == old(co.cc.cacheBuf) + buf
    ensures co.blobs == old(co.blobs) + [buf]
    ensures co.cc.cachefile == old(co.cc.cachefile) && co.ci.idxfile == old(co.ci.idxfile)
  {
    var node := new IndexNode(path);
    co.AddIndex(buf, node, digest);
    co.Add(buf);
  }

  /**
   * "hello" then "world!" stored in a fresh store and written: the log file
   * holds the eleven bytes and the index file the records {0, 5} and {5, 6}.
   */
  method HelloWorld() returns (log: seq<byte>, index: seq<IndexEntry>)
    ensures log == [104, 101, 108, 108, 111, 119, 111, 114, 108, 100, 33]
    ensures |index| == 2
    ensures index[0].start == 0 && index[0].len == 5 && index[0].filePath == "hello.txt"
    ensures index[1].start == 5 && index[1].len == 6 && index[1].filePath == "world.txt"
  {
    var hello: seq<byte> := [104, 101, 108, 108, 111];
    var world: seq<byte> := [119, 111, 114, 108, 100, 33];
    var digest: Digest := seq(HashSize, k => 0);
    var co := new CacheObject();
    StoreBlob(co, hello, "hello.txt", digest);
    StoreBlob(co, world, "world.txt", digest);
    co.Write();
    log, index := co.cc.cachefile, co.ci.idxfile;
    assert log == [] + hello + world;
  }
}
