/** The .rp6502 image as the packer writes it (class ROM of tools/rp6502.py). */
module RomImage {
  import opened Common
  import opened MonitorText
  import opened RomText
  import opened RomLoader

  /** The image's memory: which addresses hold a byte, and what byte. */
  type Sparse = map<int, u8>

  datatype Chunk = Chunk(addr: nat, data: seq<u8>)

  /** A name is its characters, of which a packed one has ASCII only. */
  datatype Asset = Asset(name: Text, data: seq<u8>)

  const CHUNK_MAX := 1024
  const PAGE := 0x10000
  const TOP := 0x1000000

  /** At most 1 KB, inside one 64 KB page. */
  predicate ChunkOk(c: Chunk) { 0 < |c.data| <= CHUNK_MAX && c.addr % PAGE + |c.data| <= PAGE }

  /** From address from up to end, the chunks hold data: all of it, in order, and nothing else. */
  ghost predicate Packs(cs: seq<Chunk>, data: Sparse, from: int, end: int)
    decreases |cs|
  {
    if cs == [] then from <= end && forall a :: from <= a < end ==> a !in data
    else
      from <= cs[0].addr && Holds(cs[0], data) && (forall a :: from <= a < cs[0].addr ==> a !in data) &&
      Packs(cs[1..], data, cs[0].addr + |cs[0].data|, end)
  }

  /** The chunk goes on until 1 KB, the end of its page or the first address with no byte. */
  predicate Longest(c: Chunk, data: Sparse) {
    |c.data| == CHUNK_MAX || c.addr % PAGE + |c.data| == PAGE || c.addr + |c.data| !in data
  }

  predicate Holds(c: Chunk, data: Sparse) {
    && ChunkOk(c) && Longest(c, data)
    && forall a :: c.addr <= a < c.addr + |c.data| ==> a in data && data[a] == c.data[a - c.addr]
  }

  lemma {:induction false} PacksMore(cs: seq<Chunk>, c: Chunk, data: Sparse, from: int, end: int)
    requires Packs(cs, data, from, end) && end <= c.addr && Holds(c, data)
    requires forall a :: end <= a < c.addr ==> a !in data
    ensures Packs(cs + [c], data, from, c.addr + |c.data|)
    decreases |cs|
  {
    hide Holds;
    if cs == [] {
      assert ([c] + [])[1..] == [] && cs + [c] == [c];
    } else {
      assert (cs + [c])[1..] == cs[1..] + [c];
      PacksMore(cs[1..], c, data, cs[0].addr + |cs[0].data|, end);
    }
  }

  lemma {:induction false} PacksRest(cs: seq<Chunk>, data: Sparse, from: int, end: int, top: int)
    requires Packs(cs, data, from, end) && end <= top && forall a :: a in data ==> a < end
    ensures Packs(cs, data, from, top)
    decreases |cs|
  {
    hide Holds;
    if cs != [] {
      PacksRest(cs[1..], data, cs[0].addr + |cs[0].data|, end, top);
    }
  }

  lemma {:induction false} PacksPlaces(cs: seq<Chunk>, data: Sparse, from: int, end: int)
    requires Packs(cs, data, from, end)
    ensures from <= end
    ensures forall i :: 0 <= i < |cs| ==>
      Holds(cs[i], data) && from <= cs[i].addr && cs[i].addr + |cs[i].data| <= end
    decreases |cs|
  {
    if cs != [] {
      PacksPlaces(cs[1..], data, cs[0].addr + |cs[0].data|, end);
      hide Packs;
      forall i | 0 <= i < |cs|
        ensures Holds(cs[i], data) && from <= cs[i].addr && cs[i].addr + |cs[i].data| <= end
      {
        if i > 0 {
          assert cs[i] == cs[1..][i - 1];
        }
      }
    }
  }

  /** Two chunks of the same image that start at the same address are the same. */
  lemma SameChunk(c: Chunk, d: Chunk, data: Sparse)
    requires Holds(c, data) && Holds(d, data) && c.addr == d.addr
    ensures c == d
  {
    assert |c.data| < |d.data| ==> c.addr + |c.data| in data;
    assert |d.data| < |c.data| ==> c.addr + |d.data| in data;
    forall k | 0 <= k < |c.data|
      ensures k < |d.data| && c.data[k] == d.data[k]
    {
      assert c.addr + k in data;
    }
  }

  lemma FirstHeld(cs: seq<Chunk>, data: Sparse, from: int, end: int)
    requires Packs(cs, data, from, end) && cs != []
    ensures from <= cs[0].addr < end && cs[0].addr in data
  {
    PacksPlaces(cs, data, from, end);
  }

  /** There is one way to cut an image into chunks. */
  lemma {:induction false} PackedOneWay(cs: seq<Chunk>, ds: seq<Chunk>, data: Sparse, from: int, end: int)
    requires Packs(cs, data, from, end) && Packs(ds, data, from, end)
    ensures cs == ds
    decreases |cs|
  {
    if cs != [] && ds != [] {
      FirstHeld(cs, data, from, end);
      FirstHeld(ds, data, from, end);
      SameChunk(cs[0], ds[0], data);
      PackedOneWay(cs[1..], ds[1..], data, cs[0].addr + |cs[0].data|, end);
    } else if cs != [] {
      FirstHeld(cs, data, from, end);
    } else if ds != [] {
      FirstHeld(ds, data, from, end);
    }
  }

  // ---------------- text ----------------

  function ChunkHead(c: Chunk, crc: int): Text
    requires crc >= 0
  {
    [DOLLAR] + Hex(c.addr, 4) + ([SPACE, DOLLAR] + Hex(|c.data|, 3) + ([SPACE, DOLLAR] + Hex(crc, 8)))
  }

  /** A checksum is a word. */
  ghost predicate CrcOk(crc: Crc) { forall x :: 0 <= crc(x) < WORD }

  function Checksum(crc: Crc, x: seq<u8>): (n: int)
    ensures 0 <= n < WORD && (0 <= crc(x) < WORD ==> n == crc(x))
  {
    crc(x) % WORD
  }

  function ChunkBytes(c: Chunk, crc: Crc): seq<u8>
  {
    ChunkHead(c, Checksum(crc, c.data)) + [CR, LF] + c.data
  }

  function ChunksBytes(cs: seq<Chunk>, crc: Crc): seq<u8>
  {
    if cs == [] then [] else ChunkBytes(cs[0], crc) + ChunksBytes(cs[1..], crc)
  }

  /** An entry of the directory: an asset, or the one with no name that holds the memory. */
  datatype Entry = Entry(name: Option<Text>, data: seq<u8>)

  function Tag(name: Option<Text>): Text { if name.Some? then [SPACE] + name.value else [] }

  function EntryHead(len: nat, crc: int, name: Option<Text>): Text
    requires crc >= 0
  {
    [HASH, MORE] + ([DOLLAR] + Hex(len, 8) + ([SPACE, DOLLAR] + Hex(crc, 8) + Tag(name)))
  }

  function EntryBytes(x: Entry, crc: Crc): seq<u8> {
    EntryHead(|x.data|, Checksum(crc, x.data), x.name) + [CR, LF] + x.data
  }

  function EntriesBytes(xs: seq<Entry>, crc: Crc): seq<u8> {
    if xs == [] then [] else EntryBytes(xs[0], crc) + EntriesBytes(xs[1..], crc)
  }

  function EntryOf(a: Asset): Entry { Entry(Some(a.name), a.data) }

  function Entries(xs: seq<Asset>): (es: seq<Entry>)
    ensures |es| == |xs| && forall i :: 0 <= i < |xs| ==> es[i] == EntryOf(xs[i])
  {
    if xs == [] then [] else [EntryOf(xs[0])] + Entries(xs[1..])
  }

  /** "#!RP6502" and its CR and LF. */
  const MAGIC: Text := [35, 33, 82, 80, 54, 53, 48, 50]

  /** The directory: the chunks as one entry with no name, then the assets. */
  function Directory(cs: seq<Chunk>, xs: seq<Asset>, crc: Crc): seq<Entry>
  {
    (if cs == [] then [] else [Entry(None, ChunksBytes(cs, crc))]) + Entries(xs)
  }

  function ImageBytes(cs: seq<Chunk>, xs: seq<Asset>, crc: Crc): seq<u8>
  {
    MAGIC + [CR, LF] + EntriesBytes(Directory(cs, xs, crc), crc)
  }

  /** Where an asset of that name is; past the end when there is none. */
  function IndexOf(xs: seq<Asset>, name: Text): (i: nat)
    ensures i <= |xs| && (i < |xs| ==> xs[i].name == name) && forall k :: 0 <= k < i ==> xs[k].name != name
  {
    if xs == [] || xs[0].name == name then 0 else 1 + IndexOf(xs[1..], name)
  }

  /** The assets with one more, or with the one of its name replaced. */
  function Placed(xs: seq<Asset>, a: Asset, replace: set<Text>): Option<seq<Asset>> {
    var i := IndexOf(xs, a.name);
    if i == |xs| then Some(xs + [a]) else if a.name in replace then Some(xs[i := a]) else None
  }

  /** No two assets have the same name. */
  predicate Distinct(xs: seq<Asset>) { forall i, j :: 0 <= i < j < |xs| ==> xs[i].name != xs[j].name }

  lemma PlacedDistinct(xs: seq<Asset>, a: Asset, replace: set<Text>)
    requires Distinct(xs) && Placed(xs, a, replace).Some?
    ensures Distinct(Placed(xs, a, replace).value)
  {
  }

  /** Names that encode as ASCII. */
  predicate NamesAscii(xs: seq<Asset>) { forall i :: 0 <= i < |xs| ==> IsAscii(xs[i].name) }

  // ---------------- the packer ----------------

  /** The k addresses from addr on have been added to what was taken. */
  ghost predicate Marked(was: set<int>, addr: int, k: int, now: set<int>) {
    forall a :: (a in now <==> a in was || addr <= a < addr + k) && (addr <= a < addr + k ==> a !in was)
  }

  /** class ROM: a sparse memory and the named assets. */
  class Rom {
    const crc: Crc
    const replace: set<Text>  // names that may be added again
    var data: Sparse
    var alloc: set<int>       // addresses that are taken
    var assets: seq<Asset>

    constructor (c: Crc, again: set<Text>)
      ensures crc == c && replace == again && data == map[] && assets == [] && Valid() && Whole()
    {
      crc, replace, data, alloc, assets := c, again, map[], {}, [];
    }

    /** Appends a named asset; one that is there is replaced when its name may be, else refused. */
    method AddAsset(name: Text, bytes: seq<u8>) returns (ok: bool)
      modifies this`assets
      ensures ok == (Placed(old(assets), Asset(name, bytes), replace) != None)
      ensures assets == if ok then Placed(old(assets), Asset(name, bytes), replace).value else old(assets)
      ensures old(Distinct(assets)) ==> Distinct(assets)
    {
      hide Distinct;
      if Distinct(assets) && Placed(assets, Asset(name, bytes), replace).Some? {
        PlacedDistinct(assets, Asset(name, bytes), replace);
      }
      for i := 0 to |assets|
        invariant assets == old(assets) && IndexOf(assets, name) == i + IndexOf(assets[i..], name)
      {
        assert assets[i..][1..] == assets[i + 1..];
        if assets[i].name == name {
          if name !in replace {
            return false;
          }
          assets := assets[i := Asset(name, bytes)];
          return true;
        }
      }
      assets := assets + [Asset(name, bytes)];
      return true;
    }

    /** Bytes have addresses, and those are marked as taken. */
    ghost predicate Valid()
      reads this
    {
      (forall a :: a in data ==> a in alloc) && forall a :: a in alloc ==> 0 <= a < TOP
    }

    /** Every marked address has its byte: no range was refused half-way. */
    ghost predicate Whole()
      reads this
    {
      forall a :: a in alloc ==> a in data
    }

    /** Marks a range as taken; a refusal leaves the marks before the first address that was. */
    method AllocateRom(addr: int, length: nat) returns (ok: bool)
      modifies this`alloc
      ensures ok == (0 <= addr && addr + length <= TOP && forall a :: addr <= a < addr + length ==> a !in old(alloc))
      ensures ok ==> forall a :: a in alloc <==> a in old(alloc) || addr <= a < addr + length
      ensures !ok && (addr < 0 || addr + length > TOP) ==> alloc == old(alloc)
      ensures !ok && 0 <= addr && addr + length <= TOP ==>
        exists k :: 0 <= k < length && addr + k in old(alloc) && Marked(old(alloc), addr, k, alloc)
    {
      if addr + length > TOP || addr < 0 {
        return false;
      }
      for i := 0 to length
        invariant Marked(old(alloc), addr, i, alloc)
      {
        if addr + i in alloc {
          return false;
        }
        alloc := alloc + {addr + i};
      }
      return true;
    }

    /** Adds bytes at an address; refused when some are taken or out of the address space. */
    method AddBinaryData(bytes: seq<u8>, addr: int) returns (ok: bool)
      requires Valid()
      modifies this`data, this`alloc
      ensures ok == (0 <= addr && addr + |bytes| <= TOP && forall a :: addr <= a < addr + |bytes| ==> a !in old(alloc))
      ensures Valid() && (ok && old(Whole()) ==> Whole())
      ensures ok ==> forall a :: a in alloc <==> a in old(alloc) || addr <= a < addr + |bytes|
      ensures ok ==> forall a :: a in data <==> a in old(data) || addr <= a < addr + |bytes|
      ensures ok ==> forall a :: a in data ==>
        data[a] == if addr <= a < addr + |bytes| then bytes[a - addr] else old(data)[a]
      ensures !ok ==> data == old(data) && ((addr < 0 || addr + |bytes| > TOP) ==> alloc == old(alloc))
      ensures !ok && 0 <= addr && addr + |bytes| <= TOP ==>
        exists k :: 0 <= k < |bytes| && addr + k in old(alloc) && Marked(old(alloc), addr, k, alloc)
    {
      ok := AllocateRom(addr, |bytes|);
      if !ok {
        return;
      }
      ghost var was := data;
      for i := 0 to |bytes|
        modifies this`data
        invariant forall a :: a in data <==> a in was || addr <= a < addr + i
        invariant forall a :: a in data ==> data[a] == if addr <= a < addr + i then bytes[a - addr] else was[a]
      {
        data := data[addr + i := bytes[i]];
      }
    }

    /** One of the three vectors (add_nmi_vector, add_reset_vector, add_irq_vector). */
    method AddVector(at: int, addr: int) returns (ok: bool)
      requires Valid() && at in {0xFFFA, 0xFFFC, 0xFFFE}
      modifies this`data, this`alloc
      ensures Valid() && (ok && old(Whole()) ==> Whole())
      ensures ok == (0 <= addr <= 0xFFFF && at !in old(alloc) && at + 1 !in old(alloc))
      ensures ok ==> at in data && at + 1 in data && data[at] == addr % 256 && data[at + 1] == addr / 256
      ensures ok ==> forall a :: a != at && a != at + 1 ==>
        (a in data <==> a in old(data)) && (a in data ==> data[a] == old(data)[a])
      ensures !ok ==> data == old(data)
    {
      if addr < 0 || addr > 0xFFFF {
        return false;
      }
      ok := AddBinaryData([addr % 256, addr / 256], at);
    }

    method HasResetVector() returns (yes: bool)
      ensures yes == (0xFFFC in alloc && 0xFFFD in alloc)
    {
      yes := 0xFFFC in alloc && 0xFFFD in alloc;
    }

    /** The next chunk at addr or above: as many consecutive bytes as 1 KB and one 64 KB page allow. A marked
        address with no byte fails it. */
    method NextRomData(addr: int) returns (ok: bool, found: bool, c: Chunk)
      requires Valid() && 0 <= addr
      ensures ok && found ==>
        addr <= c.addr && Holds(c, data) && c.addr + |c.data| <= TOP && (forall a :: addr <= a < c.addr ==> a !in alloc)
      ensures ok && !found ==> forall a :: a in alloc ==> a < addr
      ensures !ok ==> !Whole()
    {
      var at := addr;
      while at < TOP && at !in alloc
        invariant addr <= at && forall a :: addr <= a < at ==> a !in alloc
      {
        at := at + 1;
      }
      if at >= TOP {
        return true, false, Chunk(0, []);
      }
      var end := (at / PAGE + 1) * PAGE;
      var bytes := [];
      while |bytes| < CHUNK_MAX && at + |bytes| != end && at + |bytes| in alloc
        invariant |bytes| <= CHUNK_MAX && at + |bytes| <= end
        invariant forall a :: at <= a < at + |bytes| ==> a in data && data[a] == bytes[a - at]
        decreases CHUNK_MAX - |bytes|
      {
        if at + |bytes| !in data {
          return false, false, Chunk(0, []);
        }
        bytes := bytes + [data[at + |bytes|]];
      }
      assert at + (|bytes| - 1) in data;
      return true, true, Chunk(at, bytes);
    }

    /** The .rp6502 image: the one way memory cuts into chunks, then the assets. It fails on a marked address
        with no byte, and on a name that is not ASCII. */
    method ToBytes() returns (ok: bool, out: seq<u8>, ghost cs: seq<Chunk>)
      requires Valid()
      ensures ok == (Whole() && NamesAscii(assets))
      ensures ok ==> Packs(cs, data, 0, TOP) && out == ImageBytes(cs, assets, crc)
      ensures ok ==> forall ds :: Packs(ds, data, 0, TOP) ==> out == ImageBytes(ds, assets, crc)
    {
      hide ChunkBytes, EntryBytes, Packs, NamesAscii, Entries;
      var chunks;
      ok, chunks, cs := PackChunks();
      if !ok {
        return false, [], [];
      }
      out := MAGIC + [CR, LF];
      if |chunks| > 0 {
        out := out + EntryBytes(Entry(None, chunks), crc);
      }
      ChunksEmpty(cs, crc);
      DirectoryBytes(cs, assets, crc);
      var named;
      ok, named := PackAssets();
      out := out + named;
      forall ds | Packs(ds, data, 0, TOP)
        ensures ds == cs
      {
        PackedOneWay(ds, cs, data, 0, TOP);
      }
    }

    method PackAssets() returns (ok: bool, out: seq<u8>)
      ensures ok == NamesAscii(assets)
      ensures ok ==> out == EntriesBytes(Entries(assets), crc)
    {
      hide EntryBytes, IsAscii, EntriesBytes, Entries;
      out := [];
      assert assets[0..] == assets;
      for i := 0 to |assets|
        invariant out + EntriesBytes(Entries(assets[i..]), crc) == EntriesBytes(Entries(assets), crc)
        invariant forall k :: 0 <= k < i ==> IsAscii(assets[k].name)
      {
        if !IsAscii(assets[i].name) {
          return false, [];
        }
        FirstEntry(assets, i, crc);
        ghost var x, e := EntryBytes(EntryOf(assets[i]), crc), EntriesBytes(Entries(assets[i + 1..]), crc);
        assert out + (x + e) == out + x + e;
        out := out + EntryBytes(EntryOf(assets[i]), crc);
      }
      NoEntries(crc);
      assert out + [] == out;
      ok := true;
    }

    method PackChunks() returns (ok: bool, chunks: seq<u8>, ghost cs: seq<Chunk>)
      requires Valid()
      ensures ok == Whole()
      ensures ok ==> Packs(cs, data, 0, TOP) && chunks == ChunksBytes(cs, crc)
    {
      hide ChunkBytes, Packs;
      chunks, cs := [], [];
      var good, found, c := NextRomData(0);
      ghost var from := 0;
      PacksNone(data);
      while good && found
        invariant 0 <= from <= TOP && (forall a :: a in alloc && a < from ==> a in data)
        invariant chunks == ChunksBytes(cs, crc) && Packs(cs, data, 0, from)
        invariant good && found ==>
          from <= c.addr && Holds(c, data) && c.addr + |c.data| <= TOP
            && (forall a :: from <= a < c.addr ==> a !in alloc)
        invariant good && !found ==> forall a :: a in alloc ==> a < from
        invariant !good ==> !Whole()
        decreases if good && found then TOP - c.addr else -1
      {
        ChunksMore(cs, c, crc);
        PacksMore(cs, c, data, 0, from);
        chunks := chunks + ChunkBytes(c, crc);
        cs := cs + [c];
        from := c.addr + |c.data|;
        good, found, c := NextRomData(c.addr + |c.data|);
      }
      if !good {
        return false, [], [];
      }
      PacksRest(cs, data, 0, from, TOP);
      ok := true;
    }
  }

  lemma FirstEntry(xs: seq<Asset>, i: nat, crc: Crc)
    requires i < |xs|
    ensures EntriesBytes(Entries(xs[i..]), crc) ==
            EntryBytes(EntryOf(xs[i]), crc) + EntriesBytes(Entries(xs[i + 1..]), crc)
  {
    hide EntryBytes;
    assert xs[i..][1..] == xs[i + 1..];
  }

  lemma NoEntries(crc: Crc)
    ensures EntriesBytes(Entries([]), crc) == []
  {
  }

  lemma PacksNone(data: Sparse)
    ensures Packs([], data, 0, 0)
  {
  }

  lemma {:induction false} ChunksMore(cs: seq<Chunk>, c: Chunk, crc: Crc)
    ensures ChunksBytes(cs + [c], crc) == ChunksBytes(cs, crc) + ChunkBytes(c, crc)
    decreases |cs|
  {
    hide ChunkBytes;
    if cs == [] {
      assert cs + [c] == [c] && [c][1..] == [];
      assert ChunksBytes([], crc) == [];
    } else {
      assert (cs + [c])[1..] == cs[1..] + [c];
      ChunksMore(cs[1..], c, crc);
    }
  }

  lemma ChunksEmpty(cs: seq<Chunk>, crc: Crc)
    ensures cs == [] <==> ChunksBytes(cs, crc) == []
  {
    if cs != [] {
      assert |ChunkBytes(cs[0], crc)| >= 2;
      hide ChunkBytes;
    }
  }

  lemma DirectoryBytes(cs: seq<Chunk>, xs: seq<Asset>, crc: Crc)
    ensures EntriesBytes(Directory(cs, xs, crc), crc) ==
            (if cs == [] then [] else EntryBytes(Entry(None, ChunksBytes(cs, crc)), crc))
              + EntriesBytes(Entries(xs), crc)
  {
    hide EntryBytes, ChunksBytes, Entries;
    var d := Directory(cs, xs, crc);
    if cs == [] {
      assert d == Entries(xs);
    } else {
      assert d[1..] == Entries(xs);
    }
  }

  // ---------------- byte by byte ----------------

  /** A chunk of an image's memory: bytes that are there, at most 1024, inside one 64 KB page, and as many as
      that and the memory allow. */
  lemma HoldsMeans(c: Chunk, data: Sparse)
    ensures Holds(c, data) <==>
            && 1 <= |c.data| <= 1024 && c.addr / 65536 == (c.addr + |c.data| - 1) / 65536
            && (forall a :: c.addr <= a < c.addr + |c.data| ==> a in data && data[a] == c.data[a - c.addr])
            && (|c.data| == 1024 || (c.addr + |c.data|) % 65536 == 0 || c.addr + |c.data| !in data)
  {
    var n := c.addr + |c.data|;
    if 0 < |c.data| <= 1024 {
      PageOf(c.addr, |c.data|);
    }
  }

  lemma PageOf(addr: nat, n: nat)
    requires 0 < n <= 1024
    ensures addr % PAGE + n <= PAGE <==> addr / 65536 == (addr + n - 1) / 65536
    ensures addr % PAGE + n <= PAGE ==> (addr % PAGE + n == PAGE <==> (addr + n) % 65536 == 0)
  {
  }

  /** An asset goes at the end, or where the first of its name is when that may be replaced, and else nowhere. */
  lemma PlacedMeans(xs: seq<Asset>, a: Asset, replace: set<Text>)
    ensures (forall k :: 0 <= k < |xs| ==> xs[k].name != a.name) ==> Placed(xs, a, replace) == Some(xs + [a])
    ensures forall k :: 0 <= k < |xs| && xs[k].name == a.name && (forall j :: 0 <= j < k ==> xs[j].name != a.name) ==>
      Placed(xs, a, replace) == if a.name in replace then Some(xs[k := a]) else None
  {
  }

  /** The text of an image: "#!RP6502" and a line end; for the memory a line "#>$" and eight digits of its
      chunks' length, " $" and eight of their checksum, and each chunk after a line of its address, length and
      checksum in at least four, three and eight digits; and for each asset such a line with its name after a
      space, and its data. */
  lemma ImageText(c: Chunk, x: Entry, cs: seq<Chunk>, xs: seq<Asset>, crc: Crc)
    requires CrcOk(crc)
    ensures ImageBytes(cs, xs, crc) == [35, 33, 82, 80, 54, 53, 48, 50, 13, 10]
      + EntriesBytes(Directory(cs, xs, crc), crc)
    ensures EntryBytes(x, crc) ==
            [35, 62, 36] + Hex(|x.data|, 8) + [32, 36] + Hex(crc(x.data), 8)
            + (if x.name.Some? then [32] + x.name.value else []) + [13, 10] + x.data
    ensures ChunkBytes(c, crc) ==
            [36] + Hex(c.addr, 4) + [32, 36] + Hex(|c.data|, 3) + [32, 36] + Hex(crc(c.data), 8) + [13, 10] + c.data
    ensures Directory(cs, xs, crc) ==
            (if cs == [] then [] else [Entry(None, ChunksBytes(cs, crc))])
            + seq(|xs|, i requires 0 <= i < |xs| => Entry(Some(xs[i].name), xs[i].data))
  {
    hide Hex, EntriesBytes, ChunksBytes;
    assert Checksum(crc, x.data) == crc(x.data) && Checksum(crc, c.data) == crc(c.data);
    assert Entries(xs) == seq(|xs|, i requires 0 <= i < |xs| => Entry(Some(xs[i].name), xs[i].data));
  }
}
