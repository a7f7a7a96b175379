/**
 The envelope a conversation's checkpoints travel in: nested dictionaries with tuple keys go in, a tree of
 lists and string-keyed dictionaries comes out, and decoding any other tree must fail cleanly.
 */
module CheckpointCodec {
  import opened Sequences

  type Bytes = seq<int>

  /** A message-pack value. The packed bytes themselves, and their loss-free packing, are not modelled. */
  datatype Pack =
    | Nil
    | Int(n: int)
    | Text(s: string)
    | Bin(bytes: Bytes)
    | List(items: seq<Pack>)
    | Dict(entries: map<string, Pack>)

  /** A serialized value: how it was serialized, and the bytes. */
  datatype Typed = Typed(kind: string, data: Bytes)

  datatype Saved = Saved(dumped: Typed, meta: Typed, parent: Option<string>)
  datatype Write = Write(task: string, channel: string, value: Typed, path: string)

  datatype WriteKey = WriteKey(thread: string, ns: string, checkpoint: string)
  datatype BlobKey = BlobKey(thread: string, ns: string, channel: string, version: string)

  type Storage = map<string, map<string, Saved>>
  type Inner = map<(string, int), Write>
  type Writes = map<WriteKey, Inner>
  type Blobs = map<BlobKey, Typed>

  datatype Payload = Payload(storage: Storage, writes: Writes, blobs: Blobs)

  /** What the cache holds: nothing, an envelope whose body unpacks or not, or something older. */
  datatype Raw = Blank | Envelope(body: Option<Pack>) | Legacy(loaded: Option<Payload>)

  // ----- Decoding

  function CharBytes(c: char): Bytes {
    var n := c as int;
    if n < 0x80 then [n]
    else if n < 0x800 then [0xC0 + n / 64, 0x80 + n % 64]
    else if n < 0x10000 then [0xE0 + n / 4096, 0x80 + n / 64 % 64, 0x80 + n % 64]
    else [0xF0 + n / 262144, 0x80 + n / 4096 % 64, 0x80 + n / 64 % 64, 0x80 + n % 64]
  }

  function Utf8(s: string): Bytes {
    if s == "" then [] else Utf8(Front(s)) + CharBytes(Last(s))
  }

  function ToTyped(p: Pack): Option<Typed> {
    if p.List? && |p.items| == 2 && p.items[0].Text? then
      match p.items[1]
      case Bin(bytes) => Some(Typed(p.items[0].s, bytes))
      case Text(s) => Some(Typed(p.items[0].s, Utf8(s)))
      case _ => None
    else None
  }

  function ToParent(p: Pack): Option<Option<string>> {
    match p
    case Nil => Some(None)
    case Text(s) => Some(Some(s))
    case _ => None
  }

  function ToSaved(p: Pack): Option<Saved> {
    if p.List? && |p.items| == 3 && ToTyped(p.items[0]).Some? && ToTyped(p.items[1]).Some? && ToParent(p.items[2]).Some?
    then Some(Saved(ToTyped(p.items[0]).value, ToTyped(p.items[1]).value, ToParent(p.items[2]).value))
    else None
  }

  function ToCheckpoints(p: Pack): Option<map<string, Saved>> {
    if p.Dict? && forall id :: id in p.entries ==> ToSaved(p.entries[id]).Some?
    then Some(map id | id in p.entries :: ToSaved(p.entries[id]).value)
    else None
  }

  function ToStorage(entries: map<string, Pack>): Option<Storage> {
    if forall ns :: ns in entries ==> ToCheckpoints(entries[ns]).Some?
    then Some(map ns | ns in entries :: ToCheckpoints(entries[ns]).value)
    else None
  }

  function ToWrite(p: Pack): Option<((string, int), Write)> {
    if && p.List? && |p.items| == 2 && p.items[0].List? && p.items[1].List?
       && |p.items[0].items| == 2 && p.items[0].items[0].Text? && p.items[0].items[1].Int?
       && |p.items[1].items| == 4 && p.items[1].items[0].Text? && p.items[1].items[1].Text?
       && ToTyped(p.items[1].items[2]).Some? && p.items[1].items[3].Text?
    then
      var k, v := p.items[0].items, p.items[1].items;
      Some(((k[0].s, k[1].n), Write(v[0].s, v[1].s, ToTyped(v[2]).value, v[3].s)))
    else None
  }

  function ToInner(items: seq<Pack>): Option<Inner> {
    if items == [] then Some(map[])
    else
      var before, entry := ToInner(Front(items)), ToWrite(Last(items));
      if before.Some? && entry.Some? then Some(before.value[entry.value.0 := entry.value.1]) else None
  }

  function ToTask(p: Pack): Option<(WriteKey, Inner)> {
    if && p.List? && |p.items| == 2 && p.items[0].List? && p.items[1].List?
       && |p.items[0].items| == 3
       && p.items[0].items[0].Text? && p.items[0].items[1].Text? && p.items[0].items[2].Text?
       && ToInner(p.items[1].items).Some?
    then
      var k := p.items[0].items;
      Some((WriteKey(k[0].s, k[1].s, k[2].s), ToInner(p.items[1].items).value))
    else None
  }

  function ToWrites(items: seq<Pack>): Option<Writes> {
    if items == [] then Some(map[])
    else
      var before, entry := ToWrites(Front(items)), ToTask(Last(items));
      if before.Some? && entry.Some? then Some(before.value[entry.value.0 := entry.value.1]) else None
  }

  function ToBlob(p: Pack): Option<(BlobKey, Typed)> {
    if && p.List? && |p.items| == 2 && p.items[0].List? && |p.items[0].items| == 4
       && p.items[0].items[0].Text? && p.items[0].items[1].Text?
       && p.items[0].items[2].Text? && p.items[0].items[3].Text?
       && ToTyped(p.items[1]).Some?
    then
      var k := p.items[0].items;
      Some((BlobKey(k[0].s, k[1].s, k[2].s, k[3].s), ToTyped(p.items[1]).value))
    else None
  }

  function ToBlobs(items: seq<Pack>): Option<Blobs> {
    if items == [] then Some(map[])
    else
      var before, entry := ToBlobs(Front(items)), ToBlob(Last(items));
      if before.Some? && entry.Some? then Some(before.value[entry.value.0 := entry.value.1]) else None
  }

  /** Values that count as missing. */
  predicate Falsy(p: Pack) {
    p == Nil || p == Int(0) || p == Text("") || p == Bin([]) || p == List([]) || p == Dict(map[])
  }

  function Field(entries: map<string, Pack>, name: string): Pack {
    if name in entries then entries[name] else Nil
  }

  function FieldEntries(entries: map<string, Pack>, name: string): Option<map<string, Pack>> {
    var p := Field(entries, name);
    if Falsy(p) then Some(map[]) else if p.Dict? then Some(p.entries) else None
  }

  function FieldItems(entries: map<string, Pack>, name: string): Option<seq<Pack>> {
    var p := Field(entries, name);
    if Falsy(p) then Some([]) else if p.List? then Some(p.items) else None
  }

  function ToPayload(entries: map<string, Pack>): Option<Payload> {
    var storage, writes, blobs := FieldEntries(entries, "storage"), FieldItems(entries, "writes"), FieldItems(entries, "blobs");
    if && storage.Some? && ToStorage(storage.value).Some?
       && writes.Some? && ToWrites(writes.value).Some?
       && blobs.Some? && ToBlobs(blobs.value).Some?
    then Some(Payload(ToStorage(storage.value).value, ToWrites(writes.value).value, ToBlobs(blobs.value).value))
    else None
  }

  function Decode(raw: Raw): Option<Payload> {
    match raw
    case Blank => None
    case Envelope(body) => if body.Some? && body.value.Dict? then ToPayload(body.value.entries) else None
    case Legacy(loaded) => loaded
  }

  lemma {:induction false} BadPrefix(items: seq<Pack>, i: nat)
    requires i <= |items|
    ensures ToInner(items[..i]).None? ==> ToInner(items).None?
    ensures ToWrites(items[..i]).None? ==> ToWrites(items).None?
    ensures ToBlobs(items[..i]).None? ==> ToBlobs(items).None?
  {
    if i < |items| {
      BadPrefix(Front(items), i);
      assert Front(items)[..i] == items[..i];
    } else {
      assert items[..i] == items;
    }
  }

  method DecodeCheckpoints(p: Pack) returns (r: Option<map<string, Saved>>)
    ensures r == ToCheckpoints(p)
  {
    if !p.Dict? {
      return None;
    }
    var decoded: map<string, Saved>, todo := map[], p.entries.Keys;
    while todo != {}
      invariant todo <= p.entries.Keys && decoded.Keys == p.entries.Keys - todo
      invariant forall id :: id in decoded ==> ToSaved(p.entries[id]) == Some(decoded[id])
      decreases todo
    {
      var id :| id in todo;
      var saved := ToSaved(p.entries[id]);
      if saved.None? {
        return None;
      }
      decoded := decoded[id := saved.value];
      todo := todo - {id};
    }
    assert decoded == ToCheckpoints(p).value;
    return Some(decoded);
  }

  method DecodeStorage(entries: map<string, Pack>) returns (r: Option<Storage>)
    ensures r == ToStorage(entries)
  {
    var decoded: Storage, todo := map[], entries.Keys;
    while todo != {}
      invariant todo <= entries.Keys && decoded.Keys == entries.Keys - todo
      invariant forall ns :: ns in decoded ==> ToCheckpoints(entries[ns]) == Some(decoded[ns])
      decreases todo
    {
      var ns :| ns in todo;
      var checkpoints := DecodeCheckpoints(entries[ns]);
      if checkpoints.None? {
        return None;
      }
      decoded := decoded[ns := checkpoints.value];
      todo := todo - {ns};
    }
    assert decoded == ToStorage(entries).value;
    return Some(decoded);
  }

  method DecodeWrites(items: seq<Pack>) returns (r: Option<Writes>)
    ensures r == ToWrites(items)
  {
    var decoded: Writes := map[];
    for i := 0 to |items|
      invariant ToWrites(items[..i]) == Some(decoded)
    {
      assert Front(items[..i + 1]) == items[..i];
      BadPrefix(items, i + 1);
      var entry := ToTask(items[i]);
      if entry.None? {
        return None;
      }
      decoded := decoded[entry.value.0 := entry.value.1];
    }
    assert items[..|items|] == items;
    return Some(decoded);
  }

  method DecodeBlobs(items: seq<Pack>) returns (r: Option<Blobs>)
    ensures r == ToBlobs(items)
  {
    var decoded: Blobs := map[];
    for i := 0 to |items|
      invariant ToBlobs(items[..i]) == Some(decoded)
    {
      assert Front(items[..i + 1]) == items[..i];
      BadPrefix(items, i + 1);
      var entry := ToBlob(items[i]);
      if entry.None? {
        return None;
      }
      decoded := decoded[entry.value.0 := entry.value.1];
    }
    assert items[..|items|] == items;
    return Some(decoded);
  }

  /** Anything that is not a well-formed envelope decodes to nothing, never to part of a payload. */
  method DecodeCheckpointBlob(raw: Raw) returns (r: Option<Payload>)
    ensures r == Decode(raw)
  {
    if raw.Blank? {
      return None;
    }
    if raw.Legacy? {
      return raw.loaded;
    }
    if raw.body.None? || !raw.body.value.Dict? {
      return None;
    }
    var entries := raw.body.value.entries;
    var storageIn, writesIn, blobsIn := FieldEntries(entries, "storage"), FieldItems(entries, "writes"), FieldItems(entries, "blobs");
    if storageIn.None? || writesIn.None? || blobsIn.None? {
      return None;
    }
    var storage := DecodeStorage(storageIn.value);
    var writes := DecodeWrites(writesIn.value);
    var blobs := DecodeBlobs(blobsIn.value);
    if storage.None? || writes.None? || blobs.None? {
      return None;
    }
    return Some(Payload(storage.value, writes.value, blobs.value));
  }

  // ----- Encoding

  function FromTyped(t: Typed): (p: Pack)
    ensures ToTyped(p) == Some(t)
  {
    List([Text(t.kind), Bin(t.data)])
  }

  function FromSaved(s: Saved): (p: Pack)
    ensures ToSaved(p) == Some(s)
  {
    List([FromTyped(s.dumped), FromTyped(s.meta), if s.parent.None? then Nil else Text(s.parent.value)])
  }

  function FromWrite(key: (string, int), w: Write): (p: Pack)
    ensures ToWrite(p) == Some((key, w))
  {
    List([List([Text(key.0), Int(key.1)]), List([Text(w.task), Text(w.channel), FromTyped(w.value), Text(w.path)])])
  }

  function FromBlob(key: BlobKey, t: Typed): (p: Pack)
    ensures ToBlob(p) == Some((key, t))
  {
    List([List([Text(key.thread), Text(key.ns), Text(key.channel), Text(key.version)]), FromTyped(t)])
  }

  /** The part of a dictionary already written out. */
  function Only<K, V>(m: map<K, V>, keys: set<K>): map<K, V> {
    map k | k in m && k in keys :: m[k]
  }

  lemma OnlyMore<K, V>(m: map<K, V>, todo: set<K>, k: K)
    requires k in todo && k in m && todo <= m.Keys
    ensures Only(m, m.Keys - todo)[k := m[k]] == Only(m, m.Keys - (todo - {k}))
  {}

  lemma OnlyAll<K, V>(m: map<K, V>)
    ensures Only(m, m.Keys - {}) == m && Only(m, m.Keys - m.Keys) == map[]
  {}

  method EncodeInner(inner: Inner) returns (items: seq<Pack>)
    ensures ToInner(items) == Some(inner)
  {
    items := [];
    var todo := inner.Keys;
    OnlyAll(inner);
    while todo != {}
      invariant todo <= inner.Keys && ToInner(items) == Some(Only(inner, inner.Keys - todo))
      decreases todo
    {
      var key :| key in todo;
      OnlyMore(inner, todo, key);
      var item := FromWrite(key, inner[key]);
      assert Front(items + [item]) == items;
      items := items + [item];
      todo := todo - {key};
    }
  }

  method EncodeWrites(writes: Writes) returns (items: seq<Pack>)
    ensures ToWrites(items) == Some(writes)
  {
    items := [];
    var todo := writes.Keys;
    OnlyAll(writes);
    while todo != {}
      invariant todo <= writes.Keys && ToWrites(items) == Some(Only(writes, writes.Keys - todo))
      decreases todo
    {
      var key :| key in todo;
      OnlyMore(writes, todo, key);
      var inner := EncodeInner(writes[key]);
      var item := List([List([Text(key.thread), Text(key.ns), Text(key.checkpoint)]), List(inner)]);
      assert ToTask(item) == Some((key, writes[key]));
      assert Front(items + [item]) == items;
      items := items + [item];
      todo := todo - {key};
    }
  }

  method EncodeBlobs(blobs: Blobs) returns (items: seq<Pack>)
    ensures ToBlobs(items) == Some(blobs)
  {
    items := [];
    var todo := blobs.Keys;
    OnlyAll(blobs);
    while todo != {}
      invariant todo <= blobs.Keys && ToBlobs(items) == Some(Only(blobs, blobs.Keys - todo))
      decreases todo
    {
      var key :| key in todo;
      OnlyMore(blobs, todo, key);
      var item := FromBlob(key, blobs[key]);
      assert Front(items + [item]) == items;
      items := items + [item];
      todo := todo - {key};
    }
  }

  method EncodeStorage(storage: Storage) returns (entries: map<string, Pack>)
    ensures ToStorage(entries) == Some(storage)
  {
    entries := map[];
    var todo := storage.Keys;
    while todo != {}
      invariant todo <= storage.Keys && entries.Keys == storage.Keys - todo
      invariant forall ns :: ns in entries ==> ToCheckpoints(entries[ns]) == Some(storage[ns])
      decreases todo
    {
      var ns :| ns in todo;
      var checkpoints := Dict(map id | id in storage[ns] :: FromSaved(storage[ns][id]));
      assert ToCheckpoints(checkpoints) == Some(storage[ns]) by {
        assert ToCheckpoints(checkpoints).value == storage[ns];
      }
      entries := entries[ns := checkpoints];
      todo := todo - {ns};
    }
    assert ToStorage(entries).value == storage;
  }

  /** Whatever order the dictionaries are walked in, decoding gives back the payload. */
  method Encode(payload: Payload) returns (raw: Raw)
    ensures raw.Envelope? && Decode(raw) == Some(payload)
  {
    var storage := EncodeStorage(payload.storage);
    var writes := EncodeWrites(payload.writes);
    var blobs := EncodeBlobs(payload.blobs);
    var entries := map["v" := Int(1), "storage" := Dict(storage), "writes" := List(writes), "blobs" := List(blobs)];
    EnvelopeReads(entries, storage, writes, blobs);
    raw := Envelope(Some(Dict(entries)));
  }

  /** An empty part reads the same as a missing one, so the three parts come back as they went in. */
  lemma EnvelopeReads(entries: map<string, Pack>, storage: map<string, Pack>, writes: seq<Pack>, blobs: seq<Pack>)
    requires "storage" in entries && entries["storage"] == Dict(storage)
    requires "writes" in entries && entries["writes"] == List(writes)
    requires "blobs" in entries && entries["blobs"] == List(blobs)
    ensures FieldEntries(entries, "storage") == Some(storage)
    ensures FieldItems(entries, "writes") == Some(writes) && FieldItems(entries, "blobs") == Some(blobs)
  {}

  // ----- Missing parts, and texts as bytes

  /** An envelope with none of its three parts, or with empty ones, is an empty payload. */
  lemma MissingPartsAreEmpty(entries: map<string, Pack>)
    requires "storage" in entries ==> entries["storage"] == Nil || entries["storage"] == Dict(map[])
    requires "writes" in entries ==> entries["writes"] == Nil || entries["writes"] == List([])
    requires "blobs" in entries ==> entries["blobs"] == Nil || entries["blobs"] == List([])
    ensures Decode(Envelope(Some(Dict(entries)))) == Some(Payload(map[], map[], map[]))
  {}

  /** A text in place of binary data is read as its UTF-8 bytes: as many bytes as it needs, each of eight bits. */
  lemma {:induction false} Utf8Bytes(s: string)
    ensures |s| <= |Utf8(s)| <= 4 * |s|
    ensures forall i :: 0 <= i < |Utf8(s)| ==> 0 <= Utf8(s)[i] < 256
    ensures (forall i :: 0 <= i < |s| ==> s[i] as int < 128) ==>
              |Utf8(s)| == |s| && forall i :: 0 <= i < |s| ==> Utf8(s)[i] == s[i] as int
  {
    if s != "" {
      Utf8Bytes(Front(s));
      CharBytesAreBytes(Last(s));
    }
  }

  lemma CharBytesAreBytes(c: char)
    ensures 1 <= |CharBytes(c)| <= 4 && forall i :: 0 <= i < |CharBytes(c)| ==> 0 <= CharBytes(c)[i] < 256
  {
    var n := c as int;
    assert n < 0x110000;
    assert n / 262144 < 8 && n / 4096 % 64 < 64 && n / 64 % 64 < 64;
  }
}
