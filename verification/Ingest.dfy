/**
 Incremental maintenance of the knowledge indexes. Each tenant has a store of chunks that are only ever added
 and marked deleted; an ingest adds the chunks of new or changed files and then retires the old ones.
 */
module Ingest {
  import opened Sequences

  /** `digest` is the hash of the file the chunk was cut from. */
  datatype Chunk = Chunk(tenant: string, source: string, digest: string, body: string, deleted: bool)

  // ----- Reading a store

  /** The live chunks of one source, in order. */
  function Live(docs: seq<Chunk>, source: string): seq<Chunk> {
    if docs == [] then []
    else Live(Front(docs), source) + (if Last(docs).source == source && !Last(docs).deleted then [Last(docs)] else [])
  }

  function OfDigest(docs: seq<Chunk>, digest: string): seq<Chunk> {
    if docs == [] then []
    else OfDigest(Front(docs), digest) + (if Last(docs).digest == digest then [Last(docs)] else [])
  }

  /** The hash a source is known by: that of its last live chunk. */
  function DigestOf(docs: seq<Chunk>, source: string): string
    requires Live(docs, source) != []
  {
    Last(Live(docs, source)).digest
  }

  ghost predicate AllLive(docs: seq<Chunk>) {
    forall i :: 0 <= i < |docs| ==> !docs[i].deleted
  }

  /** All chunks of the list carry one hash. */
  ghost predicate Uniform(docs: seq<Chunk>) {
    forall i :: 0 <= i < |docs| ==> docs[i].digest == docs[0].digest
  }

  lemma {:induction false} LiveAppend(a: seq<Chunk>, b: seq<Chunk>, source: string)
    ensures Live(a + b, source) == Live(a, source) + Live(b, source)
  {
    if b == [] {
      assert a + b == a;
    } else {
      LiveAppend(a, Front(b), source);
      assert Front(a + b) == a + Front(b);
    }
  }

  lemma {:induction false} LiveMembers(docs: seq<Chunk>, source: string)
    ensures forall i :: 0 <= i < |Live(docs, source)| ==>
              Live(docs, source)[i] in docs && Live(docs, source)[i].source == source && !Live(docs, source)[i].deleted
    ensures forall c :: c in docs && c.source == source && !c.deleted ==> c in Live(docs, source)
  {
    if docs != [] { LiveMembers(Front(docs), source); }
  }

  lemma {:induction false} LiveOfOneSource(docs: seq<Chunk>, from: string, source: string)
    requires forall i :: 0 <= i < |docs| ==> docs[i].source == from && !docs[i].deleted
    ensures Live(docs, source) == if source == from then docs else []
  {
    if docs != [] { LiveOfOneSource(Front(docs), from, source); }
  }

  ghost predicate AllOf(chunks: seq<Chunk>, digest: string) {
    forall i :: 0 <= i < |chunks| ==> chunks[i].digest == digest
  }

  ghost predicate NoneOf(chunks: seq<Chunk>, digest: string) {
    forall i :: 0 <= i < |chunks| ==> chunks[i].digest != digest
  }

  lemma {:induction false} OfDigestShorter(docs: seq<Chunk>, digest: string)
    ensures |OfDigest(docs, digest)| <= |docs|
  {
    if docs != [] { OfDigestShorter(Front(docs), digest); }
  }

  lemma {:induction false} OfDigestAll(docs: seq<Chunk>, digest: string)
    requires AllOf(docs, digest)
    ensures OfDigest(docs, digest) == docs
  {
    if docs != [] {
      assert AllOf(Front(docs), digest);
      OfDigestAll(Front(docs), digest);
    }
  }

  lemma {:induction false} OfDigestNone(docs: seq<Chunk>, digest: string)
    requires NoneOf(docs, digest)
    ensures OfDigest(docs, digest) == []
  {
    if docs != [] {
      assert NoneOf(Front(docs), digest);
      OfDigestNone(Front(docs), digest);
    }
  }

  lemma {:induction false} OfDigestLoses(docs: seq<Chunk>, digest: string)
    requires !AllOf(docs, digest)
    ensures |OfDigest(docs, digest)| < |docs|
  {
    if Last(docs).digest != digest {
      OfDigestShorter(Front(docs), digest);
    } else {
      assert !AllOf(Front(docs), digest);
      OfDigestLoses(Front(docs), digest);
    }
  }

  /** Filtering by hash keeps everything exactly when everything carries it, and nothing when nothing does. */
  lemma OfDigestKeeps(docs: seq<Chunk>, digest: string)
    ensures |OfDigest(docs, digest)| <= |docs|
    ensures OfDigest(docs, digest) == docs <==> AllOf(docs, digest)
    ensures |OfDigest(docs, digest)| == |docs| <==> AllOf(docs, digest)
    ensures NoneOf(docs, digest) ==> OfDigest(docs, digest) == []
  {
    OfDigestShorter(docs, digest);
    if AllOf(docs, digest) {
      OfDigestAll(docs, digest);
    } else {
      OfDigestLoses(docs, digest);
    }
    if NoneOf(docs, digest) {
      OfDigestNone(docs, digest);
    }
  }

  lemma OfDigestSnoc(docs: seq<Chunk>, c: Chunk, digest: string)
    ensures OfDigest(docs + [c], digest) == OfDigest(docs, digest) + (if c.digest == digest then [c] else [])
  {
    assert Front(docs + [c]) == docs;
  }

  lemma {:induction false} OfDigestAppend(a: seq<Chunk>, b: seq<Chunk>, digest: string)
    ensures OfDigest(a + b, digest) == OfDigest(a, digest) + OfDigest(b, digest)
  {
    if b == [] {
      assert a + b == a;
    } else {
      OfDigestAppend(a, Front(b), digest);
      assert Front(a + b) == a + Front(b) && Last(a + b) == Last(b);
    }
  }

  // ----- What one ingest does to one tenant

  /** Sources in order of first appearance. */
  function Sources(docs: seq<Chunk>): seq<string> {
    if docs == [] then []
    else Sources(Front(docs)) + (if Last(docs).source in Sources(Front(docs)) then [] else [Last(docs).source])
  }

  /** The store already holds the file as it is now. */
  predicate Unchanged(docs: seq<Chunk>, wanted: seq<Chunk>, source: string) {
    && source != "" && Live(docs, source) != [] && Live(wanted, source) != []
    && DigestOf(wanted, source) != "" && DigestOf(docs, source) == DigestOf(wanted, source)
  }

  function NewDocs(docs: seq<Chunk>, wanted: seq<Chunk>, sources: seq<string>): seq<Chunk> {
    if sources == [] then []
    else
      NewDocs(docs, wanted, Front(sources)) +
      (if Unchanged(docs, wanted, Last(sources)) then [] else Live(wanted, Last(sources)))
  }

  /** Sources whose live chunks go: files that changed, and files that are no longer there. */
  predicate Retires(docs: seq<Chunk>, wanted: seq<Chunk>, source: string) {
    source != "" && Live(docs, source) != [] && !Unchanged(docs, wanted, source)
  }

  function Swept(c: Chunk, sources: set<string>, keep: map<string, string>): Chunk {
    if c.source !in sources || c.deleted then c
    else if c.source in keep && keep[c.source] != "" && c.digest == keep[c.source] then c
    else c.(deleted := true)
  }

  function SweptAll(docs: seq<Chunk>, sources: set<string>, keep: map<string, string>): (swept: seq<Chunk>)
    ensures |swept| == |docs|
  {
    seq(|docs|, i requires 0 <= i < |docs| => Swept(docs[i], sources, keep))
  }

  function RetireSet(docs: seq<Chunk>, wanted: seq<Chunk>): set<string> {
    set i | 0 <= i < |docs| && Retires(docs, wanted, docs[i].source) :: docs[i].source
  }

  function KeepHashes(wanted: seq<Chunk>): map<string, string> {
    map source | source in Sources(wanted) && Live(wanted, source) != [] :: DigestOf(wanted, source)
  }

  function Ingested(store: Option<seq<Chunk>>, wanted: seq<Chunk>): Option<seq<Chunk>> {
    var docs := if store.Some? then store.value else [];
    var added := NewDocs(docs, wanted, Sources(wanted));
    if store.None? then (if added == [] then None else Some(added))
    else Some(SweptAll(docs + added, RetireSet(docs, wanted), KeepHashes(wanted)))
  }

  // ----- Lemmas about the pieces

  lemma {:induction false} SourcesAreDistinct(docs: seq<Chunk>)
    ensures forall i, j :: 0 <= i < j < |Sources(docs)| ==> Sources(docs)[i] != Sources(docs)[j]
    ensures forall s :: s in Sources(docs) <==> exists i :: 0 <= i < |docs| && docs[i].source == s
  {
    if docs != [] {
      SourcesAreDistinct(Front(docs));
      forall s ensures s in Sources(docs) <==> exists i :: 0 <= i < |docs| && docs[i].source == s {
        if i :| 0 <= i < |docs| && docs[i].source == s {
          assert i < |docs| - 1 ==> Front(docs)[i].source == s;
        }
      }
    }
  }

  lemma SourceIsWanted(wanted: seq<Chunk>, source: string)
    requires AllLive(wanted)
    ensures source in Sources(wanted) <==> Live(wanted, source) != []
  {
    SourcesAreDistinct(wanted);
    LiveMembers(wanted, source);
    if i :| 0 <= i < |wanted| && wanted[i].source == source {
      assert wanted[i] in wanted && wanted[i] in Live(wanted, source);
    }
    if Live(wanted, source) != [] {
      assert Live(wanted, source)[0] in wanted;
    }
  }

  lemma {:induction false} NewDocsOfSource(docs: seq<Chunk>, wanted: seq<Chunk>, sources: seq<string>, source: string)
    requires forall i, j :: 0 <= i < j < |sources| ==> sources[i] != sources[j]
    ensures Live(NewDocs(docs, wanted, sources), source) ==
            if source in sources && !Unchanged(docs, wanted, source) then Live(wanted, source) else []
  {
    if sources != [] {
      var s := Last(sources);
      NewDocsOfSource(docs, wanted, Front(sources), source);
      var more := if Unchanged(docs, wanted, s) then [] else Live(wanted, s);
      LiveAppend(NewDocs(docs, wanted, Front(sources)), more, source);
      LiveMembers(wanted, s);
      if !Unchanged(docs, wanted, s) {
        LiveOfOneSource(more, s, source);
      }
      assert s == sources[|sources| - 1];
    }
  }

  lemma RetireSetHas(docs: seq<Chunk>, wanted: seq<Chunk>, source: string)
    ensures source in RetireSet(docs, wanted) <==> Retires(docs, wanted, source)
  {
    LiveMembers(docs, source);
    if Retires(docs, wanted, source) {
      assert Live(docs, source)[0] in docs;
    }
  }

  /** Sweeping touches only the retired sources, and leaves of them exactly the chunks with the hash to keep. */
  lemma {:induction false} LiveSwept(docs: seq<Chunk>, sources: set<string>, keep: map<string, string>, source: string)
    ensures Live(SweptAll(docs, sources, keep), source) ==
            if source !in sources then Live(docs, source)
            else if source in keep && keep[source] != "" then OfDigest(Live(docs, source), keep[source])
            else []
  {
    if docs != [] {
      LiveSwept(Front(docs), sources, keep, source);
      var swept, c := SweptAll(docs, sources, keep), Last(docs);
      assert Front(swept) == SweptAll(Front(docs), sources, keep) && Last(swept) == Swept(c, sources, keep);
      assert Live(Front(docs), source) + [] == Live(Front(docs), source);
      if source in keep {
        OfDigestSnoc(Live(Front(docs), source), c, keep[source]);
      }
    }
  }

  /** The live chunks of one source after an ingest, in all cases. */
  lemma LiveIngested(docs: seq<Chunk>, wanted: seq<Chunk>, source: string)
    requires AllLive(wanted) && source != ""
    ensures var after := Ingested(Some(docs), wanted).value;
            Live(after, source) ==
            if Unchanged(docs, wanted, source) then Live(docs, source)
            else if Live(docs, source) == [] then Live(wanted, source)
            else if Live(wanted, source) == [] || DigestOf(wanted, source) == "" then []
            else OfDigest(Live(docs, source), DigestOf(wanted, source)) +
                 OfDigest(Live(wanted, source), DigestOf(wanted, source))
  {
    var added := NewDocs(docs, wanted, Sources(wanted));
    SourcesAreDistinct(wanted);
    SourceIsWanted(wanted, source);
    NewDocsOfSource(docs, wanted, Sources(wanted), source);
    LiveAppend(docs, added, source);
    RetireSetHas(docs, wanted, source);
    LiveSwept(docs + added, RetireSet(docs, wanted), KeepHashes(wanted), source);
    if Live(wanted, source) != [] {
      OfDigestAppend(Live(docs, source), Live(wanted, source), DigestOf(wanted, source));
    }
  }

  lemma LiveFirstIngested(wanted: seq<Chunk>, source: string)
    requires AllLive(wanted)
    ensures match Ingested(None, wanted)
            case None => Live(wanted, source) == []
            case Some(docs) => Live(docs, source) == Live(wanted, source)
  {
    SourcesAreDistinct(wanted);
    SourceIsWanted(wanted, source);
    NewDocsOfSource([], wanted, Sources(wanted), source);
  }

  // ----- An ingest in terms of chunk fields

  /** The last live chunk of the source stands at `i`. */
  ghost predicate LastLive(docs: seq<Chunk>, source: string, i: nat) {
    && i < |docs| && docs[i].source == source && !docs[i].deleted
    && forall k :: i < k < |docs| && docs[k].source == source ==> docs[k].deleted
  }

  lemma {:induction false} LastLiveIsLast(docs: seq<Chunk>, source: string, i: nat)
    requires LastLive(docs, source, i)
    ensures Live(docs, source) != [] && Last(Live(docs, source)) == docs[i]
  {
    if i < |docs| - 1 {
      assert forall k :: 0 <= k < |docs| - 1 ==> Front(docs)[k] == docs[k];
      LastLiveIsLast(Front(docs), source, i);
    }
  }

  /**
   What an ingest does to a named source that both the store and the load have, told by the hash of the last
   live chunk on either side. Equal and not empty: nothing changes. Otherwise only chunks with the loaded hash
   stay, old ones and new ones, and none when that hash is empty.
   */
  lemma ChangedSourceIsReplaced(docs: seq<Chunk>, wanted: seq<Chunk>, source: string, i: nat, j: nat)
    requires AllLive(wanted) && source != "" && LastLive(docs, source, i) && LastLive(wanted, source, j)
    ensures var digest, after := wanted[j].digest, Ingested(Some(docs), wanted).value;
            Live(after, source) ==
            if digest == "" then []
            else if docs[i].digest == digest then Live(docs, source)
            else OfDigest(Live(docs, source), digest) + OfDigest(Live(wanted, source), digest)
  {
    LastLiveIsLast(docs, source, i);
    LastLiveIsLast(wanted, source, j);
    LiveIngested(docs, wanted, source);
  }

  /** A source that is gone from the load is retired, and one that is new to the store is added whole. */
  lemma GoneIsRetiredNewIsAdded(docs: seq<Chunk>, wanted: seq<Chunk>, source: string)
    requires AllLive(wanted) && source != ""
    ensures var after := Ingested(Some(docs), wanted).value;
            && ((forall c :: c in wanted ==> c.source != source) ==> Live(after, source) == [])
            && ((forall c :: c in docs && c.source == source ==> c.deleted) ==> Live(after, source) == Live(wanted, source))
  {
    LiveIngested(docs, wanted, source);
    NoneLive(docs, source);
    NoneLive(wanted, source);
  }

  lemma {:induction false} NoneLive(docs: seq<Chunk>, source: string)
    ensures (forall c :: c in docs && c.source == source ==> c.deleted) ==> Live(docs, source) == []
  {
    if docs != [] { NoneLive(Front(docs), source); }
  }

  // ----- Incremental against rebuild

  /** The chunks a tenant would have live for a source; a tenant without a store has none. */
  function LiveIn(store: Option<seq<Chunk>>, source: string): seq<Chunk> {
    if store.Some? then Live(store.value, source) else []
  }

  /**
   What a caller can check of a store and a load before the ingest. A source whose hash matches is skipped, so it
   must already hold the loaded chunks. One that was live and changed is swept by the hash of its last chunk, so
   all loaded chunks must carry that hash, it must not be empty, and no old chunk may carry it.
   */
  ghost predicate WillAgree(store: Option<seq<Chunk>>, wanted: seq<Chunk>, source: string) {
    var was, want := LiveIn(store, source), Live(wanted, source);
    if store.Some? && Unchanged(store.value, wanted, source) then was == want
    else
      || was == [] || want == []
      || (Last(want).digest != "" && AllOf(want, Last(want).digest) && NoneOf(was, Last(want).digest))
  }

  /**
   The exact condition, for every store and every load: an incremental ingest leaves for a source what a full
   rebuild would if and only if the store and the load pass that check.
   */
  lemma AgreesWithRebuildIff(store: Option<seq<Chunk>>, wanted: seq<Chunk>, source: string)
    requires AllLive(wanted) && source != ""
    ensures LiveIn(Ingested(store, wanted), source) == Live(wanted, source) <==> WillAgree(store, wanted, source)
  {
    if store.None? {
      LiveFirstIngested(wanted, source);
    } else {
      var was, want := Live(store.value, source), Live(wanted, source);
      LiveIngested(store.value, wanted, source);
      if !Unchanged(store.value, wanted, source) && was != [] && want != [] {
        SweptVersionIff(was, want);
      }
    }
  }

  /** What the sweep leaves of an old and a new version is the new version exactly when it separates the two. */
  lemma SweptVersionIff(was: seq<Chunk>, want: seq<Chunk>)
    requires was != [] && want != []
    ensures var digest := Last(want).digest;
            (if digest == "" then [] else OfDigest(was, digest) + OfDigest(want, digest)) == want <==>
              digest != "" && AllOf(want, digest) && NoneOf(was, digest)
  {
    var digest := Last(want).digest;
    OfDigestKeeps(was, digest);
    OfDigestKeeps(want, digest);
    OfDigestMembers(was, digest);
    OfDigestMembers(want, digest);
    if NoneOf(was, digest) {
      assert [] + OfDigest(want, digest) == OfDigest(want, digest);
    } else {
      SomeOfDigest(was, digest);
      assert AllOf(OfDigest(was, digest) + OfDigest(want, digest), digest);
    }
  }

  lemma {:induction false} OfDigestMembers(docs: seq<Chunk>, digest: string)
    ensures AllOf(OfDigest(docs, digest), digest)
  {
    if docs != [] { OfDigestMembers(Front(docs), digest); }
  }

  lemma {:induction false} SomeOfDigest(docs: seq<Chunk>, digest: string)
    requires !NoneOf(docs, digest)
    ensures OfDigest(docs, digest) != []
  {
    if Last(docs).digest != digest {
      assert !NoneOf(Front(docs), digest);
      SomeOfDigest(Front(docs), digest);
    }
  }

  // ----- Sources that come from one file

  /** The live version of a source has one hash, and if the file still has that hash, its very chunks. */
  ghost predicate Faithful(store: Option<seq<Chunk>>, wanted: seq<Chunk>, source: string) {
    && Uniform(LiveIn(store, source))
    && (LiveIn(store, source) != [] && Live(wanted, source) != [] && Uniform(Live(wanted, source))
        && LiveIn(store, source)[0].digest == Live(wanted, source)[0].digest
        ==> LiveIn(store, source) == Live(wanted, source))
  }

  /** All chunks a load found for the source come from one file, whose hash is not empty. */
  ghost predicate OneFile(wanted: seq<Chunk>, source: string) {
    Uniform(Live(wanted, source)) && (Live(wanted, source) != [] ==> DigestOf(wanted, source) != "")
  }

  /** On a store that holds one version of the source, the check comes down to the load alone. */
  lemma FaithfulAgreesIff(store: Option<seq<Chunk>>, wanted: seq<Chunk>, source: string)
    requires AllLive(wanted) && source != "" && Faithful(store, wanted, source)
    ensures LiveIn(Ingested(store, wanted), source) == Live(wanted, source) <==>
              LiveIn(store, source) == [] || OneFile(wanted, source)
  {
    AgreesWithRebuildIff(store, wanted, source);
    var was, want := LiveIn(store, source), Live(wanted, source);
    if was != [] && want != [] {
      assert Uniform(want) <==> AllOf(want, Last(want).digest);
      assert NoneOf(was, Last(want).digest) <==> Last(was).digest != Last(want).digest;
    }
  }

  /** One source, two files: when the second file changes, the next ingest retires the first one too. */
  lemma SecondFileRetiresFirst(docs: seq<Chunk>, wanted: seq<Chunk>, source: string, a: Chunk, b: Chunk, c: Chunk)
    requires AllLive(wanted) && source != "" && Live(docs, source) == [a, b] && Live(wanted, source) == [a, c]
    requires c.digest != "" && c.digest != a.digest && c.digest != b.digest
    ensures Live(Ingested(Some(docs), wanted).value, source) == [c]
  {
    LiveIngested(docs, wanted, source);
    OnlyLast(a, b, c);
    assert [] + [c] == [c];
  }

  lemma OnlyLast(a: Chunk, b: Chunk, c: Chunk)
    requires c.digest != a.digest && c.digest != b.digest
    ensures OfDigest([a, b], c.digest) == [] && OfDigest([a, c], c.digest) == [c]
  {
    OfDigestNone([a, b], c.digest);
    OfDigestNone([a], c.digest);
    OfDigestSnoc([a], c, c.digest);
    assert [a] + [c] == [a, c] && [] + [c] == [c];
  }

  /**
   A file of the same name for the same tenant in two directories gives one source two hashes. A first ingest keeps
   both files; when the second one changes, the next ingest loses the first one, which is still there.
   */
  lemma TwoFilesOfOneNameLoseOne()
    ensures var a := Chunk("demo", "x.md", "h1", "first file", false);
            var b := Chunk("demo", "x.md", "h2", "second file", false);
            var c := Chunk("demo", "x.md", "h3", "second file, changed", false);
            && LiveIn(AfterIngests([[a, b]]), "x.md") == Live([a, b], "x.md") == [a, b]
            && LiveIn(AfterIngests([[a, b], [a, c]]), "x.md") == [c]
            && Live([a, c], "x.md") == [a, c]
  {
    var a := Chunk("demo", "x.md", "h1", "first file", false);
    var b := Chunk("demo", "x.md", "h2", "second file", false);
    var c := Chunk("demo", "x.md", "h3", "second file, changed", false);
    LiveOfOneSource([a, b], "x.md", "x.md");
    LiveOfOneSource([a, c], "x.md", "x.md");
    OneIngest([a, b], "x.md");
    var loads := [[a, b]];
    assert Front(loads + [[a, c]]) == loads && loads + [[a, c]] == [[a, b], [a, c]];
    SecondFileRetiresFirst(AfterIngests(loads).value, [a, c], "x.md", a, b, c);
  }

  lemma OneIngest(wanted: seq<Chunk>, source: string)
    requires AllLive(wanted) && Live(wanted, source) != []
    ensures AfterIngests([wanted]).Some? && Live(AfterIngests([wanted]).value, source) == Live(wanted, source)
  {
    assert Front([wanted]) == [];
    LiveFirstIngested(wanted, source);
  }

  // ----- Many ingests

  /** What files of a given name and hash are cut into. */
  type Cuts = map<(string, string), seq<Chunk>>

  /** The chunks found for a source are those of one file version. */
  ghost predicate CutFrom(chunks: seq<Chunk>, source: string, cuts: Cuts) {
    chunks != [] ==>
      && Uniform(chunks) && chunks[0].digest != ""
      && (source, chunks[0].digest) in cuts && chunks == cuts[(source, chunks[0].digest)]
  }

  ghost predicate SoundLoad(wanted: seq<Chunk>, cuts: Cuts) {
    && AllLive(wanted)
    && (forall s :: s != "" ==> CutFrom(Live(wanted, s), s, cuts))
  }

  function AfterIngests(loads: seq<seq<Chunk>>): Option<seq<Chunk>> {
    if loads == [] then None else Ingested(AfterIngests(Front(loads)), Last(loads))
  }

  /** However many ingests, whatever changed, came and went in between: live is what the last load wants. */
  lemma {:induction false} EveryIngestEqualsRebuild(loads: seq<seq<Chunk>>, cuts: Cuts, source: string)
    requires source != "" && loads != []
    requires forall i :: 0 <= i < |loads| ==> SoundLoad(loads[i], cuts)
    ensures LiveIn(AfterIngests(loads), source) == Live(Last(loads), source)
  {
    var store, wanted := AfterIngests(Front(loads)), Last(loads);
    assert SoundLoad(loads[|loads| - 1], cuts);
    if |loads| > 1 {
      EveryIngestEqualsRebuild(Front(loads), cuts, source);
      assert SoundLoad(loads[|loads| - 2], cuts);
      assert CutFrom(Live(Last(Front(loads)), source), source, cuts);
    }
    assert CutFrom(LiveIn(store, source), source, cuts) && CutFrom(Live(wanted, source), source, cuts);
    FaithfulAgreesIff(store, wanted, source);
  }

  // ----- No gap while the new version replaces the old one

  /** The store after adding, with the sweep done for its first `k` chunks. */
  function MidSweep(docs: seq<Chunk>, wanted: seq<Chunk>, k: nat): seq<Chunk>
    requires k <= |docs| + |NewDocs(docs, wanted, Sources(wanted))|
  {
    var all := docs + NewDocs(docs, wanted, Sources(wanted));
    SweptAll(all[..k], RetireSet(docs, wanted), KeepHashes(wanted)) + all[k..]
  }

  ghost predicate EndsWith(xs: seq<Chunk>, ys: seq<Chunk>) {
    |xs| >= |ys| && xs[|xs| - |ys|..] == ys
  }

  lemma OfDigestPart(xs: seq<Chunk>, k: nat, digest: string)
    requires k <= |xs| && OfDigest(xs, digest) == xs
    ensures OfDigest(xs[..k], digest) == xs[..k]
  {
    OfDigestKeeps(xs, digest);
    OfDigestKeeps(xs[..k], digest);
  }

  /** Filtering any first part of `m + n` leaves `n` at the end, when `n` passes the filter. */
  lemma OfDigestSuffix(a: seq<Chunk>, b: seq<Chunk>, m: seq<Chunk>, n: seq<Chunk>, digest: string)
    requires a + b == m + n && OfDigest(n, digest) == n
    ensures EndsWith(OfDigest(a, digest) + b, n)
  {
    if |a| <= |m| {
      CutBefore(a, b, m, n);
      EndsWithMore(OfDigest(a, digest), m[|a|..], n);
    } else {
      CutAfter(a, b, m, n);
      var k := |a| - |m|;
      OfDigestAppend(m, n[..k], digest);
      OfDigestPart(n, k, digest);
      EndsWithJoin(OfDigest(m, digest), n, k);
    }
  }

  lemma CutBefore(a: seq<Chunk>, b: seq<Chunk>, m: seq<Chunk>, n: seq<Chunk>)
    requires a + b == m + n && |a| <= |m|
    ensures b == m[|a|..] + n
  {
    assert b == (a + b)[|a|..];
    assert (m + n)[|a|..] == m[|a|..] + n;
  }

  lemma CutAfter(a: seq<Chunk>, b: seq<Chunk>, m: seq<Chunk>, n: seq<Chunk>)
    requires a + b == m + n && |a| >= |m|
    ensures a == m + n[..|a| - |m|] && b == n[|a| - |m|..]
  {
    assert a == (a + b)[..|a|] && b == (a + b)[|a|..];
  }

  lemma EndsWithMore(x: seq<Chunk>, y: seq<Chunk>, n: seq<Chunk>)
    ensures EndsWith(x + (y + n), n)
  {}

  lemma EndsWithJoin(x: seq<Chunk>, n: seq<Chunk>, k: nat)
    requires k <= |n|
    ensures EndsWith(x + n[..k] + n[k..], n)
  {}

  /** How many chunks the sweep walks. */
  function SweepLength(docs: seq<Chunk>, wanted: seq<Chunk>): nat {
    |docs| + |NewDocs(docs, wanted, Sources(wanted))|
  }

  /** The sweep leaves the whole loaded version of the source alone. */
  ghost predicate VersionStays(docs: seq<Chunk>, wanted: seq<Chunk>, source: string) {
    var was, want := Live(docs, source), Live(wanted, source);
    || want == []
    || (if Unchanged(docs, wanted, source) then EndsWith(was, want)
        else was == [] || (Last(want).digest != "" && AllOf(want, Last(want).digest)))
  }

  /**
   From the moment the chunks are added, at every point of the sweep, the whole loaded version of the source is
   live, if and only if all its chunks carry one hash that is not empty, or the source was not live before (or it
   was skipped, and what it held ends with that version).
   */
  lemma NewVersionIsLiveThroughoutIff(docs: seq<Chunk>, wanted: seq<Chunk>, source: string)
    requires AllLive(wanted) && source != ""
    ensures (forall k: nat :: k <= SweepLength(docs, wanted) ==>
              EndsWith(Live(MidSweep(docs, wanted, k), source), Live(wanted, source)))
            <==> VersionStays(docs, wanted, source)
  {
    if VersionStays(docs, wanted, source) {
      forall k: nat | k <= SweepLength(docs, wanted)
        ensures EndsWith(Live(MidSweep(docs, wanted, k), source), Live(wanted, source))
      {
        VersionIsLive(docs, wanted, source, k);
      }
    } else {
      SweepEnds(docs, wanted, source);
      var want := Live(wanted, source);
      if !Unchanged(docs, wanted, source) && Last(want).digest != "" {
        OfDigestMembers(Live(docs, source), Last(want).digest);
        OfDigestMembers(want, Last(want).digest);
        NotAllAtEnd(OfDigest(Live(docs, source), Last(want).digest) + OfDigest(want, Last(want).digest), want);
      }
      assert !EndsWith(Live(MidSweep(docs, wanted, SweepLength(docs, wanted)), source), want);
    }
  }

  lemma NotAllAtEnd(xs: seq<Chunk>, want: seq<Chunk>)
    requires want != [] && AllOf(xs, Last(want).digest) && !AllOf(want, Last(want).digest)
    ensures !EndsWith(xs, want)
  {
    var i :| 0 <= i < |want| && want[i].digest != Last(want).digest;
    assert |xs| >= |want| ==> xs[|xs| - |want|..][i] != want[i];
  }

  /**
   A file that was searchable before and still exists is never without a live chunk, at any point of the sweep, if
   and only if the hash the load knows it by is not empty.
   */
  lemma NeverWithoutLiveVersionIff(docs: seq<Chunk>, wanted: seq<Chunk>, source: string)
    requires AllLive(wanted) && source != "" && Live(docs, source) != [] && Live(wanted, source) != []
    ensures (forall k: nat :: k <= SweepLength(docs, wanted) ==> Live(MidSweep(docs, wanted, k), source) != [])
            <==> DigestOf(wanted, source) != ""
  {
    if DigestOf(wanted, source) != "" {
      forall k: nat | k <= SweepLength(docs, wanted) ensures Live(MidSweep(docs, wanted, k), source) != [] {
        SomethingIsLive(docs, wanted, source, k);
      }
    } else {
      SweepEnds(docs, wanted, source);
      assert Live(MidSweep(docs, wanted, SweepLength(docs, wanted)), source) == [];
    }
  }

  lemma VersionIsLive(docs: seq<Chunk>, wanted: seq<Chunk>, source: string, k: nat)
    requires AllLive(wanted) && source != "" && VersionStays(docs, wanted, source) && k <= SweepLength(docs, wanted)
    ensures EndsWith(Live(MidSweep(docs, wanted, k), source), Live(wanted, source))
  {
    var was, want := Live(docs, source), Live(wanted, source);
    if want == [] {
      assert EndsWith(Live(MidSweep(docs, wanted, k), source), []);
    } else if Unchanged(docs, wanted, source) || was == [] {
      Unswept(docs, wanted, source, k);
    } else {
      var a, b := HalfSwept(docs, wanted, source, k);
      OfDigestKeeps(want, Last(want).digest);
      OfDigestSuffix(a, b, was, want, Last(want).digest);
    }
  }

  lemma SomethingIsLive(docs: seq<Chunk>, wanted: seq<Chunk>, source: string, k: nat)
    requires AllLive(wanted) && source != "" && Live(docs, source) != [] && Live(wanted, source) != []
    requires DigestOf(wanted, source) != "" && k <= SweepLength(docs, wanted)
    ensures Live(MidSweep(docs, wanted, k), source) != []
  {
    if Unchanged(docs, wanted, source) {
      Unswept(docs, wanted, source, k);
    } else {
      var a, b := HalfSwept(docs, wanted, source, k);
      if b == [] {
        assert a == Live(docs, source) + Live(wanted, source) && Last(a) == Last(Live(wanted, source));
        assert !NoneOf(a, DigestOf(wanted, source));
        SomeOfDigest(a, DigestOf(wanted, source));
      }
    }
  }

  /** At its end the sweep has made the store the ingest leaves. */
  lemma SweepEnds(docs: seq<Chunk>, wanted: seq<Chunk>, source: string)
    requires AllLive(wanted) && source != ""
    ensures MidSweep(docs, wanted, SweepLength(docs, wanted)) == Ingested(Some(docs), wanted).value
    ensures var want, after := Live(wanted, source), Live(MidSweep(docs, wanted, SweepLength(docs, wanted)), source);
            && (Unchanged(docs, wanted, source) ==> after == Live(docs, source))
            && (!Unchanged(docs, wanted, source) && Live(docs, source) != [] && want != [] ==>
                  after == if Last(want).digest == "" then []
                           else OfDigest(Live(docs, source), Last(want).digest) + OfDigest(want, Last(want).digest))
  {
    var all := docs + NewDocs(docs, wanted, Sources(wanted));
    assert all[..|all|] == all;
    LiveIngested(docs, wanted, source);
  }

  /** A source that is skipped, or was not live, is not swept at all. */
  lemma Unswept(docs: seq<Chunk>, wanted: seq<Chunk>, source: string, k: nat)
    requires AllLive(wanted) && source != "" && k <= SweepLength(docs, wanted)
    requires Unchanged(docs, wanted, source) || Live(docs, source) == []
    ensures Live(MidSweep(docs, wanted, k), source) ==
            if Unchanged(docs, wanted, source) then Live(docs, source) else Live(wanted, source)
  {
    LiveMidSweep(docs, wanted, source, k);
    AddedVersion(docs, wanted, source);
    LiveCut(docs + NewDocs(docs, wanted, Sources(wanted)), k, source);
  }

  /** A changed source: its old and its loaded version, cut where the sweep has got to. */
  lemma HalfSwept(docs: seq<Chunk>, wanted: seq<Chunk>, source: string, k: nat) returns (a: seq<Chunk>, b: seq<Chunk>)
    requires AllLive(wanted) && source != "" && k <= SweepLength(docs, wanted)
    requires !Unchanged(docs, wanted, source) && Live(docs, source) != [] && Live(wanted, source) != []
    requires DigestOf(wanted, source) != ""
    ensures a + b == Live(docs, source) + Live(wanted, source)
    ensures Live(MidSweep(docs, wanted, k), source) == OfDigest(a, DigestOf(wanted, source)) + b
  {
    var all := docs + NewDocs(docs, wanted, Sources(wanted));
    a, b := Live(all[..k], source), Live(all[k..], source);
    LiveMidSweep(docs, wanted, source, k);
    AddedVersion(docs, wanted, source);
    LiveCut(all, k, source);
  }

  lemma LiveCut(all: seq<Chunk>, k: nat, source: string)
    requires k <= |all|
    ensures Live(all[..k], source) + Live(all[k..], source) == Live(all, source)
  {
    LiveAppend(all[..k], all[k..], source);
    assert all[..k] + all[k..] == all;
  }

  lemma AddedVersion(docs: seq<Chunk>, wanted: seq<Chunk>, source: string)
    requires AllLive(wanted) && source != ""
    ensures Live(docs + NewDocs(docs, wanted, Sources(wanted)), source) ==
            if Unchanged(docs, wanted, source) then Live(docs, source) else Live(docs, source) + Live(wanted, source)
  {
    SourcesAreDistinct(wanted);
    SourceIsWanted(wanted, source);
    NewDocsOfSource(docs, wanted, Sources(wanted), source);
    LiveAppend(docs, NewDocs(docs, wanted, Sources(wanted)), source);
  }

  lemma LiveMidSweep(docs: seq<Chunk>, wanted: seq<Chunk>, source: string, k: nat)
    requires AllLive(wanted) && source != "" && k <= SweepLength(docs, wanted)
    ensures var all := docs + NewDocs(docs, wanted, Sources(wanted));
            var a, b := Live(all[..k], source), Live(all[k..], source);
            Live(MidSweep(docs, wanted, k), source) ==
            (if !Retires(docs, wanted, source) then a
             else if Live(wanted, source) == [] || DigestOf(wanted, source) == "" then []
             else OfDigest(a, DigestOf(wanted, source))) + b
  {
    var all := docs + NewDocs(docs, wanted, Sources(wanted));
    var sources, keep := RetireSet(docs, wanted), KeepHashes(wanted);
    SourceIsWanted(wanted, source);
    RetireSetHas(docs, wanted, source);
    LiveAppend(SweptAll(all[..k], sources, keep), all[k..], source);
    LiveSwept(all[..k], sources, keep, source);
  }

  // ----- The index, updated in place

  type Stores = map<string, seq<Chunk>>

  function StoreOf(stores: Stores, tenant: string): Option<seq<Chunk>> {
    if tenant in stores then Some(stores[tenant]) else None
  }

  /** The chunks of one tenant, in order. */
  function OfTenant(docs: seq<Chunk>, tenant: string): seq<Chunk> {
    if docs == [] then []
    else if Last(docs).tenant == tenant then OfTenant(Front(docs), tenant) + [Last(docs)]
    else OfTenant(Front(docs), tenant)
  }

  /** They are the chunks that name the tenant. */
  lemma {:induction false} OfTenantIsPick(docs: seq<Chunk>, tenant: string, mask: seq<bool>)
    requires |mask| == |docs| && forall i :: 0 <= i < |docs| ==> mask[i] == (docs[i].tenant == tenant)
    ensures OfTenant(docs, tenant) == Pick(docs, mask, true)
  {
    if docs != [] { OfTenantIsPick(Front(docs), tenant, Front(mask)); }
  }

  /** What a full rebuild stores for a tenant. */
  function RebuiltStore(loaded: seq<Chunk>, tenant: string): Option<seq<Chunk>> {
    if OfTenant(loaded, tenant) == [] then None else Some(OfTenant(loaded, tenant))
  }

  lemma {:induction false} TenantLive(docs: seq<Chunk>, tenant: string)
    requires AllLive(docs)
    ensures AllLive(OfTenant(docs, tenant))
  {
    if docs != [] {
      assert AllLive(Front(docs)) by { assert forall i :: 0 <= i < |docs| - 1 ==> Front(docs)[i] == docs[i]; }
      TenantLive(Front(docs), tenant);
    }
  }

  method GroupDocuments(loaded: seq<Chunk>) returns (grouped: Stores)
    ensures forall t :: StoreOf(grouped, t) == RebuiltStore(loaded, t)
  {
    grouped := map[];
    for i := 0 to |loaded|
      invariant forall t :: StoreOf(grouped, t) == RebuiltStore(loaded[..i], t)
    {
      var c := loaded[i];
      assert Front(loaded[..i + 1]) == loaded[..i];
      ghost var before := grouped;
      grouped := grouped[c.tenant := (if c.tenant in grouped then grouped[c.tenant] else []) + [c]];
      forall t ensures StoreOf(grouped, t) == RebuiltStore(loaded[..i + 1], t) {
        assert StoreOf(before, t) == RebuiltStore(loaded[..i], t);
      }
    }
    assert loaded[..|loaded|] == loaded;
  }

  ghost predicate HashesOf(hashes: map<string, string>, docs: seq<Chunk>, withBlank: bool) {
    forall s :: (s in hashes <==> (withBlank || s != "") && Live(docs, s) != []) &&
                (s in hashes ==> hashes[s] == DigestOf(docs, s))
  }

  method LiveSourceHashes(docs: seq<Chunk>) returns (hashes: map<string, string>)
    ensures HashesOf(hashes, docs, false)
  {
    hashes := map[];
    for i := 0 to |docs|
      invariant HashesOf(hashes, docs[..i], false)
    {
      assert Front(docs[..i + 1]) == docs[..i];
      if !docs[i].deleted && docs[i].source != "" {
        hashes := hashes[docs[i].source := docs[i].digest];
      }
    }
    assert docs[..|docs|] == docs;
  }

  /** The wanted chunks by source, the hash of each source, and the sources in order of first appearance. */
  method WantedBySource(wanted: seq<Chunk>)
    returns (order: seq<string>, bySource: map<string, seq<Chunk>>, hashes: map<string, string>)
    requires AllLive(wanted)
    ensures order == Sources(wanted) && hashes == KeepHashes(wanted) && HashesOf(hashes, wanted, true)
    ensures forall s :: s in bySource <==> s in order
    ensures forall s :: s in bySource ==> bySource[s] == Live(wanted, s)
  {
    order, bySource, hashes := [], map[], map[];
    for i := 0 to |wanted|
      invariant order == Sources(wanted[..i]) && Groups(bySource, wanted[..i]) && HashesOf(hashes, wanted[..i], true)
    {
      var c := wanted[i];
      assert wanted[..i + 1] == wanted[..i] + [c];
      NextSource(wanted[..i], c, bySource);
      NextWanted(wanted[..i], c, bySource, hashes);
      if c.source !in bySource {
        order := order + [c.source];
        bySource := bySource[c.source := []];
      }
      bySource := bySource[c.source := bySource[c.source] + [c]];
      hashes := hashes[c.source := c.digest];
    }
    assert wanted[..|wanted|] == wanted;
    AllGrouped(wanted, bySource, hashes);
  }

  lemma NextSource(docs: seq<Chunk>, c: Chunk, bySource: map<string, seq<Chunk>>)
    requires AllLive(docs) && Groups(bySource, docs)
    ensures Sources(docs + [c]) == if c.source in bySource then Sources(docs) else Sources(docs) + [c.source]
  {
    SourceIsWanted(docs, c.source);
    assert Front(docs + [c]) == docs;
  }

  lemma AllGrouped(wanted: seq<Chunk>, bySource: map<string, seq<Chunk>>, hashes: map<string, string>)
    requires AllLive(wanted) && Groups(bySource, wanted) && HashesOf(hashes, wanted, true)
    ensures hashes == KeepHashes(wanted)
    ensures forall s :: s in bySource <==> s in Sources(wanted)
  {
    forall s { SourceIsWanted(wanted, s); }
  }

  /** The map holds the live chunks of every source that has any. */
  ghost predicate Groups(bySource: map<string, seq<Chunk>>, docs: seq<Chunk>) {
    forall s :: (s in bySource <==> Live(docs, s) != []) && (s in bySource ==> bySource[s] == Live(docs, s))
  }

  lemma LiveSnoc(docs: seq<Chunk>, c: Chunk, source: string)
    ensures Live(docs + [c], source) == Live(docs, source) + (if c.source == source && !c.deleted then [c] else [])
  {
    assert Front(docs + [c]) == docs;
  }

  lemma NextWanted(docs: seq<Chunk>, c: Chunk, bySource: map<string, seq<Chunk>>, hashes: map<string, string>)
    requires !c.deleted && Groups(bySource, docs) && HashesOf(hashes, docs, true)
    ensures Groups(bySource[c.source := (if c.source in bySource then bySource[c.source] else []) + [c]], docs + [c])
    ensures HashesOf(hashes[c.source := c.digest], docs + [c], true)
  {
    NextGroups(docs, c, bySource);
    NextHashes(docs, c, hashes);
  }

  lemma NextGroups(docs: seq<Chunk>, c: Chunk, bySource: map<string, seq<Chunk>>)
    requires !c.deleted && Groups(bySource, docs)
    ensures Groups(bySource[c.source := (if c.source in bySource then bySource[c.source] else []) + [c]], docs + [c])
  {
    forall s { LiveSnoc(docs, c, s); }
    assert [] + [c] == [c];
  }

  lemma NextHashes(docs: seq<Chunk>, c: Chunk, hashes: map<string, string>)
    requires !c.deleted && HashesOf(hashes, docs, true)
    ensures HashesOf(hashes[c.source := c.digest], docs + [c], true)
  {
    forall s { LiveSnoc(docs, c, s); }
  }

  /** Comparing the two hashes of a source tells whether its file changed. */
  lemma HashTest(live: map<string, string>, hashes: map<string, string>, docs: seq<Chunk>, wanted: seq<Chunk>, source: string)
    requires HashesOf(live, docs, false) && HashesOf(hashes, wanted, true) && source in hashes
    ensures hashes[source] != "" && source in live && live[source] == hashes[source] <==> Unchanged(docs, wanted, source)
    ensures source in live && !Unchanged(docs, wanted, source) <==> Retires(docs, wanted, source)
  {}

  /** Walk the wanted sources and decide what to add, and which of them have an old version to retire. */
  method PlanWanted(docs: seq<Chunk>, wanted: seq<Chunk>, order: seq<string>, bySource: map<string, seq<Chunk>>,
                    hashes: map<string, string>, live: map<string, string>)
    returns (added: seq<Chunk>, retire: set<string>)
    requires HashesOf(live, docs, false) && HashesOf(hashes, wanted, true)
    requires forall s :: s in order ==> s in hashes && s in bySource && bySource[s] == Live(wanted, s)
    ensures added == NewDocs(docs, wanted, order)
    ensures forall s :: s in retire <==> s in order && Retires(docs, wanted, s)
  {
    added, retire := [], {};
    for i := 0 to |order|
      invariant added == NewDocs(docs, wanted, order[..i])
      invariant forall s :: s in retire <==> s in order[..i] && Retires(docs, wanted, s)
    {
      var source := order[i];
      assert source in order;
      HashTest(live, hashes, docs, wanted, source);
      assert order[..i + 1] == order[..i] + [source] && Front(order[..i + 1]) == order[..i];
      if !(hashes[source] != "" && source in live && live[source] == hashes[source]) {
        added := added + bySource[source];
        if source in live {
          retire := retire + {source};
        }
      }
    }
    assert order[..|order|] == order;
  }

  /** Decide, source by source, what to add and what to retire. */
  method PlanTenant(docs: seq<Chunk>, wanted: seq<Chunk>)
    returns (added: seq<Chunk>, retire: set<string>, keep: map<string, string>)
    requires AllLive(wanted)
    ensures added == NewDocs(docs, wanted, Sources(wanted))
    ensures retire == RetireSet(docs, wanted) && keep == KeepHashes(wanted)
  {
    var order, bySource, hashes := WantedBySource(wanted);
    var live := LiveSourceHashes(docs);
    forall s { SourceIsWanted(wanted, s); }
    added, retire := PlanWanted(docs, wanted, order, bySource, hashes, live);
    retire := retire + set s | s in live && s !in hashes;
    keep := hashes;
    forall s ensures s in retire <==> s in RetireSet(docs, wanted) {
      RetireSetHas(docs, wanted, s);
      RetiredOrGone(live, hashes, docs, wanted, s);
    }
  }

  lemma RetiredOrGone(live: map<string, string>, hashes: map<string, string>, docs: seq<Chunk>, wanted: seq<Chunk>, source: string)
    requires HashesOf(live, docs, false) && HashesOf(hashes, wanted, true) && AllLive(wanted)
    ensures Retires(docs, wanted, source) <==>
              (source in Sources(wanted) && Retires(docs, wanted, source)) || (source in live && source !in hashes)
  {
    SourceIsWanted(wanted, source);
  }

  lemma SweepNothing(docs: seq<Chunk>, keep: map<string, string>)
    ensures SweptAll(docs, {}, keep) == docs
  {
    assert |SweptAll(docs, {}, keep)| == |docs|;
  }

  class Index {
    var stores: Stores

    constructor ()
      ensures stores == map[]
    {
      stores := map[];
    }

    /** Mark the chunks of the given sources deleted, except those that carry the hash to keep. */
    method SoftDeleteStale(tenant: string, sources: set<string>, keep: map<string, string>)
      requires tenant in stores
      modifies this
      ensures stores == old(stores)[tenant := SweptAll(old(stores[tenant]), sources, keep)]
    {
      var docs := stores[tenant];
      ghost var was := docs;
      for i := 0 to |docs|
        invariant |docs| == |was|
        invariant forall j :: 0 <= j < |docs| ==> docs[j] == if j < i then Swept(was[j], sources, keep) else was[j]
      {
        var c := docs[i];
        if c.source in sources && !c.deleted && !(c.source in keep && keep[c.source] != "" && c.digest == keep[c.source]) {
          docs := docs[i := c.(deleted := true)];
        }
      }
      assert docs == SweptAll(was, sources, keep);
      stores := stores[tenant := docs];
    }

    method IngestTenant(tenant: string, wanted: seq<Chunk>)
      requires AllLive(wanted)
      modifies this
      ensures forall t :: StoreOf(stores, t) ==
                if t == tenant then Ingested(StoreOf(old(stores), t), wanted) else StoreOf(old(stores), t)
    {
      var docs := if tenant in stores then stores[tenant] else [];
      var added, retire, keep := PlanTenant(docs, wanted);
      SweepNothing(docs + added, keep);
      assert docs + [] == docs;
      if added == [] && retire == {} {
        return;
      }
      if tenant !in stores {
        stores := stores[tenant := added];
        return;
      }
      if added != [] {
        stores := stores[tenant := stores[tenant] + added];
      }
      if retire != {} {
        SoftDeleteStale(tenant, retire, keep);
      }
    }

    /** Nothing loaded is an error and changes nothing; an index that is not there yet is built in full. */
    method Ingest(loaded: seq<Chunk>, rebuild: bool) returns (ok: bool)
      requires AllLive(loaded)
      modifies this
      ensures ok == (loaded != [])
      ensures !ok ==> stores == old(stores)
      ensures ok && (rebuild || old(stores) == map[]) ==> forall t :: StoreOf(stores, t) == RebuiltStore(loaded, t)
      ensures ok && !rebuild && old(stores) != map[] ==>
                forall t :: StoreOf(stores, t) == Ingested(StoreOf(old(stores), t), OfTenant(loaded, t))
    {
      if loaded == [] {
        return false;
      }
      ok := true;
      var grouped := GroupDocuments(loaded);
      if rebuild || stores == map[] {
        stores := grouped;
        return;
      }
      var todo := stores.Keys + grouped.Keys;
      ghost var all := todo;
      while todo != {}
        invariant todo <= all == old(stores).Keys + grouped.Keys
        invariant forall t :: StoreOf(stores, t) ==
                    if t in all - todo then Ingested(StoreOf(old(stores), t), OfTenant(loaded, t)) else StoreOf(old(stores), t)
        decreases todo
      {
        var tenant :| tenant in todo;
        var wanted := if tenant in grouped then grouped[tenant] else [];
        assert StoreOf(grouped, tenant) == RebuiltStore(loaded, tenant);
        TenantLive(loaded, tenant);
        IngestTenant(tenant, wanted);
        todo := todo - {tenant};
      }
      forall t | t !in all ensures Ingested(StoreOf(old(stores), t), OfTenant(loaded, t)) == StoreOf(old(stores), t) {
        assert StoreOf(grouped, t) == RebuiltStore(loaded, t);
      }
    }
  }
}
