/** Document indexing (apps/nexus_worker/jobs.py) and the startup recovery of documents
    that a crash left in `processing` (apps/nexus_worker/startup.py). */
module DocumentIngest {
  import opened Wrappers

  type DocId = nat
  type Vec = seq<real>

  datatype Status = Uploaded | Processing | Ready | Failed
  datatype Doc = Doc(status: Status, version: nat, error: Option<string>)
  datatype Chunk = Chunk(id: nat, doc: DocId, index: nat, text: string)
  datatype Embedding = Embedding(chunkId: nat, vector: Vec)

  // The committed tables; `nextChunk` is the chunk id sequence.
  datatype Db = Db(docs: map<DocId, Doc>, chunks: seq<Chunk>, embeddings: seq<Embedding>, nextChunk: nat)

  // What goes wrong. `IndexRaises(n, half)`: code other than the database raises while
  // indexing, after n whole chunks, and after the next chunk's own row when `half`.
  datatype Fault =
    | NoFault
    | StageRaises(error: string)    // extract, chunk or embed
    | Crashes                       // at any point after the status was committed
    | DatabaseRaises                // while indexing: the transaction is lost
    | IndexRaises(n: nat, half: bool, error: string)

  const RECOVERED := "Recovered after worker restart (was stuck in processing)"

  /******* Selecting rows *******/

  function Where<T>(s: seq<T>, p: T -> bool): seq<T> {
    if s == [] then []
    else Where(s[..|s| - 1], p) + if p(s[|s| - 1]) then [s[|s| - 1]] else []
  }

  function OfDoc(d: DocId): Chunk -> bool {
    (c: Chunk) => c.doc == d
  }

  function NotOfDoc(d: DocId): Chunk -> bool {
    (c: Chunk) => c.doc != d
  }

  function OfChunk(id: nat): Embedding -> bool {
    (e: Embedding) => e.chunkId == id
  }

  function NotOfChunks(ids: set<nat>): Embedding -> bool {
    (e: Embedding) => e.chunkId !in ids
  }

  function Ids(chunks: seq<Chunk>): set<nat> {
    set c | c in chunks :: c.id
  }

  /******* Specification *******/

  // Chunks and vectors are paired up to the shorter of the two lists.
  function Zip(texts: seq<string>, vectors: seq<Vec>): seq<(string, Vec)> {
    var n := if |texts| < |vectors| then |texts| else |vectors|;
    seq(n, i requires 0 <= i < n => (texts[i], vectors[i]))
  }

  function NewChunks(next: nat, d: DocId, items: seq<(string, Vec)>): seq<Chunk> {
    seq(|items|, i requires 0 <= i < |items| => Chunk(next + i, d, i, items[i].0))
  }

  function NewEmbeddings(next: nat, items: seq<(string, Vec)>): seq<Embedding> {
    seq(|items|, i requires 0 <= i < |items| => Embedding(next + i, items[i].1))
  }

  // The old rows of d replaced by new ones: the first `c` chunks and `e` embeddings.
  function Reindexed(db: Db, d: DocId, items: seq<(string, Vec)>, c: nat, e: nat): Db
    requires e <= c <= |items|
  {
    var gone := Ids(Where(db.chunks, OfDoc(d)));
    db.(chunks := Where(db.chunks, NotOfDoc(d)) + NewChunks(db.nextChunk, d, items[..c]),
        embeddings := Where(db.embeddings, NotOfChunks(gone)) + NewEmbeddings(db.nextChunk, items[..e]),
        nextChunk := db.nextChunk + c)
  }

  function WithDoc(db: Db, d: DocId, doc: Doc): Db {
    db.(docs := db.docs[d := doc])
  }

  function EmbeddingsAdded(items: seq<(string, Vec)>, fault: Fault): (e: nat)
    requires fault.NoFault? || fault.IndexRaises?
    ensures e <= |items|
  {
    if fault.IndexRaises? then Min(fault.n, |items|) else |items|
  }

  function ChunksAdded(items: seq<(string, Vec)>, fault: Fault): (c: nat)
    requires fault.NoFault? || fault.IndexRaises?
    ensures EmbeddingsAdded(items, fault) <= c <= |items|
  {
    var e := EmbeddingsAdded(items, fault);
    if e < |items| && fault.half then e + 1 else e
  }

  function Embedded(db: Db, d: DocId, items: seq<(string, Vec)>, fault: Fault): Db {
    if d !in db.docs then db
    else
      var doc := db.docs[d].(status := Processing, error := None);
      match fault
      case NoFault =>
        WithDoc(Reindexed(db, d, items, |items|, |items|), d, doc.(status := Ready, version := doc.version + 1))
      case StageRaises(msg) => WithDoc(db, d, doc.(status := Failed, error := Some(msg)))
      case Crashes => WithDoc(db, d, doc)
      case DatabaseRaises => WithDoc(db, d, doc)
      case IndexRaises(_, _, msg) =>
        WithDoc(Reindexed(db, d, items, ChunksAdded(items, fault), EmbeddingsAdded(items, fault)), d,
                doc.(status := Failed, error := Some(msg)))
  }

  function RecoveredDoc(doc: Doc): Doc {
    if doc.status == Processing then doc.(status := Uploaded, error := Some(RECOVERED)) else doc
  }

  function Recovered(db: Db): Db {
    db.(docs := map d | d in db.docs :: RecoveredDoc(db.docs[d]))
  }

  function Stuck(docs: map<DocId, Doc>): set<DocId> {
    set d | d in docs && docs[d].status == Processing
  }

  // Those of `ids` set back.
  function SetBack(docs: map<DocId, Doc>, ids: set<DocId>): map<DocId, Doc> {
    map d | d in docs :: if d in ids then RecoveredDoc(docs[d]) else docs[d]
  }

  function Reset(db: Db, d: DocId): Db {
    if d in db.docs then WithDoc(db, d, db.docs[d].(status := Uploaded, error := None)) else db
  }

  function Deleted(db: Db, d: DocId): Db {
    if d in db.docs then
      var gone := Ids(Where(db.chunks, OfDoc(d)));
      db.(docs := db.docs - {d}, chunks := Where(db.chunks, NotOfDoc(d)),
          embeddings := Where(db.embeddings, NotOfChunks(gone)))
    else db
  }

  /******* What an ingest is for *******/

  // The document row after an ingest.
  function EndOfIngest(version: nat, fault: Fault): Doc {
    match fault
    case NoFault => Doc(Ready, version + 1, None)
    case StageRaises(msg) => Doc(Failed, version, Some(msg))
    case IndexRaises(_, _, msg) => Doc(Failed, version, Some(msg))
    case Crashes => Doc(Processing, version, None)
    case DatabaseRaises => Doc(Processing, version, None)
  }

  // The document's chunks are the first c texts, numbered from 0; the i-th of the first e has
  // one embedding, the i-th vector, and the others have none.
  ghost predicate RowsAre(db: Db, d: DocId, texts: seq<string>, vectors: seq<Vec>, c: nat, e: nat) {
    var own := Where(db.chunks, OfDoc(d));
    && |own| == c <= |texts| && e <= c && e <= |vectors|
    && forall i :: 0 <= i < c ==> RowIs(db, own[i], i, texts[i], if i < e then Some(vectors[i]) else None)
  }

  ghost predicate RowIs(db: Db, row: Chunk, i: nat, text: string, vector: Option<Vec>) {
    && row.index == i && row.text == text
    && Where(db.embeddings, OfChunk(row.id))
       == match vector { case Some(v) => [Embedding(row.id, v)] case None => [] }
  }

  // The document row tells how the ingest went; if it got to write rows, they are those of
  // the texts and the vectors, as far as both go, or as far as it got.
  ghost predicate IngestTells(
    db: Db, after: Db, d: DocId, texts: seq<string>, vectors: seq<Vec>, fault: Fault)
  {
    var m := Min(|texts|, |vectors|);
    if d !in db.docs then after == db
    else
      && after.docs == db.docs[d := EndOfIngest(db.docs[d].version, fault)]
      && (Sound(db) && fault.NoFault? ==> RowsAre(after, d, texts, vectors, m, m))
      && (Sound(db) && fault.IndexRaises? ==>
            RowsAre(after, d, texts, vectors,
                    if fault.half && fault.n < m then fault.n + 1 else Min(fault.n, m), Min(fault.n, m)))
  }

  lemma {:induction false} EmbeddedTells(db: Db, d: DocId, texts: seq<string>, vectors: seq<Vec>, fault: Fault)
    ensures IngestTells(db, Embedded(db, d, Zip(texts, vectors), fault), d, texts, vectors, fault)
  {
    if Sound(db) && d in db.docs && (fault.NoFault? || fault.IndexRaises?) {
      EmbeddedRows(db, d, texts, vectors, fault);
    }
  }

  // New rows, position by position.
  ghost predicate AreRows(
    newC: seq<Chunk>, newE: seq<Embedding>, next: nat, d: DocId, texts: seq<string>, vectors: seq<Vec>)
  {
    && |newE| <= |newC| <= |texts| && |newE| <= |vectors|
    && (forall i :: 0 <= i < |newC| ==> newC[i] == Chunk(next + i, d, i, texts[i]))
    && (forall i :: 0 <= i < |newE| ==> newE[i] == Embedding(next + i, vectors[i]))
  }

  lemma {:induction false} RowStep(next: nat, d: DocId, texts: seq<string>, vectors: seq<Vec>, i: nat)
    requires i < |texts| && i < |vectors|
    ensures var items := Zip(texts, vectors);
      && NewChunks(next, d, items[..i + 1]) == NewChunks(next, d, items[..i]) + [Chunk(next + i, d, i, texts[i])]
      && NewEmbeddings(next, items[..i + 1]) == NewEmbeddings(next, items[..i]) + [Embedding(next + i, vectors[i])]
  {
  }

  lemma {:induction false} ZippedRows(next: nat, d: DocId, texts: seq<string>, vectors: seq<Vec>)
    ensures var items := Zip(texts, vectors);
      forall c, e :: 0 <= e <= c <= |items| ==>
        AreRows(NewChunks(next, d, items[..c]), NewEmbeddings(next, items[..e]), next, d, texts, vectors)
  {
  }

  lemma {:induction false} EmbeddedRows(db: Db, d: DocId, texts: seq<string>, vectors: seq<Vec>, fault: Fault)
    requires Sound(db) && d in db.docs && (fault.NoFault? || fault.IndexRaises?)
    ensures var items := Zip(texts, vectors);
      var (c, e) := (ChunksAdded(items, fault), EmbeddingsAdded(items, fault));
      RowsAre(Embedded(db, d, items, fault), d, texts, vectors, c, e)
  {
    var items := Zip(texts, vectors);
    var after := Embedded(db, d, items, fault);
    var w := Written(items[..ChunksAdded(items, fault)], EmbeddingsAdded(items, fault));
    EmbeddedHolds(db, d, items, fault);
    var own := Where(after.chunks, OfDoc(d));
    forall i | 0 <= i < |own|
      ensures RowIs(after, own[i], i, texts[i], if i < w.embedded then Some(vectors[i]) else None)
    {
      assert RowHolds(after, own[i], w, i);
      assert w.items[i] == (texts[i], vectors[i]);
    }
  }

  /******* The worker *******/

  class Worker {
    var docs: map<DocId, Doc>
    var chunks: seq<Chunk>
    var embeddings: seq<Embedding>
    var nextChunk: nat

    constructor (db: Db)
      ensures Tables() == db
    {
      docs, chunks, embeddings, nextChunk := db.docs, db.chunks, db.embeddings, db.nextChunk;
    }

    ghost function Tables(): Db
      reads this
    {
      Db(docs, chunks, embeddings, nextChunk)
    }

    // The rows the indexing loop adds before it ends or raises.
    method IndexRows(d: DocId, texts: seq<string>, vectors: seq<Vec>, fault: Fault)
      returns (newC: seq<Chunk>, newE: seq<Embedding>)
      requires fault.NoFault? || fault.IndexRaises?
      ensures var items := Zip(texts, vectors);
        newC == NewChunks(nextChunk, d, items[..ChunksAdded(items, fault)])
      ensures var items := Zip(texts, vectors);
        newE == NewEmbeddings(nextChunk, items[..EmbeddingsAdded(items, fault)])
      ensures AreRows(newC, newE, nextChunk, d, texts, vectors)
    {
      newC, newE := [], [];
      ghost var items := Zip(texts, vectors);
      var i := 0;
      while i < |texts| && i < |vectors|
        invariant 0 <= i <= |items| && (fault.IndexRaises? ==> i <= fault.n)
        invariant newC == NewChunks(nextChunk, d, items[..i]) && newE == NewEmbeddings(nextChunk, items[..i])
      {
        RowStep(nextChunk, d, texts, vectors, i);
        if fault.IndexRaises? && i == fault.n {
          if fault.half {
            newC := newC + [Chunk(nextChunk + i, d, i, texts[i])];
          }
          ZippedRows(nextChunk, d, texts, vectors);
          return;
        }
        newC := newC + [Chunk(nextChunk + i, d, i, texts[i])];
        newE := newE + [Embedding(nextChunk + i, vectors[i])];
        i := i + 1;
      }
      ZippedRows(nextChunk, d, texts, vectors);
    }

    // The old rows are cleared before the new ones are added.
    method ReplaceRows(d: DocId, newC: seq<Chunk>, newE: seq<Embedding>)
      modifies this`chunks, this`embeddings, this`nextChunk
      ensures chunks == Where(old(chunks), NotOfDoc(d)) + newC
      ensures embeddings == Where(old(embeddings), NotOfChunks(Ids(Where(old(chunks), OfDoc(d))))) + newE
      ensures nextChunk == old(nextChunk) + |newC|
    {
      var oldIds := Ids(Where(chunks, OfDoc(d)));
      embeddings := Where(embeddings, NotOfChunks(oldIds));
      chunks := Where(chunks, NotOfDoc(d));
      embeddings, chunks, nextChunk := embeddings + newE, chunks + newC, nextChunk + |newC|;
    }

    // The job: what it leaves in the tables, in terms of the texts and the vectors.
    method EmbedDocument(d: DocId, texts: seq<string>, vectors: seq<Vec>, fault: Fault)
      modifies this
      ensures Tables() == Embedded(old(Tables()), d, Zip(texts, vectors), fault)
      ensures IngestTells(old(Tables()), Tables(), d, texts, vectors, fault)
    {
      ghost var before := Tables();
      RunStages(d, texts, vectors, fault);
      EmbeddedTells(before, d, texts, vectors, fault);
    }

    method RunStages(d: DocId, texts: seq<string>, vectors: seq<Vec>, fault: Fault)
      modifies this
      ensures Tables() == Embedded(old(Tables()), d, Zip(texts, vectors), fault)
    {
      if d !in docs {
        return;
      }
      var doc := docs[d].(status := Processing, error := None);
      docs := docs[d := doc];
      if fault.Crashes? || fault.DatabaseRaises? {
        return;  // nothing after the status is ever committed
      }
      if fault.NoFault? || fault.IndexRaises? {
        var newC, newE := IndexRows(d, texts, vectors, fault);
        ReplaceRows(d, newC, newE);
      }
      if fault.NoFault? {
        doc := doc.(status := Ready, version := doc.version + 1);
      } else {
        doc := doc.(status := Failed, error := Some(fault.error));
      }
      docs := docs[d := doc];
      assert docs == old(docs)[d := doc];
    }

    // Sets each stuck document back and queues it, then commits; an enqueue that raises,
    // after `enqueues` of them, leaves the jobs queued so far but commits nothing.
    method RecoverStuckDocuments(enqueues: nat) returns (queued: set<DocId>, ok: bool)
      modifies this`docs
      ensures ok <==> |Stuck(old(docs))| <= enqueues
      ensures ok ==> queued == Stuck(old(docs)) && Tables() == Recovered(old(Tables()))
      ensures ok ==> docs.Keys == old(docs).Keys && forall d :: d in docs ==>
        && (d in queued <==> old(docs)[d].status == Processing)
        && docs[d] == if d !in queued then old(docs)[d]
                      else Doc(Uploaded, old(docs)[d].version,
                               Some("Recovered after worker restart (was stuck in processing)"))
      ensures !ok ==> queued < Stuck(old(docs)) && |queued| == enqueues && Tables() == old(Tables())
    {
      var stuck := Stuck(docs);
      var session, todo := docs, stuck;
      queued, ok := {}, true;
      while todo != {} && ok
        invariant docs == old(docs) && todo <= stuck && queued == stuck - todo && |queued| <= enqueues
        invariant ok ==> session == SetBack(docs, queued)
        invariant !ok ==> queued < stuck && |queued| == enqueues < |stuck|
        decreases todo, ok
      {
        var d :| d in todo;
        session := session[d := session[d].(status := Uploaded, error := Some(RECOVERED))];
        if |queued| == enqueues {
          ProperSubsetSize(queued, d, stuck);
          ok := false;
        } else {
          SetBackStep(docs, queued, d);
          queued := queued + {d};
          todo := todo - {d};
        }
      }
      if ok {
        AllSetBack(Tables());
        docs := session;
      }
    }

    // A new ingest is asked for; the rows stay until it runs.
    method ReingestDocument(d: DocId) returns (found: bool)
      modifies this`docs
      ensures found <==> d in old(docs)
      ensures Tables() == Reset(old(Tables()), d)
      ensures docs == if found then old(docs)[d := Doc(Uploaded, old(docs)[d].version, None)] else old(docs)
    {
      found := d in docs;
      if found {
        docs := docs[d := docs[d].(status := Uploaded, error := None)];
      }
    }

    // The rows go first, then the document.
    method DeleteDocument(d: DocId) returns (found: bool)
      modifies this`docs, this`chunks, this`embeddings
      ensures found <==> d in old(docs)
      ensures Tables() == Deleted(old(Tables()), d)
      ensures d !in docs && docs == old(docs) - {d}
      ensures found ==> forall c :: c in chunks <==> c in old(chunks) && c.doc != d
      ensures found ==> forall e :: e in embeddings <==>
        e in old(embeddings) && !exists c :: c in old(chunks) && c.doc == d && c.id == e.chunkId
    {
      found := d in docs;
      if found {
        var ids := Ids(Where(chunks, OfDoc(d)));
        DeletedLaw(Tables(), d);
        embeddings := Where(embeddings, NotOfChunks(ids));
        chunks := Where(chunks, NotOfDoc(d));
        docs := docs - {d};
      }
    }
  }

  lemma {:induction false} DeletedLaw(db: Db, d: DocId)
    requires d in db.docs
    ensures forall c :: c in Deleted(db, d).chunks <==> c in db.chunks && c.doc != d
    ensures forall e :: e in Deleted(db, d).embeddings <==>
      e in db.embeddings && !exists c :: c in db.chunks && c.doc == d && c.id == e.chunkId
  {
    forall c ensures c in Deleted(db, d).chunks <==> c in db.chunks && c.doc != d {
      WhereLaw(db.chunks, NotOfDoc(d), c);
    }
    var gone := Ids(Where(db.chunks, OfDoc(d)));
    forall id ensures id in gone <==> exists c :: c in db.chunks && c.doc == d && c.id == id {
      GoneIds(db.chunks, d, id);
    }
    forall e
      ensures e in Deleted(db, d).embeddings <==> e in db.embeddings && e.chunkId !in gone
    {
      WhereLaw(db.embeddings, NotOfChunks(gone), e);
    }
  }

  lemma {:induction false} GoneIds(chunks: seq<Chunk>, d: DocId, id: nat)
    ensures id in Ids(Where(chunks, OfDoc(d))) <==> exists c :: c in chunks && c.doc == d && c.id == id
  {
    forall c ensures c in Where(chunks, OfDoc(d)) <==> c in chunks && c.doc == d {
      WhereLaw(chunks, OfDoc(d), c);
    }
  }

  lemma {:induction false} AllSetBack(db: Db)
    ensures SetBack(db.docs, Stuck(db.docs)) == Recovered(db).docs
  {
  }

  lemma {:induction false} SetBackStep(docs: map<DocId, Doc>, ids: set<DocId>, d: DocId)
    requires d in Stuck(docs) && d !in ids
    ensures var session := SetBack(docs, ids);
      SetBack(docs, ids + {d}) == session[d := session[d].(status := Uploaded, error := Some(RECOVERED))]
  {
  }

  lemma {:induction false} ProperSubsetSize(a: set<DocId>, d: DocId, b: set<DocId>)
    requires a <= b && d in b && d !in a
    ensures |a| < |b|
  {
    SubsetSize(a + {d}, b);
  }

  lemma {:induction false} SubsetSize(a: set<DocId>, b: set<DocId>)
    requires a <= b
    ensures |a| <= |b|
    decreases |a|
  {
    if a != {} {
      var x :| x in a;
      SubsetSize(a - {x}, b - {x});
    }
  }

  /******* Every run of uploads, ingests and recoveries *******/

  // `Restart(false)` is a startup whose recovery raises before it commits.
  datatype Command =
    | Upload(doc: DocId)
    | Ingest(doc: DocId, items: seq<(string, Vec)>, fault: Fault)
    | Reingest(doc: DocId)
    | Delete(doc: DocId)
    | Restart(recovers: bool)

  function Executed(db: Db, c: Command): Db {
    match c
    case Upload(d) => if d in db.docs then db else WithDoc(db, d, Doc(Uploaded, 1, None))
    case Ingest(d, items, fault) => Embedded(db, d, items, fault)
    case Reingest(d) => Reset(db, d)
    case Delete(d) => Deleted(db, d)
    case Restart(recovers) => if recovers then Recovered(db) else db
  }

  function Run(cs: seq<Command>): Db {
    if cs == [] then Db(map[], [], [], 0) else Executed(Run(cs[..|cs| - 1]), cs[|cs| - 1])
  }

  // An ingest of an existing document that ran to the end.
  predicate Succeeds(cs: seq<Command>, i: nat, d: DocId)
    requires i < |cs|
  {
    cs[i].Ingest? && cs[i].doc == d && cs[i].fault == NoFault && d in Run(cs[..i]).docs
  }

  // What is said of a document's history is said of it since it was last deleted.
  predicate StartsOver(cs: seq<Command>, d: DocId) {
    cs == [] || cs[|cs| - 1] == Delete(d)
  }

  function Successes(cs: seq<Command>, d: DocId): nat {
    if StartsOver(cs, d) then 0
    else Successes(cs[..|cs| - 1], d) + if Succeeds(cs, |cs| - 1, d) then 1 else 0
  }

  // The chunks and vectors of the last successful ingest.
  function LastGood(cs: seq<Command>, d: DocId): seq<(string, Vec)> {
    if StartsOver(cs, d) then []
    else if Succeeds(cs, |cs| - 1, d) then cs[|cs| - 1].items
    else LastGood(cs[..|cs| - 1], d)
  }

  // Since the last successful ingest, an ingest was cut short while it was indexing and
  // committed what it had.
  predicate CutShort(cs: seq<Command>, d: DocId) {
    if StartsOver(cs, d) || Succeeds(cs, |cs| - 1, d) then false
    else
      var c := cs[|cs| - 1];
      || CutShort(cs[..|cs| - 1], d)
      || (c.Ingest? && c.doc == d && c.fault.IndexRaises? && d in Run(cs[..|cs| - 1]).docs)
  }

  // The rows last written for a document: its chunks, and how many of them got embeddings.
  datatype Written = Written(items: seq<(string, Vec)>, embedded: nat)

  function Complete(items: seq<(string, Vec)>): Written {
    Written(items, |items|)
  }

  // An ingest of an existing document that wrote rows, all of them or a part.
  predicate Writes(cs: seq<Command>, i: nat, d: DocId)
    requires i < |cs|
  {
    cs[i].Ingest? && cs[i].doc == d && (cs[i].fault.NoFault? || cs[i].fault.IndexRaises?) && d in Run(cs[..i]).docs
  }

  function LastWritten(cs: seq<Command>, d: DocId): Written {
    if StartsOver(cs, d) then Complete([])
    else if Writes(cs, |cs| - 1, d) then
      var c := cs[|cs| - 1];
      Written(c.items[..ChunksAdded(c.items, c.fault)], EmbeddingsAdded(c.items, c.fault))
    else LastWritten(cs[..|cs| - 1], d)
  }

  // The document's chunk rows are numbered from 0 and are, in order, the written chunks. The
  // first ones have exactly one embedding row each, the written vector; the rest have none.
  ghost predicate Holds(db: Db, d: DocId, w: Written) {
    var own := Where(db.chunks, OfDoc(d));
    && |own| == |w.items|
    && forall i :: 0 <= i < |own| ==> RowHolds(db, own[i], w, i)
  }

  ghost predicate RowHolds(db: Db, row: Chunk, w: Written, i: nat)
    requires i < |w.items|
  {
    && row.index == i && row.text == w.items[i].0
    && Where(db.embeddings, OfChunk(row.id)) == if i < w.embedded then [Embedding(row.id, w.items[i].1)] else []
  }

  // All the chunks, each with its one embedding.
  ghost predicate Indexed(db: Db, d: DocId, items: seq<(string, Vec)>) {
    Holds(db, d, Complete(items))
  }

  ghost predicate Sound(db: Db) {
    && DistinctIds(db.chunks)
    && (forall c :: c in db.chunks ==> c.id < db.nextChunk)
    && (forall e :: e in db.embeddings ==> e.chunkId < db.nextChunk)
  }

  lemma {:induction false} WhereLaw<T>(s: seq<T>, p: T -> bool, x: T)
    ensures x in Where(s, p) <==> x in s && p(x)
  {
    if s != [] {
      WhereLaw(s[..|s| - 1], p, x);
      assert s == s[..|s| - 1] + [s[|s| - 1]];
    }
  }

  lemma {:induction false} WhereAppend<T>(s: seq<T>, t: seq<T>, p: T -> bool)
    ensures Where(s + t, p) == Where(s, p) + Where(t, p)
  {
    if t == [] {
      assert s + t == s;
    } else {
      assert (s + t)[..|s + t| - 1] == s + t[..|t| - 1];
      WhereAppend(s, t[..|t| - 1], p);
    }
  }

  lemma {:induction false} WhereUniform<T>(s: seq<T>, p: T -> bool, b: bool)
    requires forall i :: 0 <= i < |s| ==> p(s[i]) == b
    ensures Where(s, p) == if b then s else []
  {
    if s != [] {
      WhereUniform(s[..|s| - 1], p, b);
      assert s == s[..|s| - 1] + [s[|s| - 1]];
    }
  }

  lemma {:induction false} WhereOnly<T>(s: seq<T>, p: T -> bool, i: nat)
    requires i < |s| && forall k :: 0 <= k < |s| ==> p(s[k]) == (k == i)
    ensures Where(s, p) == [s[i]]
  {
    var n := |s| - 1;
    if i < n {
      WhereOnly(s[..n], p, i);
    } else {
      WhereUniform(s[..n], p, false);
    }
  }

  // Selecting q after p, when q is decided by p in the way `keep` says.
  lemma {:induction false} WhereWhere<T>(s: seq<T>, p: T -> bool, q: T -> bool, keep: bool)
    requires forall i :: 0 <= i < |s| && q(s[i]) ==> p(s[i]) == keep
    ensures Where(Where(s, p), q) == if keep then Where(s, q) else []
  {
    if s != [] {
      var n := |s| - 1;
      WhereWhere(s[..n], p, q, keep);
      WhereAppend(Where(s[..n], p), if p(s[n]) then [s[n]] else [], q);
      assert Where([s[n]], q) == if q(s[n]) then [s[n]] else [];
    }
  }

  predicate DistinctIds(s: seq<Chunk>) {
    forall i, j :: 0 <= i < j < |s| ==> s[i].id != s[j].id
  }

  lemma {:induction false} WhereDistinct(s: seq<Chunk>, p: Chunk -> bool)
    requires DistinctIds(s)
    ensures DistinctIds(Where(s, p))
  {
    if s != [] {
      var n := |s| - 1;
      WhereDistinct(s[..n], p);
      forall c | c in Where(s[..n], p) ensures c.id != s[n].id {
        WhereLaw(s[..n], p, c);
        var i :| 0 <= i < n && s[i] == c;
      }
    }
  }

  // The chunk rows of x after d's rows were replaced.
  lemma {:induction false} ChunksAfter(db: Db, d: DocId, items: seq<(string, Vec)>, c: nat, e: nat, x: DocId)
    requires e <= c <= |items|
    ensures Where(Reindexed(db, d, items, c, e).chunks, OfDoc(x))
         == if x == d then NewChunks(db.nextChunk, d, items[..c]) else Where(db.chunks, OfDoc(x))
  {
    var added := NewChunks(db.nextChunk, d, items[..c]);
    WhereAppend(Where(db.chunks, NotOfDoc(d)), added, OfDoc(x));
    WhereUniform(added, OfDoc(x), x == d);
    WhereWhere(db.chunks, NotOfDoc(d), OfDoc(x), x != d);
  }

  // The embedding rows of a chunk that was neither removed nor added ...
  lemma {:induction false} OldEmbeddingsAfter(db: Db, d: DocId, items: seq<(string, Vec)>, c: nat, e: nat, id: nat)
    requires e <= c <= |items|
    requires id < db.nextChunk && id !in Ids(Where(db.chunks, OfDoc(d)))
    ensures Where(Reindexed(db, d, items, c, e).embeddings, OfChunk(id)) == Where(db.embeddings, OfChunk(id))
  {
    var gone := Ids(Where(db.chunks, OfDoc(d)));
    var more := NewEmbeddings(db.nextChunk, items[..e]);
    WhereAppend(Where(db.embeddings, NotOfChunks(gone)), more, OfChunk(id));
    WhereUniform(more, OfChunk(id), false);
    WhereWhere(db.embeddings, NotOfChunks(gone), OfChunk(id), true);
  }

  // ... and of the i-th added one.
  lemma {:induction false} NewEmbeddingsAfter(db: Db, d: DocId, items: seq<(string, Vec)>, c: nat, e: nat, i: nat)
    requires e <= c <= |items| && forall x :: x in db.embeddings ==> x.chunkId < db.nextChunk
    ensures Where(Reindexed(db, d, items, c, e).embeddings, OfChunk(db.nextChunk + i))
         == if i < e then [Embedding(db.nextChunk + i, items[i].1)] else []
  {
    var kept := Where(db.embeddings, NotOfChunks(Ids(Where(db.chunks, OfDoc(d)))));
    KeptEmbeddings(db, d, db.nextChunk + i);
    EmbeddingsOfNew(kept, db.nextChunk, items[..e], i);
  }

  lemma {:induction false} EmbeddingsOfNew(kept: seq<Embedding>, next: nat, items: seq<(string, Vec)>, i: nat)
    requires Where(kept, OfChunk(next + i)) == []
    ensures Where(kept + NewEmbeddings(next, items), OfChunk(next + i))
         == if i < |items| then [Embedding(next + i, items[i].1)] else []
  {
    WhereAfterNone(kept, NewEmbeddings(next, items), OfChunk(next + i));
    AddedEmbeddings(next, items, i);
  }

  lemma {:induction false} WhereAfterNone<T>(s: seq<T>, t: seq<T>, p: T -> bool)
    requires Where(s, p) == []
    ensures Where(s + t, p) == Where(t, p)
  {
    WhereAppend(s, t, p);
  }

  lemma {:induction false} KeptEmbeddings(db: Db, d: DocId, id: nat)
    requires id >= db.nextChunk && forall x :: x in db.embeddings ==> x.chunkId < db.nextChunk
    ensures Where(Where(db.embeddings, NotOfChunks(Ids(Where(db.chunks, OfDoc(d))))), OfChunk(id)) == []
  {
    WhereWhere(db.embeddings, NotOfChunks(Ids(Where(db.chunks, OfDoc(d)))), OfChunk(id), false);
  }

  lemma {:induction false} AddedEmbeddings(next: nat, items: seq<(string, Vec)>, i: nat)
    ensures Where(NewEmbeddings(next, items), OfChunk(next + i))
         == if i < |items| then [Embedding(next + i, items[i].1)] else []
  {
    if i < |items| {
      WhereOnly(NewEmbeddings(next, items), OfChunk(next + i), i);
    } else {
      WhereUniform(NewEmbeddings(next, items), OfChunk(next + i), false);
    }
  }

  lemma {:induction false} NotGone(db: Db, d: DocId, c: Chunk)
    requires DistinctIds(db.chunks) && c in db.chunks && c.doc != d
    ensures c.id !in Ids(Where(db.chunks, OfDoc(d)))
  {
    forall x | x in Where(db.chunks, OfDoc(d)) ensures x.id != c.id {
      WhereLaw(db.chunks, OfDoc(d), x);
      var i, j :| 0 <= i < |db.chunks| && 0 <= j < |db.chunks| && db.chunks[i] == x && db.chunks[j] == c;
    }
  }

  // Replacing d's rows leaves every other document's chunks and embeddings alone ...
  lemma {:induction false} OthersKeep(
    db: Db, d: DocId, items: seq<(string, Vec)>, c: nat, e: nat, other: DocId, own: Written)
    requires Sound(db) && e <= c <= |items| && other != d && Holds(db, other, own)
    ensures Holds(Reindexed(db, d, items, c, e), other, own)
  {
    ChunksAfter(db, d, items, c, e, other);
    var after := Reindexed(db, d, items, c, e);
    var rows := Where(db.chunks, OfDoc(other));
    forall i | 0 <= i < |rows| ensures RowHolds(after, rows[i], own, i) {
      assert RowHolds(db, rows[i], own, i);
      WhereLaw(db.chunks, OfDoc(other), rows[i]);
      NotGone(db, d, rows[i]);
      OldEmbeddingsAfter(db, d, items, c, e, rows[i].id);
    }
  }

  // ... and leaves d with exactly the new rows.
  lemma {:induction false} OwnReplaced(db: Db, d: DocId, items: seq<(string, Vec)>, c: nat, e: nat)
    requires Sound(db) && e <= c <= |items|
    ensures Holds(Reindexed(db, d, items, c, e), d, Written(items[..c], e))
  {
    var after := Reindexed(db, d, items, c, e);
    ChunksAfter(db, d, items, c, e, d);
    forall i | 0 <= i < c ensures EmbeddedAt(after, db.nextChunk, items, e, i) {
      NewEmbeddingsAfter(db, d, items, c, e, i);
    }
    NewRowsHold(after, db.nextChunk, d, items, c, e);
  }

  // The i-th of the new chunks has its embedding, or none from e on.
  ghost predicate EmbeddedAt(db: Db, next: nat, items: seq<(string, Vec)>, e: nat, i: nat)
    requires i < |items|
  {
    Where(db.embeddings, OfChunk(next + i)) == if i < e then [Embedding(next + i, items[i].1)] else []
  }

  lemma {:induction false} NewRowsHold(db: Db, next: nat, d: DocId, items: seq<(string, Vec)>, c: nat, e: nat)
    requires c <= |items| && Where(db.chunks, OfDoc(d)) == NewChunks(next, d, items[..c])
    requires forall i :: 0 <= i < c ==> EmbeddedAt(db, next, items, e, i)
    ensures Holds(db, d, Written(items[..c], e))
  {
    var rows, w := NewChunks(next, d, items[..c]), Written(items[..c], e);
    forall i | 0 <= i < c ensures RowHolds(db, rows[i], w, i) {
      assert EmbeddedAt(db, next, items, e, i);
      assert rows[i] == Chunk(next + i, d, i, items[i].0);
    }
  }

  // The rows tell what was written, as long as every chunk has its embedding.
  lemma {:induction false} RowsDetermineItems(db: Db, d: DocId, w: Written, items: seq<(string, Vec)>)
    requires Holds(db, d, w) && w.embedded <= |w.items|
    ensures Indexed(db, d, items) <==> w == Complete(items)
  {
    if Indexed(db, d, items) {
      var own := Where(db.chunks, OfDoc(d));
      forall i | 0 <= i < |own|
        ensures i < w.embedded && w.items[i] == items[i]
      {
        assert RowHolds(db, own[i], w, i) && RowHolds(db, own[i], Complete(items), i);
      }
      assert own != [] ==> w.items[|own| - 1] == items[|own| - 1];
      assert w.items == items;
    }
  }

  lemma {:induction false} ReindexSound(db: Db, d: DocId, items: seq<(string, Vec)>, c: nat, e: nat)
    requires Sound(db) && e <= c <= |items|
    ensures Sound(Reindexed(db, d, items, c, e))
  {
    WhereDistinct(db.chunks, NotOfDoc(d));
    forall x | x in Where(db.chunks, NotOfDoc(d)) ensures x.id < db.nextChunk {
      WhereLaw(db.chunks, NotOfDoc(d), x);
    }
    var gone := Ids(Where(db.chunks, OfDoc(d)));
    forall x | x in Where(db.embeddings, NotOfChunks(gone)) ensures x.chunkId < db.nextChunk {
      WhereLaw(db.embeddings, NotOfChunks(gone), x);
    }
  }

  /******* Every run *******/

  ghost predicate Inv(cs: seq<Command>) {
    var db := Run(cs);
    && Sound(db)
    && forall d :: d in db.docs ==> Tracked(cs, d)
  }

  ghost predicate Tracked(cs: seq<Command>, d: DocId) {
    var db := Run(cs);
    && d in db.docs
    && db.docs[d].version == 1 + Successes(cs, d)
    && Holds(db, d, LastWritten(cs, d))
    && (!CutShort(cs, d) ==> LastWritten(cs, d) == Complete(LastGood(cs, d)))
    && (db.docs[d].status == Ready ==> !CutShort(cs, d))
  }

  // A document that does not exist yet has neither history nor rows.
  lemma {:induction false} NothingBeforeUpload(cs: seq<Command>, d: DocId)
    requires d !in Run(cs).docs
    ensures Successes(cs, d) == 0 && LastGood(cs, d) == [] && !CutShort(cs, d) && LastWritten(cs, d) == Complete([])
    ensures Where(Run(cs).chunks, OfDoc(d)) == []
  {
    if cs != [] {
      var init, c := cs[..|cs| - 1], cs[|cs| - 1];
      if c == Delete(d) && d in Run(init).docs {
        DeletedRows(Run(init), d, d);
      } else {
        NothingBeforeUpload(init, d);
        if c.Delete? && c.doc in Run(init).docs {
          DeletedRows(Run(init), c.doc, d);
        } else if c.Ingest? && c.doc in Run(init).docs && (c.fault.NoFault? || c.fault.IndexRaises?) {
          ChunksAfter(Run(init), c.doc, c.items, ChunksAdded(c.items, c.fault), EmbeddingsAdded(c.items, c.fault), d);
        }
      }
    }
  }

  // Deleting is a replacement by nothing, but for the document row.
  lemma {:induction false} DeletedIsReindexed(db: Db, d: DocId)
    requires d in db.docs
    ensures var r := Reindexed(db, d, [], 0, 0);
      Deleted(db, d) == r.(docs := db.docs - {d})
  {
    assert NewChunks(db.nextChunk, d, [][..0]) == [] && NewEmbeddings(db.nextChunk, [][..0]) == [];
  }

  lemma {:induction false} DeletedRows(db: Db, d: DocId, x: DocId)
    requires d in db.docs
    ensures Where(Deleted(db, d).chunks, OfDoc(x)) == if x == d then [] else Where(db.chunks, OfDoc(x))
  {
    DeletedIsReindexed(db, d);
    ChunksAfter(db, d, [], 0, 0, x);
  }

  lemma {:induction false} EmbeddedKeepsOthers(
    db: Db, d: DocId, items: seq<(string, Vec)>, fault: Fault, other: DocId, own: Written)
    requires Sound(db) && d in db.docs && other in db.docs && other != d && Holds(db, other, own)
    ensures var t := Embedded(db, d, items, fault);
      other in t.docs && t.docs[other] == db.docs[other] && Holds(t, other, own)
  {
    if fault.NoFault? || fault.IndexRaises? {
      OthersKeep(db, d, items, ChunksAdded(items, fault), EmbeddingsAdded(items, fault), other, own);
      SameRows(
        Reindexed(db, d, items, ChunksAdded(items, fault), EmbeddingsAdded(items, fault)),
        Embedded(db, d, items, fault), other, own);
    } else {
      SameRows(db, Embedded(db, d, items, fault), other, own);
    }
  }

  lemma {:induction false} SameRows(db: Db, t: Db, d: DocId, w: Written)
    requires t.chunks == db.chunks && t.embeddings == db.embeddings && Holds(db, d, w)
    ensures Holds(t, d, w)
  {
    var own := Where(db.chunks, OfDoc(d));
    forall i | 0 <= i < |own| ensures RowHolds(t, own[i], w, i) {
      assert RowHolds(db, own[i], w, i);
    }
  }

  lemma {:induction false} RunStep(cs: seq<Command>, c: Command)
    ensures Run(cs + [c]) == Executed(Run(cs), c)
  {
    assert (cs + [c])[..|cs|] == cs;
  }

  // One more command, in the history of a document.
  lemma {:induction false} HistoryStep(cs: seq<Command>, c: Command, d: DocId)
    requires d in Run(cs).docs && c != Delete(d)
    ensures var all, ours := cs + [c], c.Ingest? && c.doc == d;
      && Successes(all, d) == Successes(cs, d) + (if ours && c.fault.NoFault? then 1 else 0)
      && LastGood(all, d) == (if ours && c.fault.NoFault? then c.items else LastGood(cs, d))
      && LastWritten(all, d) == (if ours && (c.fault.NoFault? || c.fault.IndexRaises?)
                                 then Written(c.items[..ChunksAdded(c.items, c.fault)],
                                              EmbeddingsAdded(c.items, c.fault))
                                 else LastWritten(cs, d))
      && CutShort(all, d) == (!(ours && c.fault.NoFault?) && (CutShort(cs, d) || (ours && c.fault.IndexRaises?)))
  {
    assert (cs + [c])[..|cs|] == cs;
  }

  lemma {:induction false} QuietKeeps(cs: seq<Command>, c: Command, d: DocId)
    requires Tracked(cs, d) && (c.Ingest? || c.Delete? ==> c.doc !in Run(cs).docs)
    ensures Tracked(cs + [c], d)
  {
    RunStep(cs, c);
    HistoryStep(cs, c, d);
    SameRows(Run(cs), Run(cs + [c]), d, LastWritten(cs, d));
  }

  lemma {:induction false} DeletedKeepsOthers(db: Db, d: DocId, other: DocId, own: Written)
    requires Sound(db) && d in db.docs && other != d && Holds(db, other, own)
    ensures Holds(Deleted(db, d), other, own)
  {
    DeletedIsReindexed(db, d);
    OthersKeep(db, d, [], 0, 0, other, own);
    SameRows(Reindexed(db, d, [], 0, 0), Deleted(db, d), other, own);
  }

  lemma {:induction false} DeleteKeepsOthers(cs: seq<Command>, c: Command, d: DocId)
    requires Inv(cs) && c.Delete? && c.doc in Run(cs).docs && d in Run(cs).docs && d != c.doc
    ensures Tracked(cs + [c], d)
  {
    assert Tracked(cs, d);
    RunStep(cs, c);
    HistoryStep(cs, c, d);
    DeletedKeepsOthers(Run(cs), c.doc, d, LastWritten(cs, d));
  }

  lemma {:induction false} UploadTracks(cs: seq<Command>, d: DocId)
    requires d !in Run(cs).docs
    ensures Tracked(cs + [Upload(d)], d)
  {
    var all := cs + [Upload(d)];
    assert all[..|cs|] == cs;
    NothingBeforeUpload(cs, d);
  }

  lemma {:induction false} IngestKeepsOthers(cs: seq<Command>, c: Command, d: DocId)
    requires Inv(cs) && c.Ingest? && c.doc in Run(cs).docs && d in Run(cs).docs && d != c.doc
    ensures Tracked(cs + [c], d)
  {
    assert Tracked(cs, d);
    RunStep(cs, c);
    HistoryStep(cs, c, d);
    EmbeddedKeepsOthers(Run(cs), c.doc, c.items, c.fault, d, LastWritten(cs, d));
  }

  // An ingest that writes rows leaves its document with exactly those.
  lemma {:induction false} EmbeddedHolds(db: Db, d: DocId, items: seq<(string, Vec)>, fault: Fault)
    requires Sound(db) && d in db.docs && (fault.NoFault? || fault.IndexRaises?)
    ensures Holds(Embedded(db, d, items, fault), d,
                  Written(items[..ChunksAdded(items, fault)], EmbeddingsAdded(items, fault)))
  {
    var n, m := ChunksAdded(items, fault), EmbeddingsAdded(items, fault);
    OwnReplaced(db, d, items, n, m);
    SameRows(Reindexed(db, d, items, n, m), Embedded(db, d, items, fault), d, Written(items[..n], m));
  }

  lemma {:induction false} IngestHolds(cs: seq<Command>, c: Command)
    requires Inv(cs) && c.Ingest? && c.doc in Run(cs).docs
    ensures Holds(Run(cs + [c]), c.doc, LastWritten(cs + [c], c.doc))
  {
    assert Tracked(cs, c.doc);
    RunStep(cs, c);
    HistoryStep(cs, c, c.doc);
    if c.fault.NoFault? || c.fault.IndexRaises? {
      EmbeddedHolds(Run(cs), c.doc, c.items, c.fault);
    } else {
      SameRows(Run(cs), Run(cs + [c]), c.doc, LastWritten(cs, c.doc));
    }
  }

  lemma {:induction false} IngestDoc(cs: seq<Command>, c: Command)
    requires c.Ingest? && c.doc in Run(cs).docs
    ensures var docs := Run(cs + [c]).docs;
      && c.doc in docs
      && docs[c.doc].version == Run(cs).docs[c.doc].version + (if c.fault.NoFault? then 1 else 0)
      && (docs[c.doc].status == Ready <==> c.fault.NoFault?)
  {
    RunStep(cs, c);
  }

  lemma {:induction false} IngestKeepsOwn(cs: seq<Command>, c: Command)
    requires Inv(cs) && c.Ingest? && c.doc in Run(cs).docs
    ensures Tracked(cs + [c], c.doc)
  {
    assert Tracked(cs, c.doc);
    HistoryStep(cs, c, c.doc);
    IngestDoc(cs, c);
    IngestHolds(cs, c);
    assert c.items[..|c.items|] == c.items;
  }

  lemma {:induction false} CommandKeepsSound(db: Db, c: Command)
    requires Sound(db)
    ensures Sound(Executed(db, c))
  {
    if c.Ingest? && c.doc in db.docs && (c.fault.NoFault? || c.fault.IndexRaises?) {
      ReindexSound(db, c.doc, c.items, ChunksAdded(c.items, c.fault), EmbeddingsAdded(c.items, c.fault));
    } else if c.Delete? && c.doc in db.docs {
      DeletedIsReindexed(db, c.doc);
      ReindexSound(db, c.doc, [], 0, 0);
    }
  }

  lemma {:induction false} RunKeeps(cs: seq<Command>)
    ensures Inv(cs)
  {
    if cs != [] {
      var init, c := cs[..|cs| - 1], cs[|cs| - 1];
      assert cs == init + [c];
      RunKeeps(init);
      var db := Run(init);
      CommandKeepsSound(db, c);
      forall d | d in Run(cs).docs ensures Tracked(cs, d) {
        if d !in db.docs {
          UploadTracks(init, d);
        } else if c.Ingest? && c.doc in db.docs {
          if d == c.doc {
            IngestKeepsOwn(init, c);
          } else {
            IngestKeepsOthers(init, c, d);
          }
        } else if c.Delete? && c.doc in db.docs {
          DeleteKeepsOthers(init, c, d);
        } else {
          assert Tracked(init, d);
          QuietKeeps(init, c, d);
        }
      }
    }
  }

  // Over any uploads, deletions, ingests with any faults, crashes and restarts: a document's
  // version counts its successful ingests, and a ready document's chunks are numbered 0, 1, ...,
  // come from the last successful ingest, and have exactly one embedding each.
  lemma {:induction false} ReadyIsIndexed(cs: seq<Command>, d: DocId)
    requires d in Run(cs).docs
    ensures Run(cs).docs[d].version == 1 + Successes(cs, d)
    ensures Run(cs).docs[d].status == Ready ==> Indexed(Run(cs), d, LastGood(cs, d))
  {
    RunKeeps(cs);
    assert Tracked(cs, d);
  }

  // A fault leaves the last good index of the document in place unless it is an exception
  // of the indexing code itself, which commits the part that was written.
  lemma {:induction false} FaultsKeepLastGoodUnlessCutShort(cs: seq<Command>, d: DocId)
    requires d in Run(cs).docs && !CutShort(cs, d)
    ensures Indexed(Run(cs), d, LastGood(cs, d))
  {
    RunKeeps(cs);
    assert Tracked(cs, d);
  }

  // At any time a document has the rows last written for it, whole or in part, and so the
  // last good index exactly if those were complete and equal to it.
  lemma {:induction false} LastGoodIndexIff(cs: seq<Command>, d: DocId)
    requires d in Run(cs).docs
    ensures Holds(Run(cs), d, LastWritten(cs, d))
    ensures Indexed(Run(cs), d, LastGood(cs, d)) <==> LastWritten(cs, d) == Complete(LastGood(cs, d))
  {
    RunKeeps(cs);
    assert Tracked(cs, d);
    WrittenFits(cs, d);
    RowsDetermineItems(Run(cs), d, LastWritten(cs, d), LastGood(cs, d));
  }

  lemma {:induction false} WrittenFits(cs: seq<Command>, d: DocId)
    ensures LastWritten(cs, d).embedded <= |LastWritten(cs, d).items|
  {
    if cs != [] {
      WrittenFits(cs[..|cs| - 1], d);
    }
  }

  // The exact effect of an exception of the indexing code: the document reads `failed`, its
  // old rows are gone, and the rows written so far are there, the last chunk perhaps without
  // its embedding. That is the last good index exactly if every chunk written got its
  // embedding and the written part is, after all, the whole of that index.
  lemma {:induction false} CutShortCommitsPart(cs: seq<Command>, d: DocId, items: seq<(string, Vec)>, fault: Fault)
    requires fault.IndexRaises? && d in Run(cs).docs
    ensures var db := Run(cs + [Ingest(d, items, fault)]);
      var c, e := ChunksAdded(items, fault), EmbeddingsAdded(items, fault);
      && d in db.docs && db.docs[d].status == Failed
      && Where(db.chunks, OfDoc(d)) == NewChunks(Run(cs).nextChunk, d, items[..c])
      && Holds(db, d, Written(items[..c], e))
      && (Indexed(db, d, LastGood(cs, d)) <==> c == e && items[..c] == LastGood(cs, d))
  {
    var ingest := Ingest(d, items, fault);
    RunStep(cs, ingest);
    HistoryStep(cs, ingest, d);
    ChunksAfter(Run(cs), d, items, ChunksAdded(items, fault), EmbeddingsAdded(items, fault), d);
    LastGoodIndexIff(cs + [ingest], d);
  }
}
