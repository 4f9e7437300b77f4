/** Content-addressed originals: storage keys, reference counting and what a document row promises about its blob. */
module BlobStore {
  import opened Wrappers
  import opened Library

  const DIGEST_LENGTH := 64

  type Blobs = map<string, Bytes>

  // ---------------------------------------------------------------- keys

  function WithoutLeadingDots(s: string): string {
    if s != "" && s[0] == '.' then WithoutLeadingDots(s[1..]) else s
  }

  function LowerChar(c: char): char {
    if 'A' <= c <= 'Z' then c - 'A' + 'a' else c
  }

  function Lower(s: string): string {
    seq(|s|, i requires 0 <= i < |s| => LowerChar(s[i]))
  }

  function Extension(extension: string): string {
    var ext := Lower(WithoutLeadingDots(extension));
    if ext == "" then "bin" else ext
  }

  function KeyFor(checksum: string, extension: string): string
    requires |checksum| == DIGEST_LENGTH
  {
    checksum[..2] + "/" + checksum + "." + Extension(extension)
  }

  /** Leading dots and the case of an extension do not matter, an empty one counts as `bin`, and a plain one is kept. */
  lemma ExtensionMeaning(e: string)
    ensures Extension("." + e) == Extension(e) == Extension(Lower(e)) && Extension("") == "bin"
    ensures e != "" && e[0] != '.' && Lower(e) == e ==> Extension(e) == e
  {
    assert ("." + e)[1..] == e;
    LowerKeepsDots(e);
  }

  lemma {:induction false} LowerKeepsDots(e: string)
    ensures WithoutLeadingDots(Lower(e)) == Lower(WithoutLeadingDots(e)) && Lower(Lower(e)) == Lower(e)
  {
    if e != "" && e[0] == '.' {
      LowerKeepsDots(e[1..]);
      assert Lower(e)[1..] == Lower(e[1..]);
    }
  }

  /** A key names one checksum and one extension. */
  lemma KeysAreDistinct(c: string, e: string, c': string, e': string)
    requires |c| == |c'| == DIGEST_LENGTH
    ensures KeyFor(c, e) == KeyFor(c', e') <==> c == c' && Extension(e) == Extension(e')
  {
    KeyParts(c, e);
    KeyParts(c', e');
  }

  lemma KeyParts(c: string, e: string)
    requires |c| == DIGEST_LENGTH
    ensures KeyFor(c, e)[3..3 + DIGEST_LENGTH] == c
    ensures KeyFor(c, e)[4 + DIGEST_LENGTH..] == Extension(e)
  {
    var key := KeyFor(c, e);
    assert key == (c[..2] + "/") + (c + ("." + Extension(e)));
    assert |c[..2] + "/"| == 3;
    assert key[3..3 + DIGEST_LENGTH] == c;
    assert key[4 + DIGEST_LENGTH..] == Extension(e);
  }

  // ---------------------------------------------------------------- the invariant

  ghost predicate IsDigest(sha256: Bytes -> string) {
    forall data: Bytes :: |sha256(data)| == DIGEST_LENGTH
  }

  /** The document's blob is there, and its content is what the row's checksum and key say. */
  ghost predicate Stored(docs: DocumentTable, blobs: Blobs, sha256: Bytes -> string, d: DocId) {
    && d in docs && docs[d].storageKey in blobs
    && |docs[d].checksum| == DIGEST_LENGTH && sha256(blobs[docs[d].storageKey]) == docs[d].checksum
    && exists extension :: docs[d].storageKey == KeyFor(docs[d].checksum, extension)
  }

  ghost predicate AllStored(docs: DocumentTable, blobs: Blobs, sha256: Bytes -> string) {
    forall d :: d in docs ==> Stored(docs, blobs, sha256, d)
  }

  predicate SameContent(docs: DocumentTable, d: DocId, e: DocId) {
    d in docs && e in docs && docs[d].owner == docs[e].owner && docs[d].checksum == docs[e].checksum
  }

  function Referrers(docs: DocumentTable, key: string): set<DocId> {
    set d | d in docs && docs[d].storageKey == key
  }

  /**
    The stored blobs are exactly the keys that documents refer to, each hashes to its document's checksum, and an
    owner has at most one document per checksum.
   */
  ghost predicate StoreOk(docs: DocumentTable, blobs: Blobs, sha256: Bytes -> string) {
    && IsDigest(sha256)
    && AllStored(docs, blobs, sha256)
    && (forall key :: key in blobs ==> Referrers(docs, key) != {})
    && (forall d, e :: SameContent(docs, d, e) ==> d == e)
  }

  // ---------------------------------------------------------------- storing and deleting originals

  /** The error branch of `persist_original` is never taken: a blob already under the key has the same content hash. */
  lemma NoCollision(docs: DocumentTable, blobs: Blobs, sha256: Bytes -> string, checksum: string, extension: string)
    requires StoreOk(docs, blobs, sha256) && |checksum| == DIGEST_LENGTH && KeyFor(checksum, extension) in blobs
    ensures sha256(blobs[KeyFor(checksum, extension)]) == checksum
  {
    var key := KeyFor(checksum, extension);
    var d :| d in Referrers(docs, key);
    assert Stored(docs, blobs, sha256, d);
    var e :| docs[d].storageKey == KeyFor(docs[d].checksum, e);
    KeysAreDistinct(docs[d].checksum, e, checksum, extension);
  }

  /** `persist_original`: kept when it is there already, refused on different content, else written. */
  method PersistOriginal(db: Session, data: Bytes, checksum: string, extension: string) returns (r: Result<string, Error>)
    requires |checksum| == DIGEST_LENGTH
    modifies db`blobs
    ensures var key := KeyFor(checksum, extension);
      if key !in old(db.blobs) then r == Ok(key) && db.blobs == old(db.blobs)[key := data]
      else db.blobs == old(db.blobs) && r == if db.sha256(old(db.blobs)[key]) == checksum then Ok(key) else Err(KeyCollision)
  {
    var key := KeyFor(checksum, extension);
    if key in db.blobs {
      return if db.sha256(db.blobs[key]) == checksum then Ok(key) else Err(KeyCollision);
    }
    db.blobs := db.blobs[key := data];
    return Ok(key);
  }

  function Persisted(blobs: Blobs, key: string, data: Bytes): Blobs {
    if key in blobs then blobs else blobs[key := data]
  }

  /** Deleting a document takes its blob along exactly when no other document, of any owner, refers to it. */
  function BlobsWithout(docs: DocumentTable, blobs: Blobs, d: DocId): Blobs
    requires d in docs
  {
    if Referrers(docs, docs[d].storageKey) == {d} then blobs - {docs[d].storageKey} else blobs
  }

  lemma DeleteKeepsStore(docs: DocumentTable, blobs: Blobs, sha256: Bytes -> string, d: DocId)
    requires StoreOk(docs, blobs, sha256) && d in docs
    ensures StoreOk(docs - {d}, BlobsWithout(docs, blobs, d), sha256)
  {
    var docs', blobs', key := docs - {d}, BlobsWithout(docs, blobs, d), docs[d].storageKey;
    forall e | e in docs'
      ensures Stored(docs', blobs', sha256, e)
    {
      assert Stored(docs, blobs, sha256, e);
      assert docs[e].storageKey == key ==> e in Referrers(docs, key);
    }
    forall k | k in blobs'
      ensures Referrers(docs', k) != {}
    {
      var e :| e in Referrers(docs, k) && (k == key ==> e != d);
      assert e in Referrers(docs', k);
    }
    assert forall e, g :: SameContent(docs', e, g) ==> SameContent(docs, e, g);
  }

  /** Dropping a shared blob, or keeping an unshared one, would break the store: the reference count is exact. */
  lemma OnlyThisCount(docs: DocumentTable, blobs: Blobs, sha256: Bytes -> string, d: DocId)
    requires StoreOk(docs, blobs, sha256) && d in docs
    ensures StoreOk(docs - {d}, blobs - {docs[d].storageKey}, sha256) <==> Referrers(docs, docs[d].storageKey) == {d}
    ensures StoreOk(docs - {d}, blobs, sha256) <==> Referrers(docs, docs[d].storageKey) != {d}
  {
    var key := docs[d].storageKey;
    assert d in Referrers(docs, key) && Stored(docs, blobs, sha256, d);
    DeleteKeepsStore(docs, blobs, sha256, d);
    if Referrers(docs, key) == {d} {
      assert Referrers(docs - {d}, key) == {} by {
        assert forall e :: e in Referrers(docs - {d}, key) ==> e in Referrers(docs, key);
      }
    } else {
      var e :| e in Referrers(docs, key) && e != d;
      assert !Stored(docs - {d}, blobs - {key}, sha256, e);
    }
  }

  /** Rolling the row back after its blob may have gone: consistent again exactly when the blob was shared. */
  lemma RolledBackDelete(docs: DocumentTable, blobs: Blobs, sha256: Bytes -> string, d: DocId)
    requires StoreOk(docs, blobs, sha256) && d in docs
    ensures StoreOk(docs, BlobsWithout(docs, blobs, d), sha256) <==> Referrers(docs, docs[d].storageKey) != {d}
  {
    assert Referrers(docs, docs[d].storageKey) == {d} ==> !Stored(docs, BlobsWithout(docs, blobs, d), sha256, d);
  }

  lemma StoredIn(docs: DocumentTable, blobs: Blobs, sha256: Bytes -> string, d: DocId)
    requires StoreOk(docs, blobs, sha256) && d in docs
    ensures Stored(docs, blobs, sha256, d)
  {
  }

  lemma DigestLength(docs: DocumentTable, blobs: Blobs, sha256: Bytes -> string, data: Bytes)
    requires StoreOk(docs, blobs, sha256)
    ensures |sha256(data)| == DIGEST_LENGTH
  {
  }

  lemma CreateKeepsStored(
    docs: DocumentTable, blobs: Blobs, sha256: Bytes -> string, id: DocId, doc: Document, data: Bytes, extension: string)
    requires StoreOk(docs, blobs, sha256) && id !in docs
    requires doc.checksum == sha256(data) && |doc.checksum| == DIGEST_LENGTH && doc.storageKey == KeyFor(doc.checksum, extension)
    ensures AllStored(docs[id := doc], Persisted(blobs, doc.storageKey, data), sha256)
  {
    hide KeyFor;
    var docs', blobs' := docs[id := doc], Persisted(blobs, doc.storageKey, data);
    if doc.storageKey in blobs {
      NoCollision(docs, blobs, sha256, doc.checksum, extension);
    }
    assert Stored(docs', blobs', sha256, id);
    hide StoreOk;
    forall e | e in docs && e != id
      ensures Stored(docs', blobs', sha256, e)
    {
      StoredIn(docs, blobs, sha256, e);
      StoredStill(docs, blobs, docs', blobs', sha256, e);
    }
  }

  lemma CreateKeepsStore(
    docs: DocumentTable, blobs: Blobs, sha256: Bytes -> string, id: DocId, doc: Document, data: Bytes, extension: string)
    requires StoreOk(docs, blobs, sha256) && id !in docs
    requires doc.checksum == sha256(data) && |doc.checksum| == DIGEST_LENGTH && doc.storageKey == KeyFor(doc.checksum, extension)
    requires forall d :: d in docs && docs[d].owner == doc.owner ==> docs[d].checksum != doc.checksum
    ensures StoreOk(docs[id := doc], Persisted(blobs, doc.storageKey, data), sha256)
  {
    hide Stored, KeyFor, IsDigest, AllStored;
    CreateKeepsStored(docs, blobs, sha256, id, doc, data, extension);
    var docs', key := docs[id := doc], doc.storageKey;
    var blobs' := Persisted(blobs, key, data);
    forall k | k in blobs'
      ensures Referrers(docs', k) != {}
    {
      if k == key {
        assert id in Referrers(docs', k);
      } else {
        var e :| e in Referrers(docs, k);
        assert e in Referrers(docs', k);
      }
    }
    forall e, g | SameContent(docs', e, g)
      ensures e == g
    {
      assert e != id && g != id ==> SameContent(docs, e, g);
    }
  }

  lemma StoredStill(
    docs: DocumentTable, blobs: Blobs, docs': DocumentTable, blobs': Blobs, sha256: Bytes -> string, d: DocId)
    requires Stored(docs, blobs, sha256, d) && d in docs' && docs'[d] == docs[d]
    requires docs[d].storageKey in blobs' && blobs'[docs[d].storageKey] == blobs[docs[d].storageKey]
    ensures Stored(docs', blobs', sha256, d)
  {
  }

  /** Files are rows without their whereabouts: owner, checksum and storage key. */
  ghost predicate SameFiles(docs: DocumentTable, docs': DocumentTable) {
    && docs.Keys == docs'.Keys
    && forall d :: d in docs ==>
      docs'[d].owner == docs[d].owner && docs'[d].checksum == docs[d].checksum && docs'[d].storageKey == docs[d].storageKey
  }

  /** Whatever only moves or marks documents, every folder service included, leaves the store consistent. */
  lemma SameFilesKeepStore(docs: DocumentTable, docs': DocumentTable, blobs: Blobs, sha256: Bytes -> string)
    requires StoreOk(docs, blobs, sha256) && SameFiles(docs, docs')
    ensures StoreOk(docs', blobs, sha256)
  {
    forall d | d in docs'
      ensures Stored(docs', blobs, sha256, d)
    {
      assert Stored(docs, blobs, sha256, d);
    }
    forall key | key in blobs
      ensures Referrers(docs', key) != {}
    {
      var d :| d in Referrers(docs, key);
      assert d in Referrers(docs', key);
    }
    assert forall d, e :: SameContent(docs', d, e) ==> SameContent(docs, d, e);
  }
}
