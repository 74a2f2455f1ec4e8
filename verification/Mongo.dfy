/** The Mongo repository over a collection of documents with its two unique indexes. */
module Mongo {
  import opened Types
  import opened Store

  type Documents = seq<Record>

  /** The unique indexes on `url` and `url_hash`. */
  ghost predicate IndexesHold(docs: Documents) {
    forall i, j :: 0 <= i < j < |docs| ==> docs[i].url != docs[j].url && docs[i].urlHash != docs[j].urlHash
  }

  ghost predicate HashesMatch(hash: UrlHash, docs: Documents) {
    forall i :: 0 <= i < |docs| ==> docs[i].urlHash == hash(docs[i].url) && docs[i].schemaVersion == SCHEMA_VERSION
  }

  /** The first document that the filter `{url_hash: key}` selects, or `|docs|`. */
  function Position(docs: Documents, key: string): (p: nat)
    ensures p <= |docs|
    ensures p < |docs| ==> docs[p].urlHash == key
    ensures forall i :: 0 <= i < p ==> docs[i].urlHash != key
  {
    if docs == [] || docs[0].urlHash == key then 0 else 1 + Position(docs[1..], key)
  }

  /** The collection as the map that its `url_hash` index describes. */
  function View(docs: Documents): Records {
    map key | key in (set d | d in docs :: d.urlHash) && Position(docs, key) < |docs| :: docs[Position(docs, key)]
  }

  lemma ViewHas(docs: Documents, key: string)
    ensures key in View(docs) <==> Position(docs, key) < |docs|
    ensures key in View(docs) ==> View(docs)[key] == docs[Position(docs, key)]
  {}

  function UpsertDocs(hash: UrlHash, docs: Documents, record: Record, now: Time): Documents {
    var p := Position(docs, hash(record.url));
    if p < |docs| then docs[p := Stamped(hash, Some(docs[p]), record, now)]
    else docs + [Stamped(hash, None, record, now)]
  }

  function SetStatusDocs(hash: UrlHash, docs: Documents, url: string, status: Status,
                         result: Option<FetchResult>, now: Time): Documents
  {
    var p := Position(docs, hash(url));
    if p < |docs| then docs[p := WithStatus(docs[p], status, result, now)] else docs
  }

  function ApplyDocs(hash: UrlHash, docs: Documents, op: Op): Documents {
    match op
    case Upsert(record, now) => UpsertDocs(hash, docs, record, now)
    case SetStatus(url, status, result, now) => SetStatusDocs(hash, docs, url, status, result, now)
  }

  lemma {:induction false} ReplacingKeepsPositions(docs: Documents, p: nat, d: Record, key: string)
    requires p < |docs| && d.urlHash == docs[p].urlHash
    ensures Position(docs[p := d], key) == Position(docs, key)
  {
    if docs[0].urlHash != key && p > 0 {
      ReplacingKeepsPositions(docs[1..], p - 1, d, key);
      assert docs[p := d][1..] == docs[1..][p - 1 := d];
    } else if docs[0].urlHash != key {
      assert docs[p := d][1..] == docs[1..];
    }
  }

  lemma {:induction false} AppendingKeepsPositions(docs: Documents, d: Record, key: string)
    ensures Position(docs + [d], key) ==
      if Position(docs, key) < |docs| || d.urlHash == key then Position(docs, key) else |docs| + 1
  {
    if docs != [] && docs[0].urlHash != key {
      AppendingKeepsPositions(docs[1..], d, key);
      assert (docs + [d])[1..] == docs[1..] + [d];
    } else if docs == [] {
      assert (docs + [d])[1..] == [];
    }
  }

  /** No write is ever refused by a unique index, whatever the hash function does:
      the indexes hold again after it and every document keeps the hash of its URL. */
  lemma WritesMeetTheIndexes(hash: UrlHash, docs: Documents, op: Op)
    requires IndexesHold(docs) && HashesMatch(hash, docs)
    ensures IndexesHold(ApplyDocs(hash, docs, op)) && HashesMatch(hash, ApplyDocs(hash, docs, op))
  {
    var p := Position(docs, KeyOf(hash, op));
    var after := ApplyDocs(hash, docs, op);
    if p < |docs| {
      ReplacingMeetsTheIndexes(hash, docs, p, after[p]);
    } else if op.Upsert? {
      AppendingMeetsTheIndexes(hash, docs, Stamped(hash, None, op.record, op.now));
    }
  }

  lemma ReplacingMeetsTheIndexes(hash: UrlHash, docs: Documents, p: nat, d: Record)
    requires IndexesHold(docs) && HashesMatch(hash, docs) && p < |docs| && d.urlHash == docs[p].urlHash
    requires hash(d.url) == d.urlHash && d.schemaVersion == SCHEMA_VERSION
    ensures IndexesHold(docs[p := d]) && HashesMatch(hash, docs[p := d])
  {}

  lemma AppendingMeetsTheIndexes(hash: UrlHash, docs: Documents, d: Record)
    requires IndexesHold(docs) && HashesMatch(hash, docs) && Position(docs, d.urlHash) == |docs|
    requires hash(d.url) == d.urlHash && d.schemaVersion == SCHEMA_VERSION
    ensures IndexesHold(docs + [d]) && HashesMatch(hash, docs + [d])
  {}

  lemma ReplacingRefines(docs: Documents, p: nat, d: Record)
    requires p < |docs| && Position(docs, docs[p].urlHash) == p && d.urlHash == docs[p].urlHash
    ensures View(docs[p := d]) == View(docs)[d.urlHash := d]
  {
    var after := docs[p := d];
    forall k ensures k in View(after) <==> k in View(docs)[d.urlHash := d]
      ensures k in View(after) ==> View(after)[k] == View(docs)[d.urlHash := d][k]
    {
      ViewHas(docs, k);
      ViewHas(after, k);
      ReplacingKeepsPositions(docs, p, d, k);
    }
  }

  lemma AppendingRefines(docs: Documents, d: Record)
    requires Position(docs, d.urlHash) == |docs|
    ensures View(docs + [d]) == View(docs)[d.urlHash := d]
  {
    var after := docs + [d];
    forall k ensures k in View(after) <==> k in View(docs)[d.urlHash := d]
      ensures k in View(after) ==> View(after)[k] == View(docs)[d.urlHash := d][k]
    {
      ViewHas(docs, k);
      ViewHas(after, k);
      AppendingKeepsPositions(docs, d, k);
    }
  }

  /** Updating the first matching document is updating the map entry of its hash. */
  lemma WritesRefineTheMap(hash: UrlHash, docs: Documents, op: Op)
    requires IndexesHold(docs) && HashesMatch(hash, docs)
    ensures View(ApplyDocs(hash, docs, op)) == Apply(hash, View(docs), op)
  {
    var key := KeyOf(hash, op);
    var p := Position(docs, key);
    ViewHas(docs, key);
    if p < |docs| {
      ReplacingRefines(docs, p, ApplyDocs(hash, docs, op)[p]);
    } else if op.Upsert? {
      AppendingRefines(docs, Stamped(hash, None, op.record, op.now));
    }
  }

  class MongoRepository {
    const hash: UrlHash
    var docs: Documents
    /** The documents as the map that the `url_hash` index describes. */
    ghost var contents: Records

    ghost predicate Valid()
      reads this
    {
      IndexesHold(docs) && HashesMatch(hash, docs) && contents == View(docs)
    }

    constructor (hash: UrlHash)
      ensures Valid() && this.hash == hash && contents == map[]
    {
      this.hash := hash;
      docs := [];
      contents := map[];
    }

    method FindByURL(url: string, reply: Reply) returns (r: Result<Option<Record>>)
      requires Valid()
      ensures r == if reply.Done? then Success(Lookup(hash, contents, url)) else Failure("find by url: " + reply.cause)
    {
      if reply.Error? {
        return Failure("find by url: " + reply.cause);
      }
      var p := Position(docs, hash(url));
      ViewHas(docs, hash(url));
      r := Success(if p < |docs| then Some(docs[p]) else None);
    }

    method Upsert(record: Record, now: Time, reply: Reply) returns (err: Option<string>)
      requires Valid()
      modifies this
      ensures Valid()
      ensures contents == if Applied(reply) then Apply(hash, old(contents), Op.Upsert(record, now)) else old(contents)
      ensures err == if reply.Done? then None else Some("upsert: " + reply.cause)
    {
      if Applied(reply) {
        WritesMeetTheIndexes(hash, docs, Op.Upsert(record, now));
        WritesRefineTheMap(hash, docs, Op.Upsert(record, now));
        docs := UpsertDocs(hash, docs, record, now);
        contents := Apply(hash, contents, Op.Upsert(record, now));
      }
      err := if reply.Done? then None else Some("upsert: " + reply.cause);
    }

    method UpdateStatus(url: string, status: Status, result: Option<FetchResult>, now: Time, reply: Reply)
      returns (err: Option<string>)
      requires Valid()
      modifies this
      ensures Valid()
      ensures contents == if Applied(reply) then Apply(hash, old(contents), SetStatus(url, status, result, now))
        else old(contents)
      ensures err.None? <==> reply.Done?
      ensures err.Some? ==>
        err.value == (if status.Failed? then "update status (failed): " else "update status: ") + reply.cause
    {
      if Applied(reply) {
        WritesMeetTheIndexes(hash, docs, SetStatus(url, status, result, now));
        WritesRefineTheMap(hash, docs, SetStatus(url, status, result, now));
        docs := SetStatusDocs(hash, docs, url, status, result, now);
        contents := Apply(hash, contents, SetStatus(url, status, result, now));
      }
      if reply.Done? {
        err := None;
      } else {
        err := Some((if status.Failed? then "update status (failed): " else "update status: ") + reply.cause);
      }
    }
  }
}
