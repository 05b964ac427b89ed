/** The in-memory image metadata store (app/lib/imageStore.ts): a table from
    user id to the latest image record, where every write replaces the
    user's record whole and a lookup changes nothing. */
module ImageStore {
  import opened Wrappers

  /** One stored record: the image's URL and the clock reading taken when it
      was stored (an ISO-8601 string, opaque here). */
  datatype Metadata = Metadata(imageUrl: string, createdAt: string)

  /** One completed storeImageMetadata call, with the clock value it read. */
  datatype Write = Write(userId: string, imageUrl: string, createdAt: string)

  /** The record a write leaves behind: both fields come from the same call. */
  function RecordOf(w: Write): Metadata {
    Metadata(w.imageUrl, w.createdAt)
  }

  /** The record a table holds for a user id, if any. */
  function Lookup(table: map<string, Metadata>, userId: string): Option<Metadata> {
    if userId in table then Some(table[userId]) else None
  }

  /** The table the store holds after the given writes, in order, starting
      from the empty map the module is loaded with. */
  function Replay(writes: seq<Write>): map<string, Metadata>
    decreases |writes|
  {
    if writes == [] then map[]
    else
      var last := writes[|writes| - 1];
      Replay(writes[..|writes| - 1])[last.userId := RecordOf(last)]
  }

  /** Reference definition of what a reader should see: the record of the
      most recent write for the user id, or nothing if there was none. */
  function LatestWrite(writes: seq<Write>, userId: string): Option<Metadata>
    decreases |writes|
  {
    if writes == [] then None
    else if writes[|writes| - 1].userId == userId then Some(RecordOf(writes[|writes| - 1]))
    else LatestWrite(writes[..|writes| - 1], userId)
  }

  /** Looking a user id up in the replayed table yields the most recent
      write for that id: the table keeps exactly the last write per key. */
  lemma {:induction false} ReplayAgreesWithLatestWrite(writes: seq<Write>, userId: string)
    ensures Lookup(Replay(writes), userId) == LatestWrite(writes, userId)
    decreases |writes|
  {
    if writes != [] {
      ReplayAgreesWithLatestWrite(writes[..|writes| - 1], userId);
    }
  }

  /** A user id that no write ever named has no record. */
  lemma {:induction false} NeverStoredLooksUpNothing(writes: seq<Write>, userId: string)
    requires forall i :: 0 <= i < |writes| ==> writes[i].userId != userId
    ensures Lookup(Replay(writes), userId) == None
    decreases |writes|
  {
    if writes != [] {
      var prefix := writes[..|writes| - 1];
      assert forall i :: 0 <= i < |prefix| ==> prefix[i] == writes[i];
      NeverStoredLooksUpNothing(prefix, userId);
    }
  }

  /** Read after write: right after storing, the user's record is exactly the
      URL and timestamp just written. */
  lemma ReadAfterWrite(writes: seq<Write>, w: Write)
    ensures Lookup(Replay(writes + [w]), w.userId) == Some(Metadata(w.imageUrl, w.createdAt))
  {
  }

  /** Storing for one user id leaves every other user id's record as it was. */
  lemma WriteLeavesOthersAlone(writes: seq<Write>, w: Write, other: string)
    requires other != w.userId
    ensures Lookup(Replay(writes + [w]), other) == Lookup(Replay(writes), other)
  {
  }

  /** Last write wins: a second store for the same user id leaves the table
      as if the first had never happened, so the earlier URL is gone. */
  lemma SecondWriteReplacesFirst(writes: seq<Write>, first: Write, second: Write)
    requires first.userId == second.userId
    ensures Replay(writes + [first, second]) == Replay(writes + [second])
    ensures Lookup(Replay(writes + [first, second]), first.userId) == Some(RecordOf(second))
  {
    var both := writes + [first, second];
    assert both[..|both| - 1] == writes + [first];
    assert (writes + [first])[..|writes|] == writes;
    assert (writes + [second])[..|writes|] == writes;
  }

  /** The module-level map of imageStore.ts. `writes` is the history of
      completed stores; `Valid` ties the live table to it. */
  class MetadataStore {
    var records: map<string, Metadata>
    ghost var writes: seq<Write>

    ghost predicate Valid()
      reads this
    {
      records == Replay(writes)
    }

    /** The store as the module creates it: empty. */
    constructor ()
      ensures Valid() && writes == [] && records == map[]
    {
      records := map[];
      writes := [];
    }

    /** storeImageMetadata: upsert the record for userId, with `now` standing
        for the clock reading the source takes at the time of the call. */
    method StoreImageMetadata(userId: string, imageUrl: string, now: string)
      requires Valid()
      modifies this
      ensures Valid()
      ensures writes == old(writes) + [Write(userId, imageUrl, now)]
      ensures records == old(records)[userId := Metadata(imageUrl, now)]
    {
      records := records[userId := Metadata(imageUrl, now)];
      writes := writes + [Write(userId, imageUrl, now)];
      assert writes[..|writes| - 1] == old(writes);
    }

    /** getImageMetadata: the record of the most recent store for userId, or
        nothing; it modifies nothing, so the table is the same afterwards. */
    method GetImageMetadata(userId: string) returns (r: Option<Metadata>)
      requires Valid()
      ensures r == LatestWrite(writes, userId)
      ensures r.Some? <==> userId in records
      ensures r.Some? ==> r.value == records[userId]
    {
      if userId in records {
        r := Some(records[userId]);
      } else {
        r := None;
      }
      ReplayAgreesWithLatestWrite(writes, userId);
    }
  }
}
