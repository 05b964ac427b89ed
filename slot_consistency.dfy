/** How the two routes fit together: the GET route's URL names the blob path
    the POST route writes, and over any sequence of POST calls each user's
    single slot holds the image of that user's last successful call. */
module SlotConsistency {
  import opened Wrappers
  import GenerateImage
  import LatestImage

  /** One POST call: the request and what the collaborators answered. */
  datatype Call = Call(req: GenerateImage.Request, env: GenerateImage.Collaborators)

  /** The reader's URL is the storage host followed by the writer's blob path. */
  lemma ReaderUrlNamesWriterPath(userId: string)
    ensures LatestImage.ImageUrl(userId) == LatestImage.BlobBase + "/" + GenerateImage.BlobPath(userId)
  {
  }

  /** The blob store after handling the calls in order. */
  function RunPosts(calls: seq<Call>, blobs: GenerateImage.Blobs): GenerateImage.Blobs
    decreases |calls|
  {
    if calls == [] then blobs
    else
      var last := calls[|calls| - 1];
      GenerateImage.Post(last.req, last.env, RunPosts(calls[..|calls| - 1], blobs)).blobs
  }

  /** Reference definition: the image downloaded by the most recent
      successful call from the user, if any. */
  function LastUpload(calls: seq<Call>, userId: string): Option<GenerateImage.Bytes>
    decreases |calls|
  {
    if calls == [] then None
    else
      var last := calls[|calls| - 1];
      if GenerateImage.Succeeds(last.req, last.env) && last.req.userId.value == userId
      then Some(last.env.downloaded)
      else LastUpload(calls[..|calls| - 1], userId)
  }

  /** What a path holds in a blob store, if anything. */
  function Stored(blobs: GenerateImage.Blobs, path: string): Option<GenerateImage.Bytes> {
    if path in blobs then Some(blobs[path]) else None
  }

  /** Each user's slot holds the image of that user's last successful call;
      with no such call it holds what it held before. Failed calls and other
      users' calls never touch it. */
  lemma {:induction false} SlotHoldsLastUpload(calls: seq<Call>, blobs: GenerateImage.Blobs, userId: string)
    ensures Stored(RunPosts(calls, blobs), GenerateImage.BlobPath(userId))
            == match LastUpload(calls, userId)
               case Some(image) => Some(image)
               case None => Stored(blobs, GenerateImage.BlobPath(userId))
    decreases |calls|
  {
    if calls != [] {
      var last := calls[|calls| - 1];
      var before := RunPosts(calls[..|calls| - 1], blobs);
      SlotHoldsLastUpload(calls[..|calls| - 1], blobs, userId);
      GenerateImage.PostSucceedsIff(last.req, last.env, before);
      if GenerateImage.Succeeds(last.req, last.env) {
        GenerateImage.BlobPathInjective(last.req.userId.value, userId);
      }
    }
  }

  /** Only the known users' slots can ever be created. */
  lemma {:induction false} OnlyKnownSlotsCreated(calls: seq<Call>, blobs: GenerateImage.Blobs)
    ensures forall path :: path in RunPosts(calls, blobs) && path !in blobs ==>
              exists u :: u in GenerateImage.KnownUserIds && path == GenerateImage.BlobPath(u)
    decreases |calls|
  {
    if calls != [] {
      var last := calls[|calls| - 1];
      var before := RunPosts(calls[..|calls| - 1], blobs);
      OnlyKnownSlotsCreated(calls[..|calls| - 1], blobs);
      GenerateImage.PostSucceedsIff(last.req, last.env, before);
    }
  }

  /** What a viewer polling GET sees after any sequence of POST calls: a URL
      string made of the storage host, a slash and the user's slot path, and
      that slot holds the user's last uploaded image (or its earlier content).
      URLs are plain strings here; no percent-encoding is modelled. */
  lemma ViewerSeesLatestUpload(calls: seq<Call>, blobs: GenerateImage.Blobs, userId: string, now: string)
    requires userId != ""
    ensures var r := LatestImage.Get(Some(userId), now);
            && r.Found?
            && exists path ::
                 && r.imageUrl == LatestImage.BlobBase + "/" + path
                 && Stored(RunPosts(calls, blobs), path)
                    == match LastUpload(calls, userId)
                       case Some(image) => Some(image)
                       case None => Stored(blobs, path)
  {
    var path := GenerateImage.BlobPath(userId);
    ReaderUrlNamesWriterPath(userId);
    SlotHoldsLastUpload(calls, blobs, userId);
    assert LatestImage.Get(Some(userId), now).imageUrl == LatestImage.BlobBase + "/" + path;
  }
}
