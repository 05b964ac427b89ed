/** The POST handler of app/api/generate-image/route.ts: a fixed chain of
    guards, then an upload of the generated image to a blob path derived from
    the user id alone. The image generator, the download of its result and
    the blob upload are collaborators: their answers are inputs, and the blob
    store is a map from path to content that the handler updates. */
module GenerateImage {
  import opened Wrappers
  import Affixes

  type Bytes = seq<bv8>

  /** The blob store: path to stored content. */
  type Blobs = map<string, Bytes>

  /** The only user ids allowed to generate images. */
  const KnownUserIds: seq<string> := ["kevinv", "aurorag"]

  const MissingFields := "Prompt and userId are required"
  const UnknownUser := "Invalid user ID. Only known users can generate images."
  const NotConfigured := "OpenAI API key not configured"
  const GenerationFailed := "Failed to generate image"

  /** The parsed JSON body; a field is absent when the body lacks it. */
  datatype Request = Request(prompt: Option<string>, userId: Option<string>)

  /** What the collaborators answer during one call: whether the generator
      client exists (an API key is set), the URL of the first generated image
      (absent when the provider returned none), the bytes downloaded from that
      URL, and the public URL the blob upload reports. */
  datatype Collaborators = Collaborators(
    configured: bool,
    generatedUrl: Option<string>,
    downloaded: Bytes,
    uploadedUrl: string)

  /** The JSON response: an error with its HTTP status, or the generated
      image (HTTP 200) echoing the request's fields. */
  datatype Response =
    | Failure(status: nat, error: string)
    | Generated(imageUrl: string, prompt: string, userId: string)

  /** The handler's response together with the blob store it leaves. */
  datatype Outcome = Outcome(response: Response, blobs: Blobs)

  /** The blob path a user's image is uploaded to. */
  function BlobPath(userId: string): string {
    "images/" + userId + ".png"
  }

  /** Distinct user ids get distinct blob paths, and equal ones the same. */
  lemma BlobPathInjective(u1: string, u2: string)
    ensures BlobPath(u1) == BlobPath(u2) <==> u1 == u2
  {
    Affixes.AffixedInjective("images/", u1, u2, ".png");
  }

  /** The POST handler. The guards run in the source's order, each failure
      returns before the upload, and the upload (overwrite allowed) is the
      last step before the success response. */
  function Post(req: Request, env: Collaborators, blobs: Blobs): (o: Outcome)
    // 400 exactly when a field is missing or empty; checked first
    ensures o.response.Failure? && o.response.status == 400
            <==> !Truthy(req.prompt) || !Truthy(req.userId)
    ensures o.response.Failure? && o.response.status == 400 ==> o.response.error == MissingFields
    // 401 exactly when both fields are present and the user is unknown
    ensures o.response.Failure? && o.response.status == 401
            <==> Truthy(req.prompt) && Truthy(req.userId) && req.userId.value !in KnownUserIds
    ensures o.response.Failure? && o.response.status == 401 ==> o.response.error == UnknownUser
    // 500 for a missing generator, reached only past both validations
    ensures o.response == Failure(500, NotConfigured)
            <==> Truthy(req.prompt) && Truthy(req.userId) && req.userId.value in KnownUserIds
                 && !env.configured
    // 500 for an empty generator result, reached only with a configured generator
    ensures o.response == Failure(500, GenerationFailed)
            <==> Truthy(req.prompt) && Truthy(req.userId) && req.userId.value in KnownUserIds
                 && env.configured && !Truthy(env.generatedUrl)
    ensures o.response.Failure? ==> o.response.status in {400, 401, 500}
    // no blob is written on any failure path
    ensures o.response.Failure? ==> o.blobs == blobs
    // success: the downloaded image replaces whatever was at the user's path,
    // and the response echoes the upload URL and the request's fields
    ensures o.response.Generated? ==>
              && req.prompt.Some? && req.userId.Some?
              && o.response == Generated(env.uploadedUrl, req.prompt.value, req.userId.value)
              && o.blobs == blobs[BlobPath(req.userId.value) := env.downloaded]
  {
    if !Truthy(req.prompt) || !Truthy(req.userId) then
      Outcome(Failure(400, MissingFields), blobs)
    else if req.userId.value !in KnownUserIds then
      Outcome(Failure(401, UnknownUser), blobs)
    else if !env.configured then
      Outcome(Failure(500, NotConfigured), blobs)
    else if !Truthy(env.generatedUrl) then
      Outcome(Failure(500, GenerationFailed), blobs)
    else
      var userId := req.userId.value;
      Outcome(Generated(env.uploadedUrl, req.prompt.value, userId),
              blobs[BlobPath(userId) := env.downloaded])
  }

  /** A request passes every guard and the generator yields an image. */
  predicate Succeeds(req: Request, env: Collaborators) {
    && Truthy(req.prompt) && Truthy(req.userId)
    && req.userId.value in KnownUserIds
    && env.configured && Truthy(env.generatedUrl)
  }

  /** The handler succeeds exactly when every guard passes, whatever the
      blob store holds; success writes one path and the store grows by at
      most that path. */
  lemma PostSucceedsIff(req: Request, env: Collaborators, blobs: Blobs)
    ensures Post(req, env, blobs).response.Generated? <==> Succeeds(req, env)
    ensures Succeeds(req, env) ==>
              Post(req, env, blobs).blobs.Keys == blobs.Keys + {BlobPath(req.userId.value)}
  {
  }

  /** A repeat submit by the same user replaces that user's blob: the path
      holds the second image and no new path appears. */
  lemma RepeatSubmitReplaces(req1: Request, env1: Collaborators, req2: Request, env2: Collaborators, blobs: Blobs)
    requires Succeeds(req1, env1) && Succeeds(req2, env2)
    requires req1.userId == req2.userId
    ensures var after := Post(req2, env2, Post(req1, env1, blobs).blobs).blobs;
            && after == blobs[BlobPath(req2.userId.value) := env2.downloaded]
            && after.Keys == Post(req1, env1, blobs).blobs.Keys
  {
  }
}
