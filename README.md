# Latest-image slot per user: a Dafny model

The application lets a known user submit a prompt, has an external image
generator draw it, uploads the image to public blob storage under a path
derived from the user id, and lets a display page poll for the URL of that
user's latest image. This project models the three pieces of logic behind
that flow and proves the properties they promise:

- `ImageStore` (`image_store.dfy`): the in-memory metadata store, a table
  from user id to `{imageUrl, createdAt}`, as a class whose upsert method
  modifies the table and whose lookup reads it. A ghost history of
  completed writes is tied to the table by `Valid()`. The model proves
  read-after-write, last-write-wins, frame and never-stored properties
  against `LatestWrite`, a reference definition over that history.
- `GenerateImage` (`generate_image.dfy`): the POST handler's guard chain
  (400, 401, 500, 500, then success). The generator, the image download and
  the blob upload are inputs (`Collaborators`). The blob store is a map from
  path to bytes, and the handler writes it only in the success branch, at
  `images/<userId>.png`, with overwrite allowed.
- `LatestImage` (`get_latest_image.dfy`): the GET handler's guard and its
  construction of the public URL from a fixed storage host.
- `SlotConsistency` (`slot_consistency.dfy`): how the two routes fit
  together. The reader's URL names the writer's path. Over any sequence of
  POST calls, each user's slot holds the image of that user's last
  successful call. Only the two known users' slots can ever be created.
- `Wrappers`, `Affixes` (`wrappers.dfy`): `Option`, JavaScript truthiness of
  an optional string, and the injectivity of prefix-plus-suffix string
  building that both path lemmas use.

Facts about the code that the model keeps:
- The POST route returns HTTP 200 on success.
- The GET route never reads the store; every non-empty user id gets a URL.
- The POST route does not write to the metadata store; it only logs.
- The stored `createdAt` is whatever the clock reads at the time of the
  write; nothing orders successive timestamps.

## Model

| member | source | states |
|---|---|---|
| `ImageStore.MetadataStore.constructor` | app/lib/imageStore.ts:4 | the store starts as the empty map with an empty write history |
| `ImageStore.MetadataStore.StoreImageMetadata` | app/lib/imageStore.ts:6-11 | upsert: the table becomes the old table with the user's record replaced whole by `{imageUrl, now}`, and the write is appended to the history, keeping `Valid()` |
| `ImageStore.MetadataStore.GetImageMetadata` | app/lib/imageStore.ts:13-15 | lookup returns the record of the most recent store for the user id, and nothing if the table has no entry for it; it modifies nothing |
| `ImageStore.ReplayAgreesWithLatestWrite` | app/lib/imageStore.ts:4-14 | the table built by any sequence of upserts holds, for every user id, exactly the most recent write for that id |
| `ImageStore.NeverStoredLooksUpNothing` | app/lib/imageStore.ts:13-15 | a user id that no write named has no record |
| `ImageStore.ReadAfterWrite` | app/lib/imageStore.ts:6-14 | right after a store, the lookup returns exactly the URL and timestamp written, together |
| `ImageStore.WriteLeavesOthersAlone` | app/lib/imageStore.ts:7 | storing for one user id leaves every other id's record unchanged |
| `ImageStore.SecondWriteReplacesFirst` | app/lib/imageStore.ts:7-10 | a second store for the same id leaves the same table as if the first never happened; the earlier URL is no longer retrievable |
| `GenerateImage.Post` | app/api/generate-image/route.ts:12-74 | 400 exactly when prompt or userId is missing or empty (checked first); 401 exactly when both are present and the id is not `kevinv` or `aurorag`; 500 exactly when past those and the generator is unconfigured; 500 exactly when configured and no image URL came back; every failure leaves the blob store unchanged; success puts the downloaded image at `images/<userId>.png`, overwriting, and echoes the upload URL, prompt and userId |
| `GenerateImage.PostSucceedsIff` | app/api/generate-image/route.ts:18-65 | the handler succeeds exactly when every guard passes, whatever the blob store holds; success adds at most the user's own path |
| `GenerateImage.BlobPathInjective` | app/api/generate-image/route.ts:61 | the blob path is a function of the user id alone, and distinct ids get distinct paths |
| `GenerateImage.RepeatSubmitReplaces` | app/api/generate-image/route.ts:61-65 | two successful submits by the same user leave that path holding the second image and add no new path |
| `LatestImage.Get` | app/api/get-latest-image/route.ts:6-25 | 400 exactly when the userId parameter is absent or empty; otherwise a URL on the fixed storage host for `images/<userId>.png`, whether or not an image exists, with the current clock reading |
| `LatestImage.ImageUrlInjective` | app/api/get-latest-image/route.ts:18 | equal user ids give equal URLs and distinct ones distinct URLs |
| `SlotConsistency.ReaderUrlNamesWriterPath` | app/api/get-latest-image/route.ts:18 | the reader's URL string is the storage host, a slash and the slot path string the POST route uploads to (generate-image route line 61) |
| `SlotConsistency.SlotHoldsLastUpload` | app/api/generate-image/route.ts:61-65 | after any sequence of POST calls, a user's slot holds the image of that user's last successful call, or its earlier content if there was none; failed calls and other users' calls never touch it |
| `SlotConsistency.OnlyKnownSlotsCreated` | app/api/generate-image/route.ts:26-31 | any path that POST calls create is the slot of one of the known user ids |
| `SlotConsistency.ViewerSeesLatestUpload` | app/api/get-latest-image/route.ts:18-25 | for any non-empty user id, after any sequence of POST calls, GET returns a URL string that is the storage host, a slash and the slot path, and that slot holds the user's last uploaded image, or its earlier content if there was none |

## Left out

- UI (the generator form, the viewer, the display page, the 60-second polling timer): rendering and browser plumbing. The client-side `trim()` checks are UI-only; the server does not trim.
- The OpenAI `images.generate` call: replaced by the `configured` flag and the optional `generatedUrl` input.
- The download of the generated image: replaced by the `downloaded` bytes input.
- The internals of the blob `put`: replaced by an update of the path-to-bytes map. The public URL it returns is opaque and is the `uploadedUrl` input.
- The clock and ISO formatting: timestamps are opaque string parameters (`now`).
- JSON parsing and `NextResponse`: request fields are modelled as absent or string. A non-string JSON value for `prompt` or `userId` is not modelled.
- The outer `try/catch` 500 responses of both routes: thrown errors from JSON parsing, the generator, the download or the upload are not modelled.
- Logging: it has no effect on state.
- Concurrent requests: the model is sequential, and the code has no locking to model.
- `GenerateImage.Post`: does not model the access flags passed to `put` (`access: 'public'`), beyond overwrite being allowed.
- `ImageStore.MetadataStore.GetImageMetadata`: the source returns the record object that the table itself holds, so a caller assigning to its fields would change what later lookups return; the model returns an immutable copy and assumes callers do not mutate the returned record.
- URL encoding: URLs are modelled as plain strings. Percent-encoding of reserved characters (`?`, `#`, `%`) in a user id is not modelled, and neither GET nor its callers encode the id, so for such an id the URL string does not parse to the slot path. The two known user ids contain only letters, so the slots POST can write are not affected.
