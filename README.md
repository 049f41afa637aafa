# Storage service of the real-estate agent desktop app, in Dafny

This project models the client-side storage service of a desktop app for
real-estate agents (`src/lib/firebase/storage.ts`). The service uploads
property photos, repair photos, user avatars and client documents to a cloud
bucket, and lists a property's photos. The model covers the logic the service
itself contains:

- **Guards.** The signed-in user's id, or the error "User must be authenticated".
  A MIME-type allow-list check, then a size check against a limit in megabytes
  (1 MB = 1024 × 1024 bytes). A file of exactly the limit passes.
- **Object names.** `{timestamp}_{random}.{extension}` for photos and documents,
  and `avatar_{timestamp}.{extension}` for avatars. The extension is whatever
  follows the last `.`: the whole name when there is no dot, and the empty
  string after a trailing dot.
- **Bucket layout.** One fixed path template per kind of file:
  - `property-photos/{uid}/{propertyId}/{name}`
  - `repair-photos/{uid}/{propertyId}/{repairEstimateId}/{name}`
  - `user-avatars/{uid}/avatar_{ts}.{ext}`
  - `users/{uid}/client-documents/{buyer|seller}s/{clientId}/{name}`
- **Per-kind policy.** Photos and repair photos: jpeg/png/webp up to 10 MB.
  Avatars: the same images up to 5 MB. Client documents: PDF, both Word
  formats and the three images, up to 10 MB. Client-document results report
  the file's original name. Every other result reports the generated name.
- **Loops.** The two batch uploads run one file after another. They tag each
  file's progress reports with its index and keep the results in file order.
  The first failure ends the batch. Listing a property's photos builds one
  record per listed object, then sorts the records in place by creation time.

The cloud SDK is a parameter, `Storage.Sdk`. It has three total functions,
and each one can fail:
- transfer a file to a path, then look up its URL and metadata;
- list a folder;
- look up one listed item.

`getCurrentUser()` becomes an `Option<User>`. `Date.now()` and the text of
`Math.random().toString(36)` become an `Entropy` value. A batch takes a
function `clock` that gives the `Entropy` seen by the upload of file `i`.

Thrown errors are the datatype `Storage.Error`. `Storage.Message` renders the
exact message text. `Storage.Interpolated` renders what `${error}` gives:
`Error: …` for the service's own errors, and `FirebaseError: …` for an SDK
error. Each operation's catch block adds its prefix as `Wrapped(prefix, inner)`.

An upload given a progress callback behaves differently in the code. It uses
the resumable transfer and *returns* its promise from inside the `try`
without awaiting it. A failure of that transfer therefore escapes the catch
block unprefixed, as `Upload failed: …` or `Failed to get download URL: …`.
An upload without a callback gets its SDK error prefixed, as in
`Failed to upload property photo: FirebaseError: …`. `Storage.Store` models
both branches.

Files:
- `wrappers.dfy`: `Option`, `Result`, `Outcome`.
- `text.dfy`: the JavaScript string operations used, with their round trips.
- `storage.dfy`: guards, names, paths and single-file uploads.
- `batch.dfy`: the batch uploads, the listing, and the in-place sort.

## Model

| member | source | states |
|---|---|---|
| `Storage.CurrentUserId` | src/lib/firebase/storage.ts:38-44 | Succeeds exactly when a user is signed in, with that user's uid. Otherwise fails with "User must be authenticated". |
| `Storage.Message` | src/lib/firebase/storage.ts:41 | The text an error carries. A re-thrown error's message begins with its operation's prefix and ": ", as every catch block writes it (lines 152, 183, 221). |
| `Storage.Interpolated` | src/lib/firebase/storage.ts:152 | What `${error}` renders: the error's name, ": ", then its message. The name is `FirebaseError` for an error passed on from the SDK and `Error` for the service's own. |
| `Storage.ValidateFileType` | src/lib/firebase/storage.ts:59-65 | Passes exactly when the file's MIME type is in the allow-list. On failure the message is "Invalid file type. Allowed types: " followed by the list joined with ", ". |
| `Storage.ValidateFileSize` | src/lib/firebase/storage.ts:70-75 | Passes exactly when size ≤ limit × 1024 × 1024, so a file of exactly the limit passes. On failure the message is "File size exceeds {limit}MB limit". |
| `Storage.Admit` | src/lib/firebase/storage.ts:90-92 | Admits exactly the allowed type within the limit. A disallowed type is reported as such whatever the size, because the type is checked first. An allowed but oversized file is reported as too large. |
| `Storage.ImageTypesMessage` | src/lib/firebase/storage.ts:61-63 | The image allow-list is reported as "Invalid file type. Allowed types: image/jpeg, image/png, image/webp". |
| `Storage.SizeLimitMessages` | src/lib/firebase/storage.ts:73 | The two limits are reported as "File size exceeds 10MB limit" and "File size exceeds 5MB limit". |
| `Storage.SdkErrorMessages` | src/lib/firebase/storage.ts:115 | An SDK error reaches a caller as "{prefix}: FirebaseError: {message}" once caught, as "Upload failed: {message}" from a failed resumable transfer, and as "Failed to get download URL: FirebaseError: {message}" from a failed lookup after it (line 131). |
| `Storage.Extension` | src/lib/firebase/storage.ts:52 | `split('.').pop()` never contains a dot. |
| `Storage.ExtensionAfterLastDot` | src/lib/firebase/storage.ts:52 | The extension is exactly the text after the last `.`, or the whole name when there is no `.`. |
| `Storage.ExtensionWithoutDot` | src/lib/firebase/storage.ts:52 | A name without a dot is its own extension. |
| `Storage.ExtensionAfterTrailingDot` | src/lib/firebase/storage.ts:52 | A name ending in `.` has an empty extension. |
| `Storage.RandomPart` | src/lib/firebase/storage.ts:51 | `substring(2, 15)` of the base-36 text has at most 13 characters. It is exactly characters 2 to 14 when the text has 15 or more, and everything after the leading `0.` when the text is shorter, as a usual 12- or 13-character base-36 text is. |
| `Storage.GenerateFileName` | src/lib/firebase/storage.ts:49-54 | The generated name keeps the original name's extension. |
| `Storage.GeneratedNameDetermines` | src/lib/firebase/storage.ts:49-54 | The name can be read back: two equal generated names have the same timestamp, the same random digits and the same extension, whatever the random text holds. |
| `Storage.GeneratedNameTimestamp` | src/lib/firebase/storage.ts:53 | Two equal generated names have the same timestamp and the same text after the first `_`. |
| `Storage.AvatarFileName` | src/lib/firebase/storage.ts:330 | The avatar name keeps the original name's extension. |
| `Storage.AvatarNamesDistinct` | src/lib/firebase/storage.ts:330 | Two equal avatar names come from the same millisecond and have the same extension. |
| `Storage.GeneratedNameIsOneSegment` | src/lib/firebase/storage.ts:53 | A generated name contains no "/" when its random digits and its extension contain none. |
| `Storage.PathSegments` | src/lib/firebase/storage.ts:96 | A path joined from "/"-free segments splits back into exactly those segments. |
| `Storage.PropertyPhotoFolder` | src/lib/firebase/storage.ts:195 | The listed folder splits into `property-photos`, uid, propertyId when neither id holds a "/". |
| `Storage.PropertyPhotoPath` | src/lib/firebase/storage.ts:96 | A property-photo path is the listed folder, "/", then the name, and splits into `property-photos`, uid, propertyId, name. |
| `Storage.RepairPhotoPath` | src/lib/firebase/storage.ts:257 | A repair-photo path splits into `repair-photos`, uid, propertyId, repairEstimateId, name. |
| `Storage.AvatarPath` | src/lib/firebase/storage.ts:331 | An avatar path splits into `user-avatars`, uid, name. |
| `Storage.ClientDocumentPath` | src/lib/firebase/storage.ts:426 | A client-document path splits into `users`, uid, `client-documents`, `buyers` or `sellers`, clientId, name. |
| `Storage.Uploaded` | src/lib/firebase/storage.ts:142-149 | The returned record carries the stored object's URL, size and creation time, the given path and name, and its content type or "" when the metadata has none. The same record is built at lines 122-129 and, for a listed item, at 207-214. |
| `Storage.Store` | src/lib/firebase/storage.ts:100-150 | Progress reaches the callback only on the resumable path, as exactly the transfer's snapshots. The upload succeeds exactly when the transfer does, with the `Uploaded` record of the stored object. Without a callback the caller sees "{prefix}: FirebaseError: {message}". With one, the error is not prefixed: "Upload failed: {message}" for a failed transfer, "Failed to get download URL: FirebaseError: {message}" for a failed lookup. |
| `Storage.UploadPropertyPhoto` | src/lib/firebase/storage.ts:82-154 | With no user it fails before any path is built or transfer made. It then checks the type, then the size (images, 10 MB). Once admitted, it is exactly `Store` of the file to `property-photos/{uid}/{propertyId}/{generated name}` under the generated name, with the "Failed to upload property photo" prefix. A success reports that path and that name. |
| `Storage.UploadRepairPhoto` | src/lib/firebase/storage.ts:242-311 | Same guards and policy as a property photo. Once admitted, it is exactly `Store` of the file to `repair-photos/{uid}/{propertyId}/{repairEstimateId}/{generated name}` under the generated name, with the "Failed to upload repair photo" prefix. |
| `Storage.UploadUserAvatar` | src/lib/firebase/storage.ts:318-385 | Same guards, with images up to 5 MB. Once admitted, it is exactly `Store` of the file to `user-avatars/{uid}/avatar_{ts}.{ext}` under that name, with the "Failed to upload user avatar" prefix. |
| `Storage.UploadClientDocument` | src/lib/firebase/storage.ts:404-480 | Same guards, with the six document types up to 10 MB. Once admitted, it is exactly `Store` of the file to `users/{uid}/client-documents/{type}s/{clientId}/{generated name}` under the original file name, with the "Failed to upload client document" prefix. A success reports that path and the original name. |
| `Storage.PropertyPhotoLocation` | src/lib/firebase/storage.ts:96 | A stored property photo's path is the folder that the listing reads, then "/", then its name. When the user id, the property id, the random digits and the extension hold no "/", the path splits into the four segments `property-photos`, uid, propertyId and name. |
| `Storage.PropertyPhotoPathsDistinct` | src/lib/firebase/storage.ts:49-54 | Names generated at different milliseconds never give the same property-photo path, for any user id and property id, including ids holding `/`. |
| `StorageBatch.BatchSucceeds` | src/lib/firebase/storage.ts:165-181 | A batch succeeds exactly when every upload does. It then returns one result per file, in file order. |
| `StorageBatch.Tagged` | src/lib/firebase/storage.ts:169-171 | The per-file callback passes on each of file i's reports, in order, under index i. |
| `StorageBatch.Batch` | src/lib/firebase/storage.ts:167-183 | What the batch loop computes. A successful batch has one result per file, and a failed one always carries the batch's prefix. |
| `StorageBatch.BatchStep` | src/lib/firebase/storage.ts:167-179 | One turn of the loop appends file i's tagged reports. It then either appends file i's result or ends the batch with file i's error under the batch prefix. |
| `StorageBatch.BatchFailureIsFinal` | src/lib/firebase/storage.ts:173-183 | Once a batch has failed, later files change neither its result nor its progress reports. |
| `StorageBatch.BatchEventsTagged` | src/lib/firebase/storage.ts:169-171 | Every progress report carries the index of the file whose upload produced it. The reports of one file come before those of any later file. |
| `StorageBatch.BatchStopsAtFirstFailure` | src/lib/firebase/storage.ts:167-184 | The first failing file's error is re-thrown with the batch prefix. No later file reports progress. |
| `StorageBatch.UploadPropertyPhotos` | src/lib/firebase/storage.ts:159-185 | The loop computes exactly `Batch` of the per-file uploads. On success there is one result per file, and result i is file i's upload. |
| `StorageBatch.UploadClientDocuments` | src/lib/firebase/storage.ts:485-513 | Same as the property-photo batch, over client-document uploads. |
| `StorageBatch.BatchWithoutUser` | src/lib/firebase/storage.ts:88 | With no signed-in user, a non-empty property-photo batch fails on its first file with the doubly prefixed authentication error. It reports no progress. |
| `StorageBatch.ClientDocumentBatchWithoutUser` | src/lib/firebase/storage.ts:411 | The same for a non-empty client-document batch. |
| `StorageBatch.DescribeAllSucceeds` | src/lib/firebase/storage.ts:199-215 | The listing loop succeeds exactly when every item lookup does. It then gives one record per item, in order: the `Uploaded` record of that item's lookup under the item's full path and name. |
| `StorageBatch.DescribeAll` | src/lib/firebase/storage.ts:201-215 | What the listing loop computes. A success has one record per listed item. A failure carries the error of one of the items' lookups. |
| `StorageBatch.DescribeAllFirstFailure` | src/lib/firebase/storage.ts:201-205 | A failed listing loop carries the error of the first lookup that failed. Every lookup before it succeeded. |
| `StorageBatch.DescribeAllFailureIsFinal` | src/lib/firebase/storage.ts:201-205 | The first failed lookup ends the listing loop. |
| `StorageBatch.ListedPhotos` | src/lib/firebase/storage.ts:190-215 | With no user it fails. A failed list call of `property-photos/{uid}/{propertyId}` is re-thrown with the prefix. When every lookup succeeds, the result is Ok. Record i is then the `Uploaded` record of item i's lookup, with its URL, size, content type and creation time. Otherwise the error of the first failed lookup is re-thrown with the prefix. |
| `StorageBatch.InsertIntoPrefix` | src/lib/firebase/storage.ts:217-219 | One insertion step extends the sorted prefix `a[..i+1]` by one record. It leaves `a[i+1..]` untouched and keeps the array's contents as a multiset. |
| `StorageBatch.SortByUploadedAt` | src/lib/firebase/storage.ts:217-219 | The array ends sorted by non-decreasing `uploadedAt`, as a permutation of its old contents. |
| `StorageBatch.GetPropertyPhotos` | src/lib/firebase/storage.ts:190-223 | Fails exactly when the listing does, with the same error. A success is sorted by `uploadedAt` and is a permutation of the listed records. |
| `Text.Split` | src/lib/firebase/storage.ts:52 | `split` yields at least one piece, and no piece contains the separator. |
| `Text.JoinSplit` | src/lib/firebase/storage.ts:52 | Joining the pieces of a split with the separator gives the string back. |
| `Text.SplitJoin` | src/lib/firebase/storage.ts:96 | Splitting a join of separator-free pieces gives the pieces back. |
| `Text.JoinSnoc` | src/lib/firebase/storage.ts:96 | Joining one more piece appends the separator and that piece. This is how a file path extends its folder. |
| `Text.LastPiece` | src/lib/firebase/storage.ts:52 | `split(sep).pop()` holds no separator. |
| `Text.SplitAround` | src/lib/firebase/storage.ts:52 | Splitting at a separator splits the two sides independently. |
| `Text.LastPieceAfterLastIndex` | src/lib/firebase/storage.ts:52 | The last piece of a split is what follows the last separator. |
| `Text.Substring` | src/lib/firebase/storage.ts:51 | `substring` with clamped bounds returns at most `end - start` characters, all taken from the string. It is the plain slice when the bounds fit, and the rest of the string from `start` when only `end` runs past its length. |
| `Text.Decimal` | src/lib/firebase/storage.ts:53 | `${n}` of a non-negative integer is a non-empty string of decimal digits with no leading zero. |
| `Text.DecimalRoundTrip` | src/lib/firebase/storage.ts:53 | Reading the decimal rendering of a timestamp gives the timestamp back. |
| `Text.DecimalInjective` | src/lib/firebase/storage.ts:53 | Different timestamps render differently. |
| `Text.CutAtFirst` | src/lib/firebase/storage.ts:53 | Cutting a string at the first `_` (or `.`) is unambiguous. This is what makes a generated name readable back. |
| `Text.CutAtLast` | src/lib/firebase/storage.ts:52-53 | Cutting a string at the last `.` is unambiguous. The extension holds no `.`, so it separates the random digits from the extension. |

## Left out

- The cloud SDK calls (`ref`, `uploadBytes`, `uploadBytesResumable`, `getDownloadURL`, `getMetadata`, `listAll`): they are foreign library code. They are the abstract, possibly failing steps of `Storage.Sdk`. Both upload calls are one `transfer` step.
- `deletePropertyPhoto` and `deleteFile`: each only passes a path to the SDK's delete call and prefixes its error. There is no logic of the service's own to state.
- The progress percentage `bytesTransferred / totalBytes * 100`: it is floating-point arithmetic. A progress report carries the raw `Snapshot` of byte counts instead.
- The promise and event-callback wiring of the resumable upload: it is asynchronous plumbing. The model keeps only its observable effects: the reports delivered and the unprefixed errors.
- `Date.now()`, `Math.random().toString(36)` and `new Date(metadata.timeCreated)`: time, randomness and date parsing are inputs. The creation time is an integer in milliseconds. An unparseable date, which JavaScript sorts as NaN, is not modelled.
- A batch reads `getCurrentUser()` once per file. The model holds one signed-in user for the whole batch, because a sign-out during a batch is a concurrent event and is not modelled.
- `PROPERTY_DOCUMENTS`: it is declared in `storage.ts` but used by no operation, so it is only a constant here.
- `SortByUploadedAt`: does not state that the sort is stable, which JavaScript's `Array.prototype.sort` guarantees. Only order and permutation are proved.
- `StorageBatch.BatchEventsTagged`: states each report's tag, where it comes from and the file order. It does not state that every snapshot of every processed file is delivered, although `Batch` defines the exact sequence.
- The SDK's error text is taken to be `FirebaseError: {message}`, the rendering of the SDK's error class. Its message wording is an input.
- `src/main/ipc/report-handlers.ts` only checks two preconditions, the language-model client and the main window, and returns an error object when either is missing. It then starts the report generator without awaiting it. `src/preload/index.ts` only forwards calls across the process boundary, and `electron.vite.config.ts` only sets build options. None of them is modelled.
