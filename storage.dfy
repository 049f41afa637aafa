/** The file-admission and storage-layout logic of the storage service:
    - the signed-in user's id, or the "must be authenticated" error;
    - the two validators (MIME allow-list, size limit in megabytes);
    - the unique object name `{timestamp}_{random}.{extension}`;
    - the bucket path of each kind of file;
    - the four single-file uploads, each combining the above with one
      abstract, possibly failing transfer into the bucket.
    The cloud SDK, the clock and the random source are parameters. */
module Storage {
  import opened Wrappers
  import opened Text

  // ---------------------------------------------------------------------
  // Constants

  /** Top-level folders of the bucket (storage.ts's STORAGE_PATHS). */
  const PROPERTY_PHOTOS := "property-photos"
  const PROPERTY_DOCUMENTS := "property-documents"
  const USER_AVATARS := "user-avatars"
  const REPAIR_PHOTOS := "repair-photos"
  const CLIENT_DOCUMENTS := "client-documents"

  const MIB: nat := 1024 * 1024

  /** The allow-list for property photos, repair photos and avatars. */
  const IMAGE_TYPES: seq<string> := ["image/jpeg", "image/png", "image/webp"]

  /** The allow-list for client documents: PDF, Word (both formats) and the images. */
  const DOCUMENT_TYPES: seq<string> := [
    "application/pdf",
    "application/msword",
    "application/vnd.openxmlformats-officedocument.wordprocessingml.document",
    "image/jpeg",
    "image/png",
    "image/webp"
  ]

  const PHOTO_LIMIT_MB: nat := 10
  const AVATAR_LIMIT_MB: nat := 5
  const DOCUMENT_LIMIT_MB: nat := 10

  /** The prefixes each operation's catch block puts in front of the error. */
  const UPLOAD_PROPERTY_PHOTO := "Failed to upload property photo"
  const UPLOAD_PROPERTY_PHOTOS := "Failed to upload property photos"
  const GET_PROPERTY_PHOTOS := "Failed to get property photos"
  const UPLOAD_REPAIR_PHOTO := "Failed to upload repair photo"
  const UPLOAD_USER_AVATAR := "Failed to upload user avatar"
  const UPLOAD_CLIENT_DOCUMENT := "Failed to upload client document"
  const UPLOAD_CLIENT_DOCUMENTS := "Failed to upload client documents"

  // ---------------------------------------------------------------------
  // Data model

  /** A browser `File`: its name, its MIME type and its size in bytes. */
  datatype File = File(name: string, mimeType: string, size: nat)

  /** The signed-in user as the auth module reports it. */
  datatype User = User(uid: string)

  datatype ClientType = Buyer | Seller

  /** What one call of the name generator reads from its environment:
      `Date.now()` and the text of `Math.random().toString(36)`. */
  datatype Entropy = Entropy(now: nat, random36: string)

  /** One progress report of a resumable upload. */
  datatype Snapshot = Snapshot(bytesTransferred: nat, totalBytes: nat)

  /** The download URL and metadata of an object in the bucket;
      `timeCreated` is the creation time in milliseconds. */
  datatype Stored = Stored(url: string, size: nat, contentType: Option<string>, timeCreated: int)

  /** Where an SDK call failed: during the transfer itself, or while
      fetching the download URL or metadata afterwards. */
  datatype SdkStage = TransferStage | LookupStage

  /** An error raised inside the cloud SDK. */
  datatype SdkError = SdkError(stage: SdkStage, message: string)

  /** An object reference returned by a folder listing. */
  datatype ItemRef = ItemRef(fullPath: string, name: string)

  /** What the transfer of one file reports: the progress snapshots it
      emitted, then the stored object or the SDK error. */
  datatype Transfer = Transfer(snapshots: seq<Snapshot>, outcome: Result<Stored, SdkError>)

  /** The cloud SDK as three abstract, possibly failing steps:
      upload then look up one object, list a folder, look up one listed item. */
  datatype Sdk = Sdk(
    transfer: (string, File) -> Transfer,
    list: string -> Result<seq<ItemRef>, SdkError>,
    describe: ItemRef -> Result<Stored, SdkError>)

  /** The shared `FileUploadResult` record; `uploadedAt` in milliseconds. */
  datatype FileUploadResult = FileUploadResult(
    url: string, path: string, fileName: string, size: nat, contentType: string, uploadedAt: int)

  /** The errors the service throws. */
  datatype Error =
    | NotAuthenticated
    | InvalidFileType(allowed: seq<string>)
    | FileTooLarge(maxSizeInMB: nat)
      /** an SDK error passed through unchanged */
    | SdkFailure(cause: SdkError)
      /** a resumable transfer that failed */
    | UploadFailed(detail: string)
      /** a resumable transfer whose URL or metadata lookup failed */
    | DownloadUrlFailed(cause: SdkError)
      /** an error caught and re-thrown with the operation's prefix */
    | Wrapped(context: string, inner: Error)

  /** The `message` of an error; a re-thrown error's message begins with its operation's prefix. */
  function Message(e: Error): (r: string)
    ensures e.Wrapped? ==> e.context + ": " <= r
    decreases e, 0
  {
    match e
    case NotAuthenticated => "User must be authenticated"
    case InvalidFileType(allowed) => "Invalid file type. Allowed types: " + Join(allowed, ", ")
    case FileTooLarge(max) => "File size exceeds " + Decimal(max) + "MB limit"
    case SdkFailure(cause) => cause.message
    case UploadFailed(detail) => "Upload failed: " + detail
    case DownloadUrlFailed(cause) => "Failed to get download URL: " + SdkText(cause)
    case Wrapped(context, inner) => context + ": " + Interpolated(inner)
  }

  /** An SDK error interpolated into a template (`${error}`); the SDK's errors are named FirebaseError. */
  function SdkText(e: SdkError): string
  {
    "FirebaseError: " + e.message
  }

  /** An error interpolated into a template (`${error}`): its name, ": ", its message. */
  function Interpolated(e: Error): (r: string)
    ensures r == (if e.SdkFailure? then "FirebaseError" else "Error") + ": " + Message(e)
    decreases e, 1
  {
    match e
    case SdkFailure(cause) => SdkText(cause)
    case _ => "Error: " + Message(e)
  }

  /** One single-file upload: the progress reported to its callback, then
      the upload result or the error thrown. */
  datatype Attempt = Attempt(progress: seq<Snapshot>, outcome: Result<FileUploadResult, Error>)

  /** An upload that throws before any path is built or transfer begun. */
  function Refused(context: string, e: Error): Attempt
  {
    Attempt([], Err(Wrapped(context, e)))
  }

  // ---------------------------------------------------------------------
  // Guards

  /** `getCurrentUserId`: the signed-in user's id, or the error it throws. */
  function CurrentUserId(user: Option<User>): (r: Result<string, Error>)
    ensures r.Ok? <==> user.Some?
    ensures r.Ok? ==> r.value == user.value.uid
    ensures r.Err? ==> r.error == NotAuthenticated && Message(r.error) == "User must be authenticated"
  {
    match user
    case None => Err(NotAuthenticated)
    case Some(u) => Ok(u.uid)
  }

  /** `validateFileType`: the file's MIME type must be one of `allowed`. */
  function ValidateFileType(file: File, allowed: seq<string>): (r: Outcome<Error>)
    ensures r.Pass? <==> file.mimeType in allowed
    ensures r.Fail? ==> r.error == InvalidFileType(allowed)
    ensures r.Fail? ==> Message(r.error) == "Invalid file type. Allowed types: " + Join(allowed, ", ")
  {
    if file.mimeType in allowed then Pass else Fail(InvalidFileType(allowed))
  }

  /** `validateFileSize`: the file may be at most `maxSizeInMB` mebibytes. */
  function ValidateFileSize(file: File, maxSizeInMB: nat): (r: Outcome<Error>)
    ensures r.Pass? <==> file.size <= maxSizeInMB * 1024 * 1024
    ensures r.Fail? ==> r.error == FileTooLarge(maxSizeInMB)
    ensures r.Fail? ==> Message(r.error) == "File size exceeds " + Decimal(maxSizeInMB) + "MB limit"
  {
    var maxSizeInBytes := maxSizeInMB * 1024 * 1024;
    if file.size > maxSizeInBytes then Fail(FileTooLarge(maxSizeInMB)) else Pass
  }

  /** What a category admits: an allowed type and a size within the limit. */
  predicate Admissible(file: File, allowed: seq<string>, maxSizeInMB: nat)
  {
    file.mimeType in allowed && file.size <= maxSizeInMB * MIB
  }

  /** The two validators in the order every upload calls them: type, then size. */
  function Admit(file: File, allowed: seq<string>, maxSizeInMB: nat): (r: Outcome<Error>)
    ensures r.Pass? <==> Admissible(file, allowed, maxSizeInMB)
    ensures file.mimeType !in allowed ==> r == Fail(InvalidFileType(allowed))
    ensures file.mimeType in allowed && file.size > maxSizeInMB * MIB ==> r == Fail(FileTooLarge(maxSizeInMB))
  {
    match ValidateFileType(file, allowed)
    case Fail(e) => Fail(e)
    case Pass => ValidateFileSize(file, maxSizeInMB)
  }

  // ---------------------------------------------------------------------
  // Object names

  /** The extension a name keeps: `name.split('.').pop()`. */
  function Extension(name: string): (r: string)
    ensures '.' !in r
  {
    LastPiece(name, '.')
  }

  /** The 13 characters of `Math.random().toString(36).substring(2, 15)`. */
  function RandomPart(e: Entropy): (r: string)
    ensures |r| <= 13
    ensures |e.random36| >= 15 ==> r == e.random36[2..15]
    ensures 2 <= |e.random36| <= 15 ==> r == e.random36[2..]
  {
    Substring(e.random36, 2, 15)
  }

  /** `generateFileName`: `{timestamp}_{random}.{extension}`. */
  function GenerateFileName(originalName: string, e: Entropy): (r: string)
    ensures Extension(r) == Extension(originalName)
  {
    var extension := Extension(originalName);
    LastPieceOfAppend(Decimal(e.now) + "_" + RandomPart(e), extension, '.');
    Decimal(e.now) + "_" + RandomPart(e) + "." + extension
  }

  /** The name an avatar is stored under: `avatar_{timestamp}.{extension}`. */
  function AvatarFileName(originalName: string, now: nat): (r: string)
    ensures Extension(r) == Extension(originalName)
  {
    var extension := Extension(originalName);
    LastPieceOfAppend("avatar_" + Decimal(now), extension, '.');
    "avatar_" + Decimal(now) + "." + extension
  }

  /** The extension is what follows the last dot, or the whole name when
      there is no dot. */
  lemma ExtensionAfterLastDot(name: string)
    ensures Extension(name) == name[LastIndexOf(name, '.') + 1..]
  {
    LastPieceAfterLastIndex(name, '.');
  }

  lemma ExtensionWithoutDot(name: string)
    requires '.' !in name
    ensures Extension(name) == name
  {
    SplitWithoutSeparator(name, '.');
  }

  lemma ExtensionAfterTrailingDot(name: string)
    requires |name| > 0 && name[|name| - 1] == '.'
    ensures Extension(name) == ""
  {
    ExtensionAfterLastDot(name);
  }

  /** The timestamp of a generated name can be read back: it is the part
      before the first "_", which a decimal numeral never holds. */
  lemma GeneratedNameTimestamp(n1: string, e1: Entropy, n2: string, e2: Entropy)
    requires GenerateFileName(n1, e1) == GenerateFileName(n2, e2)
    ensures e1.now == e2.now
    ensures RandomPart(e1) + "." + Extension(n1) == RandomPart(e2) + "." + Extension(n2)
  {
    var d1, d2 := Decimal(e1.now), Decimal(e2.now);
    var t1 := RandomPart(e1) + "." + Extension(n1);
    var t2 := RandomPart(e2) + "." + Extension(n2);
    assert '_' !in d1 by { assert forall i :: 0 <= i < |d1| ==> IsDigit(d1[i]); }
    assert '_' !in d2 by { assert forall i :: 0 <= i < |d2| ==> IsDigit(d2[i]); }
    assert d1 + "_" + t1 == GenerateFileName(n1, e1);
    assert d2 + "_" + t2 == GenerateFileName(n2, e2);
    CutAtFirst(d1, t1, d2, t2, '_');
    DecimalInjective(e1.now, e2.now);
  }

  /** The generated name can be read back: equal names come from the same
      timestamp, the same random digits and the same extension. */
  lemma GeneratedNameDetermines(n1: string, e1: Entropy, n2: string, e2: Entropy)
    requires GenerateFileName(n1, e1) == GenerateFileName(n2, e2)
    ensures e1.now == e2.now
    ensures RandomPart(e1) == RandomPart(e2)
    ensures Extension(n1) == Extension(n2)
  {
    GeneratedNameTimestamp(n1, e1, n2, e2);
    CutAtLast(RandomPart(e1), Extension(n1), RandomPart(e2), Extension(n2), '.');
  }

  /** Two avatars uploaded at different milliseconds get different names. */
  lemma AvatarNamesDistinct(n1: string, now1: nat, n2: string, now2: nat)
    requires AvatarFileName(n1, now1) == AvatarFileName(n2, now2)
    ensures now1 == now2 && Extension(n1) == Extension(n2)
  {
    var d1, d2 := Decimal(now1), Decimal(now2);
    assert '.' !in d1 by { assert forall i :: 0 <= i < |d1| ==> IsDigit(d1[i]); }
    assert '.' !in d2 by { assert forall i :: 0 <= i < |d2| ==> IsDigit(d2[i]); }
    assert "avatar_" + d1 + "." + Extension(n1) == AvatarFileName(n1, now1);
    assert "avatar_" + d2 + "." + Extension(n2) == AvatarFileName(n2, now2);
    CutAtFirst("avatar_" + d1, Extension(n1), "avatar_" + d2, Extension(n2), '.');
    assert d1 == ("avatar_" + d1)[7..] && d2 == ("avatar_" + d2)[7..];
    DecimalInjective(now1, now2);
  }

  // ---------------------------------------------------------------------
  // Bucket paths

  /** A bucket path: its segments joined with "/", as the storage service's template literals write them. */
  function PathOf(segments: seq<string>): string
  {
    Join(segments, "/")
  }

  /** A path built by `PathOf` splits at "/" back into its segments, provided
      no segment holds a "/". */
  lemma {:induction false} PathSegments(segments: seq<string>)
    requires |segments| >= 1
    ensures (forall i :: 0 <= i < |segments| ==> '/' !in segments[i]) ==> Split(PathOf(segments), '/') == segments
  {
    if forall i :: 0 <= i < |segments| ==> '/' !in segments[i] {
      SplitJoin(segments, '/');
    }
  }

  /** The folder `getPropertyPhotos` lists: `property-photos/{uid}/{propertyId}`. */
  function PropertyPhotoFolder(uid: string, propertyId: string): (r: string)
    ensures '/' !in uid && '/' !in propertyId ==> Split(r, '/') == [PROPERTY_PHOTOS, uid, propertyId]
  {
    PathSegments([PROPERTY_PHOTOS, uid, propertyId]);
    PathOf([PROPERTY_PHOTOS, uid, propertyId])
  }

  /** `property-photos/{uid}/{propertyId}/{fileName}`: a file of the listed folder. */
  function PropertyPhotoPath(uid: string, propertyId: string, fileName: string): (r: string)
    ensures r == PropertyPhotoFolder(uid, propertyId) + "/" + fileName
    ensures '/' !in uid && '/' !in propertyId && '/' !in fileName ==>
              Split(r, '/') == [PROPERTY_PHOTOS, uid, propertyId, fileName]
  {
    var folder := [PROPERTY_PHOTOS, uid, propertyId];
    assert folder + [fileName] == [PROPERTY_PHOTOS, uid, propertyId, fileName];
    JoinSnoc(folder, fileName, "/");
    PathSegments([PROPERTY_PHOTOS, uid, propertyId, fileName]);
    PathOf([PROPERTY_PHOTOS, uid, propertyId, fileName])
  }

  /** `repair-photos/{uid}/{propertyId}/{repairEstimateId}/{fileName}`. */
  function RepairPhotoPath(uid: string, propertyId: string, repairEstimateId: string, fileName: string): (r: string)
    ensures '/' !in uid && '/' !in propertyId && '/' !in repairEstimateId && '/' !in fileName ==>
              Split(r, '/') == [REPAIR_PHOTOS, uid, propertyId, repairEstimateId, fileName]
  {
    PathSegments([REPAIR_PHOTOS, uid, propertyId, repairEstimateId, fileName]);
    PathOf([REPAIR_PHOTOS, uid, propertyId, repairEstimateId, fileName])
  }

  /** `user-avatars/{uid}/{fileName}`. */
  function AvatarPath(uid: string, fileName: string): (r: string)
    ensures '/' !in uid && '/' !in fileName ==> Split(r, '/') == [USER_AVATARS, uid, fileName]
  {
    PathSegments([USER_AVATARS, uid, fileName]);
    PathOf([USER_AVATARS, uid, fileName])
  }

  function ClientTypeName(t: ClientType): string
  {
    match t
    case Buyer => "buyer"
    case Seller => "seller"
  }

  /** `users/{uid}/client-documents/{clientType}s/{clientId}/{fileName}`. */
  function ClientDocumentPath(uid: string, clientId: string, clientType: ClientType, fileName: string): (r: string)
    ensures '/' !in uid && '/' !in clientId && '/' !in fileName ==>
              Split(r, '/') == ["users", uid, CLIENT_DOCUMENTS, ClientTypeName(clientType) + "s", clientId, fileName]
  {
    var segments := ["users", uid, CLIENT_DOCUMENTS, ClientTypeName(clientType) + "s", clientId, fileName];
    assert '/' !in segments[3] by { assert segments[3] == "buyers" || segments[3] == "sellers"; }
    PathSegments(segments);
    PathOf(segments)
  }

  /** A generated name is a single path segment when its random digits and
      the original extension hold no "/". */
  lemma GeneratedNameIsOneSegment(originalName: string, e: Entropy)
    requires '/' !in RandomPart(e) && '/' !in Extension(originalName)
    ensures '/' !in GenerateFileName(originalName, e)
  {
  }

  // ---------------------------------------------------------------------
  // Single-file uploads

  /** The record returned for a stored object: its URL, size and creation
      time, the given path and name, and its content type or "" when the
      metadata carries none. */
  function Uploaded(s: Stored, path: string, fileName: string): (r: FileUploadResult)
    ensures r.url == s.url && r.path == path && r.fileName == fileName
    ensures r.size == s.size && r.uploadedAt == s.timeCreated
    ensures r.contentType == (if s.contentType.Some? then s.contentType.value else "")
  {
    FileUploadResult(s.url, path, fileName, s.size, s.contentType.GetOr(""), s.timeCreated)
  }

  /** The texts an SDK error reaches the caller as: prefixed by the catch
      block, or as the resumable transfer's two rejections. */
  lemma SdkErrorMessages(context: string, cause: SdkError)
    ensures Message(Wrapped(context, SdkFailure(cause))) == context + ": " + ("FirebaseError: " + cause.message)
    ensures Message(UploadFailed(cause.message)) == "Upload failed: " + cause.message
    ensures Message(DownloadUrlFailed(cause)) == "Failed to get download URL: " + ("FirebaseError: " + cause.message)
  {
  }

  /** The upload step every upload shares, after the guards have passed:
      transfer the file to `path`, then report the stored object under
      `fileName`. With a progress callback the resumable transfer is used,
      its snapshots reach the callback, and its errors escape the operation's
      catch block (the promise is returned, not awaited); without one, an SDK
      error is caught and re-thrown with the operation's prefix. */
  function Store(sdk: Sdk, path: string, file: File, fileName: string, withProgress: bool, context: string): (r: Attempt)
    ensures r.progress == if withProgress then sdk.transfer(path, file).snapshots else []
    ensures r.outcome.Ok? <==> sdk.transfer(path, file).outcome.Ok?
    ensures r.outcome.Ok? ==> r.outcome.value == Uploaded(sdk.transfer(path, file).outcome.value, path, fileName)
    ensures r.outcome.Err? && !withProgress ==>
              Message(r.outcome.error) == context + ": " + ("FirebaseError: " + sdk.transfer(path, file).outcome.error.message)
    ensures r.outcome.Err? && withProgress ==> !r.outcome.error.Wrapped?
    ensures r.outcome.Err? && withProgress && sdk.transfer(path, file).outcome.error.stage == TransferStage ==>
              Message(r.outcome.error) == "Upload failed: " + sdk.transfer(path, file).outcome.error.message
    ensures r.outcome.Err? && withProgress && sdk.transfer(path, file).outcome.error.stage == LookupStage ==>
              Message(r.outcome.error) == "Failed to get download URL: " + ("FirebaseError: " + sdk.transfer(path, file).outcome.error.message)
  {
    var t := sdk.transfer(path, file);
    var progress := if withProgress then t.snapshots else [];
    match t.outcome
    case Ok(stored) => Attempt(progress, Ok(Uploaded(stored, path, fileName)))
    case Err(e) =>
      SdkErrorMessages(context, e);
      if !withProgress then Attempt(progress, Err(Wrapped(context, SdkFailure(e))))
      else if e.stage == TransferStage then Attempt(progress, Err(UploadFailed(e.message)))
      else Attempt(progress, Err(DownloadUrlFailed(e)))
  }

  /** `uploadPropertyPhoto`: images up to 10 MB, stored under
      `property-photos/{uid}/{propertyId}/{generated name}`. */
  function UploadPropertyPhoto(user: Option<User>, sdk: Sdk, propertyId: string, file: File, e: Entropy, withProgress: bool): (r: Attempt)
    ensures user.None? ==> r == Refused(UPLOAD_PROPERTY_PHOTO, NotAuthenticated)
    ensures user.Some? && file.mimeType !in IMAGE_TYPES ==> r == Refused(UPLOAD_PROPERTY_PHOTO, InvalidFileType(IMAGE_TYPES))
    ensures user.Some? && file.mimeType in IMAGE_TYPES && file.size > PHOTO_LIMIT_MB * MIB
            ==> r == Refused(UPLOAD_PROPERTY_PHOTO, FileTooLarge(PHOTO_LIMIT_MB))
    ensures user.Some? && Admissible(file, IMAGE_TYPES, PHOTO_LIMIT_MB) ==>
              var name := GenerateFileName(file.name, e);
              r == Store(sdk, PropertyPhotoPath(user.value.uid, propertyId, name), file, name, withProgress, UPLOAD_PROPERTY_PHOTO)
    ensures r.outcome.Ok? ==>
              user.Some? && Admissible(file, IMAGE_TYPES, PHOTO_LIMIT_MB) &&
              r.outcome.value.fileName == GenerateFileName(file.name, e) &&
              r.outcome.value.path == PropertyPhotoPath(user.value.uid, propertyId, r.outcome.value.fileName)
  {
    match CurrentUserId(user)
    case Err(err) => Refused(UPLOAD_PROPERTY_PHOTO, err)
    case Ok(uid) =>
      match Admit(file, IMAGE_TYPES, PHOTO_LIMIT_MB)
      case Fail(err) => Refused(UPLOAD_PROPERTY_PHOTO, err)
      case Pass =>
        var name := GenerateFileName(file.name, e);
        Store(sdk, PropertyPhotoPath(uid, propertyId, name), file, name, withProgress, UPLOAD_PROPERTY_PHOTO)
  }

  /** `uploadRepairPhoto`: images up to 10 MB, stored under
      `repair-photos/{uid}/{propertyId}/{repairEstimateId}/{generated name}`. */
  function UploadRepairPhoto(user: Option<User>, sdk: Sdk, propertyId: string, repairEstimateId: string,
                             file: File, e: Entropy, withProgress: bool): (r: Attempt)
    ensures user.None? ==> r == Refused(UPLOAD_REPAIR_PHOTO, NotAuthenticated)
    ensures user.Some? && file.mimeType !in IMAGE_TYPES ==> r == Refused(UPLOAD_REPAIR_PHOTO, InvalidFileType(IMAGE_TYPES))
    ensures user.Some? && file.mimeType in IMAGE_TYPES && file.size > PHOTO_LIMIT_MB * MIB
            ==> r == Refused(UPLOAD_REPAIR_PHOTO, FileTooLarge(PHOTO_LIMIT_MB))
    ensures user.Some? && Admissible(file, IMAGE_TYPES, PHOTO_LIMIT_MB) ==>
              var name := GenerateFileName(file.name, e);
              r == Store(sdk, RepairPhotoPath(user.value.uid, propertyId, repairEstimateId, name), file, name, withProgress, UPLOAD_REPAIR_PHOTO)
    ensures r.outcome.Ok? ==>
              user.Some? && Admissible(file, IMAGE_TYPES, PHOTO_LIMIT_MB) &&
              r.outcome.value.fileName == GenerateFileName(file.name, e) &&
              r.outcome.value.path == RepairPhotoPath(user.value.uid, propertyId, repairEstimateId, r.outcome.value.fileName)
  {
    match CurrentUserId(user)
    case Err(err) => Refused(UPLOAD_REPAIR_PHOTO, err)
    case Ok(uid) =>
      match Admit(file, IMAGE_TYPES, PHOTO_LIMIT_MB)
      case Fail(err) => Refused(UPLOAD_REPAIR_PHOTO, err)
      case Pass =>
        var name := GenerateFileName(file.name, e);
        Store(sdk, RepairPhotoPath(uid, propertyId, repairEstimateId, name), file, name, withProgress, UPLOAD_REPAIR_PHOTO)
  }

  /** `uploadUserAvatar`: images up to 5 MB, stored under
      `user-avatars/{uid}/avatar_{timestamp}.{extension}`. */
  function UploadUserAvatar(user: Option<User>, sdk: Sdk, file: File, now: nat, withProgress: bool): (r: Attempt)
    ensures user.None? ==> r == Refused(UPLOAD_USER_AVATAR, NotAuthenticated)
    ensures user.Some? && file.mimeType !in IMAGE_TYPES ==> r == Refused(UPLOAD_USER_AVATAR, InvalidFileType(IMAGE_TYPES))
    ensures user.Some? && file.mimeType in IMAGE_TYPES && file.size > AVATAR_LIMIT_MB * MIB
            ==> r == Refused(UPLOAD_USER_AVATAR, FileTooLarge(AVATAR_LIMIT_MB))
    ensures user.Some? && Admissible(file, IMAGE_TYPES, AVATAR_LIMIT_MB) ==>
              var name := AvatarFileName(file.name, now);
              r == Store(sdk, AvatarPath(user.value.uid, name), file, name, withProgress, UPLOAD_USER_AVATAR)
    ensures r.outcome.Ok? ==>
              user.Some? && Admissible(file, IMAGE_TYPES, AVATAR_LIMIT_MB) &&
              r.outcome.value.fileName == AvatarFileName(file.name, now) &&
              r.outcome.value.path == AvatarPath(user.value.uid, r.outcome.value.fileName)
  {
    match CurrentUserId(user)
    case Err(err) => Refused(UPLOAD_USER_AVATAR, err)
    case Ok(uid) =>
      match Admit(file, IMAGE_TYPES, AVATAR_LIMIT_MB)
      case Fail(err) => Refused(UPLOAD_USER_AVATAR, err)
      case Pass =>
        var name := AvatarFileName(file.name, now);
        Store(sdk, AvatarPath(uid, name), file, name, withProgress, UPLOAD_USER_AVATAR)
  }

  /** `uploadClientDocument`: documents or images up to 10 MB, stored under
      `users/{uid}/client-documents/{clientType}s/{clientId}/{generated name}`,
      and reported under the file's original name. */
  function UploadClientDocument(user: Option<User>, sdk: Sdk, clientId: string, clientType: ClientType,
                                file: File, e: Entropy, withProgress: bool): (r: Attempt)
    ensures user.None? ==> r == Refused(UPLOAD_CLIENT_DOCUMENT, NotAuthenticated)
    ensures user.Some? && file.mimeType !in DOCUMENT_TYPES ==> r == Refused(UPLOAD_CLIENT_DOCUMENT, InvalidFileType(DOCUMENT_TYPES))
    ensures user.Some? && file.mimeType in DOCUMENT_TYPES && file.size > DOCUMENT_LIMIT_MB * MIB
            ==> r == Refused(UPLOAD_CLIENT_DOCUMENT, FileTooLarge(DOCUMENT_LIMIT_MB))
    ensures user.Some? && Admissible(file, DOCUMENT_TYPES, DOCUMENT_LIMIT_MB) ==>
              var path := ClientDocumentPath(user.value.uid, clientId, clientType, GenerateFileName(file.name, e));
              r == Store(sdk, path, file, file.name, withProgress, UPLOAD_CLIENT_DOCUMENT)
    ensures r.outcome.Ok? ==>
              user.Some? && Admissible(file, DOCUMENT_TYPES, DOCUMENT_LIMIT_MB) &&
              r.outcome.value.fileName == file.name &&
              r.outcome.value.path == ClientDocumentPath(user.value.uid, clientId, clientType, GenerateFileName(file.name, e))
  {
    match CurrentUserId(user)
    case Err(err) => Refused(UPLOAD_CLIENT_DOCUMENT, err)
    case Ok(uid) =>
      match Admit(file, DOCUMENT_TYPES, DOCUMENT_LIMIT_MB)
      case Fail(err) => Refused(UPLOAD_CLIENT_DOCUMENT, err)
      case Pass =>
        var path := ClientDocumentPath(uid, clientId, clientType, GenerateFileName(file.name, e));
        Store(sdk, path, file, file.name, withProgress, UPLOAD_CLIENT_DOCUMENT)
  }

  /** The text the type guard throws for the image allow-list. */
  lemma ImageTypesMessage()
    ensures Message(InvalidFileType(IMAGE_TYPES)) == "Invalid file type. Allowed types: " + "image/jpeg, image/png, image/webp"
  {
    var rest := IMAGE_TYPES[1..];
    assert rest[1..] == ["image/webp"];
    assert Join(rest, ", ") == "image/png, image/webp";
  }

  /** The texts the size guard throws for the service's two limits. */
  lemma SizeLimitMessages()
    ensures Message(FileTooLarge(PHOTO_LIMIT_MB)) == "File size exceeds 10MB limit"
    ensures Message(FileTooLarge(AVATAR_LIMIT_MB)) == "File size exceeds 5MB limit"
  {
    assert Decimal(10) == Decimal(1) + ['0'];
  }

  /** A stored property photo lies in the folder `getPropertyPhotos` lists,
      as the last of four path segments when no id holds a "/". */
  lemma PropertyPhotoLocation(user: Option<User>, sdk: Sdk, propertyId: string, file: File, e: Entropy, withProgress: bool)
    requires UploadPropertyPhoto(user, sdk, propertyId, file, e, withProgress).outcome.Ok?
    requires user.Some? && '/' !in user.value.uid && '/' !in propertyId
    requires '/' !in RandomPart(e) && '/' !in Extension(file.name)
    ensures var stored := UploadPropertyPhoto(user, sdk, propertyId, file, e, withProgress).outcome.value;
            stored.path == PropertyPhotoFolder(user.value.uid, propertyId) + "/" + stored.fileName &&
            Split(stored.path, '/') == [PROPERTY_PHOTOS, user.value.uid, propertyId, stored.fileName]
  {
    GeneratedNameIsOneSegment(file.name, e);
  }

  /** Two property photos whose names were generated at different
      milliseconds never share a path. */
  lemma PropertyPhotoPathsDistinct(uid: string, propertyId: string, n1: string, e1: Entropy, n2: string, e2: Entropy)
    requires e1.now != e2.now
    ensures PropertyPhotoPath(uid, propertyId, GenerateFileName(n1, e1)) != PropertyPhotoPath(uid, propertyId, GenerateFileName(n2, e2))
  {
    var name1, name2 := GenerateFileName(n1, e1), GenerateFileName(n2, e2);
    var f := PropertyPhotoFolder(uid, propertyId) + "/";
    if PropertyPhotoPath(uid, propertyId, name1) == PropertyPhotoPath(uid, propertyId, name2) {
      assert name1 == (f + name1)[|f|..] && name2 == (f + name2)[|f|..];
      GeneratedNameTimestamp(n1, e1, n2, e2);
    }
  }
}
