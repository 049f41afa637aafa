/** The loops of the storage service: the two batch uploads, which upload
    files one after another, tag each file's progress with its index, collect
    the results in order and give up at the first failure; and the listing of
    a property's photos, which collects one record per listed object and
    sorts them in place by creation time. */
module StorageBatch {
  import opened Wrappers
  import opened Storage

  /** A progress report passed to a batch's `onProgress(fileIndex, progress)`. */
  datatype ProgressEvent = ProgressEvent(fileIndex: nat, snapshot: Snapshot)

  /** A batch upload: every progress report delivered, then the results or the error thrown. */
  datatype BatchOutcome = BatchOutcome(events: seq<ProgressEvent>, outcome: Result<seq<FileUploadResult>, Error>)

  /** The per-file callback `progress => onProgress(i, progress)`. */
  function Tagged(i: nat, snapshots: seq<Snapshot>): (r: seq<ProgressEvent>)
    ensures |r| == |snapshots|
    ensures forall k :: 0 <= k < |r| ==> r[k].fileIndex == i && r[k].snapshot == snapshots[k]
  {
    seq(|snapshots|, k requires 0 <= k < |snapshots| => ProgressEvent(i, snapshots[k]))
  }

  // ---------------------------------------------------------------------
  // The meaning of a batch loop

  /** What a batch loop does with the single-file uploads `attempts`, in
      order: the first failure ends the batch and is re-thrown with the
      batch's prefix `context`; otherwise each result is appended. Stated
      over the prefix the loop has finished. */
  function Batch(attempts: seq<Attempt>, context: string): (r: BatchOutcome)
    ensures r.outcome.Ok? ==> |r.outcome.value| == |attempts|
    ensures r.outcome.Err? ==> r.outcome.error.Wrapped? && r.outcome.error.context == context
    decreases |attempts|
  {
    if |attempts| == 0 then BatchOutcome([], Ok([]))
    else
      var before := Batch(attempts[..|attempts| - 1], context);
      if before.outcome.Err? then before
      else
        var i := |attempts| - 1;
        var events := before.events + Tagged(i, attempts[i].progress);
        match attempts[i].outcome
        case Ok(v) => BatchOutcome(events, Ok(before.outcome.value + [v]))
        case Err(e) => BatchOutcome(events, Err(Wrapped(context, e)))
  }

  /** A batch succeeds exactly when every upload does, and then returns one
      result per file, in the order of the files. */
  lemma {:induction false} BatchSucceeds(attempts: seq<Attempt>, context: string)
    ensures Batch(attempts, context).outcome.Ok? <==> forall i :: 0 <= i < |attempts| ==> attempts[i].outcome.Ok?
    ensures Batch(attempts, context).outcome.Ok? ==>
              var results := Batch(attempts, context).outcome.value;
              |results| == |attempts| &&
              forall i :: 0 <= i < |attempts| ==> attempts[i].outcome == Ok(results[i])
    decreases |attempts|
  {
    if |attempts| > 0 {
      var n := |attempts| - 1;
      var prefix := attempts[..n];
      BatchSucceeds(prefix, context);
      assert forall i :: 0 <= i < n ==> prefix[i] == attempts[i];
    }
  }

  /** One turn of the batch loop: file `i` is uploaded after the files before it succeeded. */
  lemma BatchStep(attempts: seq<Attempt>, context: string, i: nat)
    requires i < |attempts|
    requires Batch(attempts[..i], context).outcome.Ok?
    ensures Batch(attempts[..i + 1], context).events == Batch(attempts[..i], context).events + Tagged(i, attempts[i].progress)
    ensures attempts[i].outcome.Ok? ==>
              Batch(attempts[..i + 1], context).outcome == Ok(Batch(attempts[..i], context).outcome.value + [attempts[i].outcome.value])
    ensures attempts[i].outcome.Err? ==>
              Batch(attempts[..i + 1], context).outcome == Err(Wrapped(context, attempts[i].outcome.error))
  {
    assert attempts[..i + 1][..i] == attempts[..i];
  }

  /** Once the batch has failed on a prefix, the files after it change nothing. */
  lemma {:induction false} BatchFailureIsFinal(attempts: seq<Attempt>, context: string, n: nat)
    requires n <= |attempts|
    requires Batch(attempts[..n], context).outcome.Err?
    ensures Batch(attempts, context) == Batch(attempts[..n], context)
    decreases |attempts| - n
  {
    if n == |attempts| {
      assert attempts[..n] == attempts;
    } else {
      var m := |attempts| - 1;
      assert attempts[..m][..n] == attempts[..n];
      BatchFailureIsFinal(attempts[..m], context, n);
    }
  }

  /** Every report is tagged with the index of a file whose upload produced it. */
  predicate TaggedByFile(events: seq<ProgressEvent>, attempts: seq<Attempt>)
  {
    forall j :: 0 <= j < |events| ==>
      events[j].fileIndex < |attempts| && events[j].snapshot in attempts[events[j].fileIndex].progress
  }

  /** The reports of one file come before those of any later file. */
  predicate InFileOrder(events: seq<ProgressEvent>)
  {
    forall j1, j2 :: 0 <= j1 <= j2 < |events| ==> events[j1].fileIndex <= events[j2].fileIndex
  }

  /** Every progress report is tagged with the index of the file whose
      upload produced it, and the reports of one file precede the next's. */
  lemma {:induction false} BatchEventsTagged(attempts: seq<Attempt>, context: string)
    ensures TaggedByFile(Batch(attempts, context).events, attempts)
    ensures InFileOrder(Batch(attempts, context).events)
    decreases |attempts|
  {
    if |attempts| > 0 {
      var n := |attempts| - 1;
      var prefix := attempts[..n];
      BatchEventsTagged(prefix, context);
      var before := Batch(prefix, context);
      var earlier := before.events;
      assert forall k :: 0 <= k < n ==> prefix[k] == attempts[k];
      if before.outcome.Ok? {
        var tail := Tagged(n, attempts[n].progress);
        var events := earlier + tail;
        assert Batch(attempts, context).events == events;
        forall j | 0 <= j < |events|
          ensures events[j].fileIndex < |attempts|
          ensures events[j].snapshot in attempts[events[j].fileIndex].progress
        {
          if j < |earlier| {
            assert events[j] == earlier[j];
          } else {
            assert events[j] == tail[j - |earlier|];
          }
        }
        forall j1, j2 | 0 <= j1 <= j2 < |events|
          ensures events[j1].fileIndex <= events[j2].fileIndex
        {
          if j2 < |earlier| {
            assert events[j1] == earlier[j1] && events[j2] == earlier[j2];
          } else if j1 < |earlier| {
            assert events[j1] == earlier[j1];
            assert events[j2] == tail[j2 - |earlier|];
          } else {
            assert events[j1] == tail[j1 - |earlier|];
            assert events[j2] == tail[j2 - |earlier|];
          }
        }
      }
    }
  }

  /** The first failing upload, at index `k`, ends the batch: its error is
      re-thrown with the batch's prefix and no file after it reports progress. */
  lemma BatchStopsAtFirstFailure(attempts: seq<Attempt>, context: string, k: nat)
    requires k < |attempts|
    requires forall i :: 0 <= i < k ==> attempts[i].outcome.Ok?
    requires attempts[k].outcome.Err?
    ensures Batch(attempts, context).outcome == Err(Wrapped(context, attempts[k].outcome.error))
    ensures forall j :: 0 <= j < |Batch(attempts, context).events| ==> Batch(attempts, context).events[j].fileIndex <= k
  {
    var upTo := attempts[..k + 1];
    assert upTo[..k] == attempts[..k];
    BatchSucceeds(attempts[..k], context);
    BatchFailureIsFinal(attempts, context, k + 1);
    BatchEventsTagged(upTo, context);
  }

  // ---------------------------------------------------------------------
  // The two batch uploads

  /** The single-file uploads `uploadPropertyPhotos` performs, the clock and
      random source read by the i-th of them being `clock(i)`. */
  function PropertyPhotoAttempts(user: Option<User>, sdk: Sdk, propertyId: string, files: seq<File>,
                                 clock: nat -> Entropy, withProgress: bool): seq<Attempt>
  {
    seq(|files|, i requires 0 <= i < |files| => UploadPropertyPhoto(user, sdk, propertyId, files[i], clock(i), withProgress))
  }

  function ClientDocumentAttempts(user: Option<User>, sdk: Sdk, clientId: string, clientType: ClientType,
                                  files: seq<File>, clock: nat -> Entropy, withProgress: bool): seq<Attempt>
  {
    seq(|files|, i requires 0 <= i < |files| => UploadClientDocument(user, sdk, clientId, clientType, files[i], clock(i), withProgress))
  }

  /** A successful property-photo batch returns, for each file, that file's upload. */
  lemma PropertyPhotoResults(user: Option<User>, sdk: Sdk, propertyId: string, files: seq<File>,
                             clock: nat -> Entropy, withProgress: bool)
    ensures var r := Batch(PropertyPhotoAttempts(user, sdk, propertyId, files, clock, withProgress), UPLOAD_PROPERTY_PHOTOS);
            r.outcome.Ok? ==>
              |r.outcome.value| == |files| &&
              forall i :: 0 <= i < |files| ==>
                UploadPropertyPhoto(user, sdk, propertyId, files[i], clock(i), withProgress).outcome == Ok(r.outcome.value[i])
  {
    var attempts := PropertyPhotoAttempts(user, sdk, propertyId, files, clock, withProgress);
    BatchSucceeds(attempts, UPLOAD_PROPERTY_PHOTOS);
  }

  /** A successful client-document batch returns, for each file, that file's upload. */
  lemma ClientDocumentResults(user: Option<User>, sdk: Sdk, clientId: string, clientType: ClientType,
                              files: seq<File>, clock: nat -> Entropy, withProgress: bool)
    ensures var r := Batch(ClientDocumentAttempts(user, sdk, clientId, clientType, files, clock, withProgress), UPLOAD_CLIENT_DOCUMENTS);
            r.outcome.Ok? ==>
              |r.outcome.value| == |files| &&
              forall i :: 0 <= i < |files| ==>
                UploadClientDocument(user, sdk, clientId, clientType, files[i], clock(i), withProgress).outcome == Ok(r.outcome.value[i])
  {
    var attempts := ClientDocumentAttempts(user, sdk, clientId, clientType, files, clock, withProgress);
    BatchSucceeds(attempts, UPLOAD_CLIENT_DOCUMENTS);
  }

  /** `uploadPropertyPhotos`: upload the files one after another. */
  method UploadPropertyPhotos(user: Option<User>, sdk: Sdk, propertyId: string, files: seq<File>,
                              clock: nat -> Entropy, withProgress: bool) returns (r: BatchOutcome)
    ensures r == Batch(PropertyPhotoAttempts(user, sdk, propertyId, files, clock, withProgress), UPLOAD_PROPERTY_PHOTOS)
    ensures r.outcome.Ok? ==>
              |r.outcome.value| == |files| &&
              forall i :: 0 <= i < |files| ==>
                UploadPropertyPhoto(user, sdk, propertyId, files[i], clock(i), withProgress).outcome == Ok(r.outcome.value[i])
  {
    ghost var attempts := PropertyPhotoAttempts(user, sdk, propertyId, files, clock, withProgress);
    var events: seq<ProgressEvent> := [];
    var results: seq<FileUploadResult> := [];
    var i := 0;
    while i < |files|
      invariant 0 <= i <= |files|
      invariant Batch(attempts[..i], UPLOAD_PROPERTY_PHOTOS) == BatchOutcome(events, Ok(results))
    {
      var attempt := UploadPropertyPhoto(user, sdk, propertyId, files[i], clock(i), withProgress);
      assert attempts[i] == attempt;
      BatchStep(attempts, UPLOAD_PROPERTY_PHOTOS, i);
      events := events + Tagged(i, attempt.progress);
      if attempt.outcome.Err? {
        r := BatchOutcome(events, Err(Wrapped(UPLOAD_PROPERTY_PHOTOS, attempt.outcome.error)));
        BatchFailureIsFinal(attempts, UPLOAD_PROPERTY_PHOTOS, i + 1);
        return;
      }
      results := results + [attempt.outcome.value];
      i := i + 1;
    }
    assert attempts[..i] == attempts;
    r := BatchOutcome(events, Ok(results));
    PropertyPhotoResults(user, sdk, propertyId, files, clock, withProgress);
  }

  /** `uploadClientDocuments`: upload the documents one after another. */
  method UploadClientDocuments(user: Option<User>, sdk: Sdk, clientId: string, clientType: ClientType,
                               files: seq<File>, clock: nat -> Entropy, withProgress: bool) returns (r: BatchOutcome)
    ensures r == Batch(ClientDocumentAttempts(user, sdk, clientId, clientType, files, clock, withProgress), UPLOAD_CLIENT_DOCUMENTS)
    ensures r.outcome.Ok? ==>
              |r.outcome.value| == |files| &&
              forall i :: 0 <= i < |files| ==>
                UploadClientDocument(user, sdk, clientId, clientType, files[i], clock(i), withProgress).outcome == Ok(r.outcome.value[i])
  {
    ghost var attempts := ClientDocumentAttempts(user, sdk, clientId, clientType, files, clock, withProgress);
    var events: seq<ProgressEvent> := [];
    var results: seq<FileUploadResult> := [];
    var i := 0;
    while i < |files|
      invariant 0 <= i <= |files|
      invariant Batch(attempts[..i], UPLOAD_CLIENT_DOCUMENTS) == BatchOutcome(events, Ok(results))
    {
      var attempt := UploadClientDocument(user, sdk, clientId, clientType, files[i], clock(i), withProgress);
      assert attempts[i] == attempt;
      BatchStep(attempts, UPLOAD_CLIENT_DOCUMENTS, i);
      events := events + Tagged(i, attempt.progress);
      if attempt.outcome.Err? {
        r := BatchOutcome(events, Err(Wrapped(UPLOAD_CLIENT_DOCUMENTS, attempt.outcome.error)));
        BatchFailureIsFinal(attempts, UPLOAD_CLIENT_DOCUMENTS, i + 1);
        return;
      }
      results := results + [attempt.outcome.value];
      i := i + 1;
    }
    assert attempts[..i] == attempts;
    r := BatchOutcome(events, Ok(results));
    ClientDocumentResults(user, sdk, clientId, clientType, files, clock, withProgress);
  }

  /** With no signed-in user a batch of one or more files fails on the first
      file, reports no progress, and never reaches the bucket. */
  lemma BatchWithoutUser(sdk: Sdk, propertyId: string, files: seq<File>, clock: nat -> Entropy, withProgress: bool)
    requires |files| > 0
    ensures var r := Batch(PropertyPhotoAttempts(None, sdk, propertyId, files, clock, withProgress), UPLOAD_PROPERTY_PHOTOS);
            r.events == [] &&
            r.outcome == Err(Wrapped(UPLOAD_PROPERTY_PHOTOS, Wrapped(UPLOAD_PROPERTY_PHOTO, NotAuthenticated)))
  {
    var attempts := PropertyPhotoAttempts(None, sdk, propertyId, files, clock, withProgress);
    var first := attempts[..1];
    assert first[..0] == [] && first[0] == attempts[0];
    assert attempts[0] == UploadPropertyPhoto(None, sdk, propertyId, files[0], clock(0), withProgress);
    assert attempts[0] == Refused(UPLOAD_PROPERTY_PHOTO, NotAuthenticated);
    assert Batch(first, UPLOAD_PROPERTY_PHOTOS)
        == BatchOutcome([], Err(Wrapped(UPLOAD_PROPERTY_PHOTOS, Wrapped(UPLOAD_PROPERTY_PHOTO, NotAuthenticated))));
    BatchFailureIsFinal(attempts, UPLOAD_PROPERTY_PHOTOS, 1);
  }

  /** The same for a batch of client documents. */
  lemma ClientDocumentBatchWithoutUser(sdk: Sdk, clientId: string, clientType: ClientType, files: seq<File>,
                                       clock: nat -> Entropy, withProgress: bool)
    requires |files| > 0
    ensures var r := Batch(ClientDocumentAttempts(None, sdk, clientId, clientType, files, clock, withProgress), UPLOAD_CLIENT_DOCUMENTS);
            r.events == [] &&
            r.outcome == Err(Wrapped(UPLOAD_CLIENT_DOCUMENTS, Wrapped(UPLOAD_CLIENT_DOCUMENT, NotAuthenticated)))
  {
    var attempts := ClientDocumentAttempts(None, sdk, clientId, clientType, files, clock, withProgress);
    var first := attempts[..1];
    assert first[..0] == [] && first[0] == attempts[0];
    assert attempts[0] == UploadClientDocument(None, sdk, clientId, clientType, files[0], clock(0), withProgress);
    assert attempts[0] == Refused(UPLOAD_CLIENT_DOCUMENT, NotAuthenticated);
    assert Batch(first, UPLOAD_CLIENT_DOCUMENTS)
        == BatchOutcome([], Err(Wrapped(UPLOAD_CLIENT_DOCUMENTS, Wrapped(UPLOAD_CLIENT_DOCUMENT, NotAuthenticated))));
    BatchFailureIsFinal(attempts, UPLOAD_CLIENT_DOCUMENTS, 1);
  }

  // ---------------------------------------------------------------------
  // Listing a property's photos

  /** The records of the listed objects, in listing order, or the first
      lookup error; stated over the prefix the loop has finished. Each record
      is the one uploads return, under the item's full path and name. */
  function DescribeAll(sdk: Sdk, items: seq<ItemRef>): (r: Result<seq<FileUploadResult>, SdkError>)
    ensures r.Ok? ==> |r.value| == |items|
    ensures r.Err? ==> exists k :: 0 <= k < |items| && sdk.describe(items[k]) == Err(r.error)
    decreases |items|
  {
    if |items| == 0 then Ok([])
    else
      var last := items[|items| - 1];
      match DescribeAll(sdk, items[..|items| - 1])
      case Err(e) => Err(e)
      case Ok(photos) =>
        match sdk.describe(last)
        case Err(e) => Err(e)
        case Ok(s) => Ok(photos + [Uploaded(s, last.fullPath, last.name)])
  }

  /** The lookups succeed exactly when each item's does, and then give one
      record per item, in order, carrying its path and name. */
  lemma {:induction false} DescribeAllSucceeds(sdk: Sdk, items: seq<ItemRef>)
    ensures DescribeAll(sdk, items).Ok? <==> forall i :: 0 <= i < |items| ==> sdk.describe(items[i]).Ok?
    ensures DescribeAll(sdk, items).Ok? ==>
              var photos := DescribeAll(sdk, items).value;
              |photos| == |items| &&
              forall i :: 0 <= i < |items| ==>
                sdk.describe(items[i]).Ok? && photos[i] == Uploaded(sdk.describe(items[i]).value, items[i].fullPath, items[i].name)
    decreases |items|
  {
    if |items| > 0 {
      var n := |items| - 1;
      var prefix := items[..n];
      DescribeAllSucceeds(sdk, prefix);
      assert forall i :: 0 <= i < n ==> prefix[i] == items[i];
    }
  }

  /** A failed listing throws the error of the first lookup that failed. */
  lemma {:induction false} DescribeAllFirstFailure(sdk: Sdk, items: seq<ItemRef>)
    requires DescribeAll(sdk, items).Err?
    ensures exists k :: 0 <= k < |items| && sdk.describe(items[k]) == Err(DescribeAll(sdk, items).error) &&
              forall j :: 0 <= j < k ==> sdk.describe(items[j]).Ok?
    decreases |items|
  {
    var n := |items| - 1;
    var prefix := items[..n];
    assert forall j :: 0 <= j < n ==> prefix[j] == items[j];
    if DescribeAll(sdk, prefix).Err? {
      DescribeAllFirstFailure(sdk, prefix);
      var k :| 0 <= k < n && sdk.describe(prefix[k]) == Err(DescribeAll(sdk, prefix).error) &&
                forall j :: 0 <= j < k ==> sdk.describe(prefix[j]).Ok?;
      assert sdk.describe(items[k]) == Err(DescribeAll(sdk, items).error);
    } else {
      DescribeAllSucceeds(sdk, prefix);
      assert sdk.describe(items[n]) == Err(DescribeAll(sdk, items).error);
    }
  }

  lemma {:induction false} DescribeAllFailureIsFinal(sdk: Sdk, items: seq<ItemRef>, n: nat)
    requires n <= |items|
    requires DescribeAll(sdk, items[..n]).Err?
    ensures DescribeAll(sdk, items) == DescribeAll(sdk, items[..n])
    decreases |items| - n
  {
    if n == |items| {
      assert items[..n] == items;
    } else {
      var m := |items| - 1;
      assert items[..m][..n] == items[..n];
      DescribeAllFailureIsFinal(sdk, items[..m], n);
    }
  }

  /** The photos `getPropertyPhotos` collects before it sorts them, or the
      error it throws: no user, a failed listing of
      `property-photos/{uid}/{propertyId}`, or a failed lookup. */
  function ListedPhotos(user: Option<User>, sdk: Sdk, propertyId: string): (r: Result<seq<FileUploadResult>, Error>)
    ensures user.None? ==> r == Err(Wrapped(GET_PROPERTY_PHOTOS, NotAuthenticated))
    ensures r.Ok? ==>
              user.Some? &&
              var listing := sdk.list(PropertyPhotoFolder(user.value.uid, propertyId));
              listing.Ok? && |r.value| == |listing.value| &&
              forall i :: 0 <= i < |r.value| ==>
                sdk.describe(listing.value[i]).Ok? &&
                r.value[i] == Uploaded(sdk.describe(listing.value[i]).value, listing.value[i].fullPath, listing.value[i].name)
    ensures user.Some? ==>
              var listing := sdk.list(PropertyPhotoFolder(user.value.uid, propertyId));
              (listing.Err? ==> r == Err(Wrapped(GET_PROPERTY_PHOTOS, SdkFailure(listing.error)))) &&
              (listing.Ok? && (forall i :: 0 <= i < |listing.value| ==> sdk.describe(listing.value[i]).Ok?) ==> r.Ok?) &&
              (listing.Ok? && r.Err? ==>
                exists k :: 0 <= k < |listing.value| && sdk.describe(listing.value[k]).Err? &&
                  (forall j :: 0 <= j < k ==> sdk.describe(listing.value[j]).Ok?) &&
                  r == Err(Wrapped(GET_PROPERTY_PHOTOS, SdkFailure(sdk.describe(listing.value[k]).error))))
  {
    match CurrentUserId(user)
    case Err(e) => Err(Wrapped(GET_PROPERTY_PHOTOS, e))
    case Ok(uid) =>
      match sdk.list(PropertyPhotoFolder(uid, propertyId))
      case Err(e) => Err(Wrapped(GET_PROPERTY_PHOTOS, SdkFailure(e)))
      case Ok(items) =>
        DescribeAllSucceeds(sdk, items);
        if DescribeAll(sdk, items).Err? then
          DescribeAllFirstFailure(sdk, items);
          Err(Wrapped(GET_PROPERTY_PHOTOS, SdkFailure(DescribeAll(sdk, items).error)))
        else
          Ok(DescribeAll(sdk, items).value)
  }

  predicate SortedByUploadedAt(s: seq<FileUploadResult>)
  {
    forall i, j :: 0 <= i < j < |s| ==> s[i].uploadedAt <= s[j].uploadedAt
  }

  /** Exchanges the records at `j - 1` and `j`. */
  method SwapDown(a: array<FileUploadResult>, j: nat)
    requires 0 < j < a.Length
    modifies a
    ensures a[..] == old(a[..])[j - 1 := old(a[j])][j := old(a[j - 1])]
    ensures multiset(a[..]) == multiset(old(a[..]))
  {
    a[j - 1], a[j] := a[j], a[j - 1];
  }

  /** Moves `a[i]` down into the sorted prefix `a[..i]`, leaving `a[..i + 1]` sorted. */
  method InsertIntoPrefix(a: array<FileUploadResult>, i: nat)
    requires i < a.Length
    requires SortedByUploadedAt(a[..i])
    modifies a
    ensures SortedByUploadedAt(a[..i + 1])
    ensures forall k :: i < k < a.Length ==> a[k] == old(a[k])
    ensures multiset(a[..]) == multiset(old(a[..]))
  {
    var j := i;
    while j > 0 && a[j - 1].uploadedAt > a[j].uploadedAt
      invariant 0 <= j <= i
      invariant forall k :: i < k < a.Length ==> a[k] == old(a[k])
      invariant forall p, q :: 0 <= p < q <= i && p != j && q != j ==> a[p].uploadedAt <= a[q].uploadedAt
      invariant forall q :: j < q <= i ==> a[j].uploadedAt < a[q].uploadedAt
      invariant multiset(a[..]) == multiset(old(a[..]))
    {
      SwapDown(a, j);
      j := j - 1;
    }
  }

  /** `photos.sort((a, b) => a.uploadedAt - b.uploadedAt)`: sorts the array
      in place into non-decreasing creation time (by insertion). */
  method SortByUploadedAt(a: array<FileUploadResult>)
    modifies a
    ensures SortedByUploadedAt(a[..])
    ensures multiset(a[..]) == multiset(old(a[..]))
  {
    var i := 0;
    while i < a.Length
      invariant 0 <= i <= a.Length
      invariant SortedByUploadedAt(a[..i])
      invariant multiset(a[..]) == multiset(old(a[..]))
    {
      InsertIntoPrefix(a, i);
      i := i + 1;
    }
    assert a[..i] == a[..];
  }

  /** `getPropertyPhotos`: the property's photos, oldest first. */
  method GetPropertyPhotos(user: Option<User>, sdk: Sdk, propertyId: string) returns (r: Result<seq<FileUploadResult>, Error>)
    ensures r.Err? <==> ListedPhotos(user, sdk, propertyId).Err?
    ensures r.Err? ==> r == ListedPhotos(user, sdk, propertyId)
    ensures r.Ok? ==>
              SortedByUploadedAt(r.value) &&
              multiset(r.value) == multiset(ListedPhotos(user, sdk, propertyId).value)
  {
    var userId := CurrentUserId(user);
    if userId.Err? {
      return Err(Wrapped(GET_PROPERTY_PHOTOS, userId.error));
    }
    var listing := sdk.list(PropertyPhotoFolder(userId.value, propertyId));
    if listing.Err? {
      return Err(Wrapped(GET_PROPERTY_PHOTOS, SdkFailure(listing.error)));
    }
    var items := listing.value;
    var photos: seq<FileUploadResult> := [];
    var i := 0;
    while i < |items|
      invariant 0 <= i <= |items|
      invariant DescribeAll(sdk, items[..i]) == Ok(photos)
    {
      var described := sdk.describe(items[i]);
      assert items[..i + 1][..i] == items[..i] && items[..i + 1][i] == items[i];
      if described.Err? {
        DescribeAllFailureIsFinal(sdk, items, i + 1);
        return Err(Wrapped(GET_PROPERTY_PHOTOS, SdkFailure(described.error)));
      }
      photos := photos + [Uploaded(described.value, items[i].fullPath, items[i].name)];
      i := i + 1;
    }
    assert items[..i] == items;
    var sorted := new FileUploadResult[|photos|](k requires 0 <= k < |photos| => photos[k]);
    assert sorted[..] == photos;
    SortByUploadedAt(sorted);
    r := Ok(sorted[..]);
  }
}
