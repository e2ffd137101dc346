/**
 * The data-lake upload: connect to the bucket (creating it when it is
 * missing), write the folder markers, upload the configured files with their
 * metadata and verify each by reading its metadata back, and write a manifest
 * that mirrors the per-file results.
 *
 * The object store is a class whose contents and request log the methods
 * update; which keys the service refuses to write or to describe are fixed
 * inputs of the store. The local files are a map from path to size; the
 * clock readings are inputs.
 */
module S3Upload {
  import opened Common

  const DefaultBucket := "healthcare-analytics-datalake"
  const DefaultRegion := "us-east-1"

  /** `os.getenv(name, default)`: a set variable wins, even when empty. */
  function Getenv(value: Option<string>, default: string): string {
    value.GetOr(default)
  }

  const BronzeLayer := "bronze/raw/cms-data"
  const SilverLayer := "silver/processed"
  const GoldLayer := "gold/curated"

  /** One entry of the upload configuration. */
  datatype FileConfig = FileConfig(
    localPath: string, s3Key: string, description: string, expectedRows: nat, expectedSizeMb: nat)

  const FilesToUpload: seq<FileConfig> := [
    FileConfig("data/ipps_charges.csv", BronzeLayer + "/ipps_charges/ipps_charges.csv",
               "Medicare Inpatient Hospitals - by Provider and Service", 146427, 40),
    FileConfig("data/hospital_general_info.csv", BronzeLayer + "/hospital_general_info/hospital_general_info.csv",
               "Hospital General Information master list", 5421, 1),
    FileConfig("data/readmissions.csv", BronzeLayer + "/readmissions/readmissions.csv",
               "Hospital Readmissions Reduction Program data", 18510, 2)]

  const Folders: seq<string> := [
    BronzeLayer + "/ipps_charges/",
    BronzeLayer + "/hospital_general_info/",
    BronzeLayer + "/readmissions/",
    SilverLayer + "/",
    GoldLayer + "/",
    "metadata/",
    "logs/"]

  // ---------------------------------------------------------------------------
  // Connecting to the bucket

  /** What `head_bucket` does: finds the bucket, raises a client error with a
      code, or raises anything else. */
  datatype HeadBucketOutcome = BucketFound | HeadBucketClientError(code: string) | HeadBucketOtherError

  /** What `create_bucket` does. */
  datatype CreateBucketOutcome = BucketCreated | CreateBucketClientError(code: string) | CreateBucketOtherError

  datatype CreateBucketRequest = CreateBucketRequest(bucket: string, locationConstraint: Option<string>)

  /** The create request made, if any, and whether the client is handed back
      (`false`: the error propagates and nothing is uploaded). */
  datatype InitResult = InitResult(createRequest: Option<CreateBucketRequest>, connected: bool)

  /** `initialize_s3_client`'s decisions. A missing bucket (404) is created,
      with a location constraint exactly outside us-east-1; a name already taken
      elsewhere is only logged, a bucket already owned is fine; 403 and every
      other error propagate. */
  function InitializeBucket(bucket: string, region: string, head: HeadBucketOutcome, create: CreateBucketOutcome): (r: InitResult)
    ensures r.createRequest.Some? <==> head == HeadBucketClientError("404")
    ensures r.createRequest.Some? ==> r.createRequest.value.bucket == bucket
    ensures r.createRequest.Some? ==>
      (r.createRequest.value.locationConstraint.Some? <==> region != "us-east-1") &&
      (r.createRequest.value.locationConstraint.Some? ==> r.createRequest.value.locationConstraint.value == region)
    ensures r.connected <==>
      head.BucketFound? ||
      (head == HeadBucketClientError("404") &&
       (create.BucketCreated? || create == CreateBucketClientError("BucketAlreadyExists") ||
        create == CreateBucketClientError("BucketAlreadyOwnedByYou")))
  {
    match head
    case BucketFound => InitResult(None, true)
    case HeadBucketOtherError => InitResult(None, false)
    case HeadBucketClientError(code) =>
      if code == "404" then
        var request :=
          if region == "us-east-1" then CreateBucketRequest(bucket, None)
          else CreateBucketRequest(bucket, Some(region));
        var connected :=
          match create
          case BucketCreated => true
          case CreateBucketOtherError => false
          case CreateBucketClientError(createCode) =>
            createCode == "BucketAlreadyExists" || createCode == "BucketAlreadyOwnedByYou";
        InitResult(Some(request), connected)
      else
        InitResult(None, false)
  }

  /** Access denied on the bucket stops the script before anything is written. */
  lemma AccessDeniedStops(bucket: string, region: string, create: CreateBucketOutcome)
    ensures !InitializeBucket(bucket, region, HeadBucketClientError("403"), create).connected
    ensures InitializeBucket(bucket, region, HeadBucketClientError("403"), create).createRequest.None?
  {
    assert "403" != "404" by { assert "403"[2] != "404"[2]; }
  }

  // ---------------------------------------------------------------------------
  // The object store

  /** The manifest document. */
  datatype ManifestEntry = ManifestEntry(s3Key: string, localPath: string, description: string, status: string, sizeMb: int)
  datatype Manifest = Manifest(uploadTimestamp: string, bucket: string, region: string, files: seq<ManifestEntry>)

  datatype StoredObject =
    | FolderMarker(metadata: map<string, string>)
    | CsvUpload(localPath: string, size: nat, metadata: map<string, string>, contentType: string, encryption: string)
    | ManifestDocument(manifest: Manifest, contentType: string, metadata: map<string, string>)

  /** The requests the script makes, in the order it makes them. */
  datatype Request = PutRequest(key: string) | UploadRequest(localPath: string, key: string) | HeadRequest(key: string)

  class ObjectStore {
    var objects: map<string, StoredObject>
    var requests: seq<Request>
    /** Keys whose writes the service refuses (the call raises). */
    const refusedWrites: set<string>
    /** Keys whose metadata the service refuses to return even when present. */
    const refusedHeads: set<string>

    constructor (objects: map<string, StoredObject>, refusedWrites: set<string>, refusedHeads: set<string>)
      ensures this.objects == objects && this.requests == []
      ensures this.refusedWrites == refusedWrites && this.refusedHeads == refusedHeads
    {
      this.objects := objects;
      this.requests := [];
      this.refusedWrites := refusedWrites;
      this.refusedHeads := refusedHeads;
    }

    /** `put_object`: `ok` is false when the call raises. */
    method PutObject(key: string, obj: StoredObject) returns (ok: bool)
      modifies this
      ensures requests == old(requests) + [PutRequest(key)]
      ensures ok <==> key !in refusedWrites
      ensures objects == if ok then old(objects)[key := obj] else old(objects)
    {
      requests := requests + [PutRequest(key)];
      ok := key !in refusedWrites;
      if ok {
        objects := objects[key := obj];
      }
    }

    /** `upload_file`: `ok` is false when the call raises. */
    method UploadFile(localPath: string, key: string, obj: StoredObject) returns (ok: bool)
      modifies this
      ensures requests == old(requests) + [UploadRequest(localPath, key)]
      ensures ok <==> key !in refusedWrites
      ensures objects == if ok then old(objects)[key := obj] else old(objects)
    {
      requests := requests + [UploadRequest(localPath, key)];
      ok := key !in refusedWrites;
      if ok {
        objects := objects[key := obj];
      }
    }

    /** `head_object`: `found` is false when the call raises. */
    method HeadObject(key: string) returns (found: bool)
      modifies this
      ensures requests == old(requests) + [HeadRequest(key)]
      ensures found <==> key in objects && key !in refusedHeads
      ensures objects == old(objects)
    {
      requests := requests + [HeadRequest(key)];
      found := key in objects && key !in refusedHeads;
    }
  }

  // ---------------------------------------------------------------------------
  // Folder markers

  /** The key of a folder's marker object. */
  function MarkerKey(folder: string): (key: string)
    ensures IsPrefix(folder, key) && key[|folder|..] == ".keep"
  {
    folder + ".keep"
  }

  const MarkerObject := FolderMarker(map["purpose" := "folder_marker"])

  /** The put requests for the markers of `folders`, in order. */
  function MarkerPuts(folders: seq<string>): (rs: seq<Request>)
    ensures |rs| == |folders|
    ensures forall i :: 0 <= i < |folders| ==> rs[i] == PutRequest(MarkerKey(folders[i]))
  {
    seq(|folders|, i requires 0 <= i < |folders| => PutRequest(MarkerKey(folders[i])))
  }

  /** The marker keys whose writes the service accepts. */
  function AcceptedMarkers(folders: seq<string>, refused: set<string>): set<string> {
    set f | f in folders && MarkerKey(f) !in refused :: MarkerKey(f)
  }

  /** The store's contents after putting the markers of `folders`: every
      accepted marker key holds the marker, overwriting what was there, and
      every other object is left as it was. */
  function WithMarkers(objects: map<string, StoredObject>, refused: set<string>, folders: seq<string>): map<string, StoredObject> {
    map k | k in objects.Keys + AcceptedMarkers(folders, refused) ::
      if k in AcceptedMarkers(folders, refused) then MarkerObject else objects[k]
  }

  lemma WithMarkersStep(objects: map<string, StoredObject>, refused: set<string>, folders: seq<string>, i: nat)
    requires i < |folders|
    ensures WithMarkers(objects, refused, folders[..i + 1]) ==
      if MarkerKey(folders[i]) in refused then WithMarkers(objects, refused, folders[..i])
      else WithMarkers(objects, refused, folders[..i])[MarkerKey(folders[i]) := MarkerObject]
  {
    var before, after := folders[..i], folders[..i + 1];
    assert after == before + [folders[i]];
    assert AcceptedMarkers(after, refused) ==
      AcceptedMarkers(before, refused) + (if MarkerKey(folders[i]) in refused then {} else {MarkerKey(folders[i])});
  }

  /** `create_s3_folder_structure`: one put per folder, each attempted whatever
      happened to the ones before. */
  method CreateFolderStructure(store: ObjectStore)
    modifies store
    ensures store.requests == old(store.requests) + MarkerPuts(Folders)
    ensures store.objects == WithMarkers(old(store.objects), store.refusedWrites, Folders)
  {
    for i := 0 to |Folders|
      invariant store.requests == old(store.requests) + MarkerPuts(Folders[..i])
      invariant store.objects == WithMarkers(old(store.objects), store.refusedWrites, Folders[..i])
    {
      assert MarkerPuts(Folders[..i + 1]) == MarkerPuts(Folders[..i]) + [PutRequest(MarkerKey(Folders[i]))];
      WithMarkersStep(old(store.objects), store.refusedWrites, Folders, i);
      var _ := store.PutObject(MarkerKey(Folders[i]), MarkerObject);
    }
    assert Folders[..|Folders|] == Folders;
  }

  /** Putting the markers adds exactly the accepted marker keys, never drops an
      object, stores the marker under each accepted key (overwriting what was
      there) and leaves every other object as it was. */
  lemma MarkersStored(objects: map<string, StoredObject>, refused: set<string>, folders: seq<string>)
    ensures forall k :: k in WithMarkers(objects, refused, folders) <==>
      k in objects || exists i :: 0 <= i < |folders| && k == MarkerKey(folders[i]) && k !in refused
    ensures forall i :: 0 <= i < |folders| && MarkerKey(folders[i]) !in refused ==>
      WithMarkers(objects, refused, folders)[MarkerKey(folders[i])] == MarkerObject
    ensures forall k :: k in objects && k !in AcceptedMarkers(folders, refused) ==>
      WithMarkers(objects, refused, folders)[k] == objects[k]
  {
    forall k | k in WithMarkers(objects, refused, folders) && k !in objects
      ensures exists i :: 0 <= i < |folders| && k == MarkerKey(folders[i]) && k !in refused
    {
      var f :| f in folders && MarkerKey(f) !in refused && k == MarkerKey(f);
      var i :| 0 <= i < |folders| && folders[i] == f;
    }
    forall i | 0 <= i < |folders| && MarkerKey(folders[i]) !in refused
      ensures MarkerKey(folders[i]) in AcceptedMarkers(folders, refused)
    {
    }
  }

  // ---------------------------------------------------------------------------
  // Uploading one file

  /** The metadata attached to an uploaded file. */
  function UploadMetadata(description: string, expectedRows: nat, uploadDate: string): (m: map<string, string>)
    ensures m.Keys == {"upload_date", "description", "expected_rows", "source", "data_layer", "file_type"}
    ensures m["description"] == description && m["upload_date"] == uploadDate
    ensures ParseNat(m["expected_rows"]) == expectedRows
  {
    ParseNatToString(expectedRows);
    map["upload_date" := uploadDate, "description" := description,
        "expected_rows" := NatToString(expectedRows), "source" := "CMS",
        "data_layer" := "bronze", "file_type" := "csv"]
  }

  /** The requests `upload_file_to_s3` makes for one file. */
  function UploadRequests(store: ObjectStore, localFiles: map<string, nat>, localPath: string, key: string): seq<Request> {
    if localPath !in localFiles then []
    else [UploadRequest(localPath, key)] + (if key in store.refusedWrites then [] else [HeadRequest(key)])
  }

  /** Whether uploading a file succeeds: the file is there, the write is
      accepted and the metadata can be read back. */
  predicate UploadSucceeds(store: ObjectStore, localFiles: map<string, nat>, localPath: string, key: string) {
    localPath in localFiles && key !in store.refusedWrites && key !in store.refusedHeads
  }

  /** The object an accepted upload stores: the local file's contents (its
      size here) with the metadata, CSV content type and server-side encryption. */
  function CsvObject(localPath: string, size: nat, description: string, expectedRows: nat, uploadDate: string): StoredObject {
    CsvUpload(localPath, size, UploadMetadata(description, expectedRows, uploadDate), "text/csv", "AES256")
  }

  /** `upload_file_to_s3`. A missing local file fails before any request. */
  method UploadFileToS3(
    store: ObjectStore, localFiles: map<string, nat>, localPath: string, key: string,
    description: string, expectedRows: nat, uploadDate: string)
    returns (ok: bool)
    modifies store
    ensures ok <==> UploadSucceeds(store, localFiles, localPath, key)
    ensures store.requests == old(store.requests) + UploadRequests(store, localFiles, localPath, key)
    ensures store.objects ==
      if localPath in localFiles && key !in store.refusedWrites
      then old(store.objects)[key := CsvObject(localPath, localFiles[localPath], description, expectedRows, uploadDate)]
      else old(store.objects)
  {
    if localPath !in localFiles {
      return false;
    }
    var obj := CsvObject(localPath, localFiles[localPath], description, expectedRows, uploadDate);
    var uploaded := store.UploadFile(localPath, key, obj);
    if !uploaded {
      return false;
    }
    ok := store.HeadObject(key);
  }

  // ---------------------------------------------------------------------------
  // Results and manifest

  /** One entry of `upload_results`; `sizeMb` is optional as the manifest reads it. */
  datatype UploadResult = UploadResult(s3Key: string, localPath: string, description: string, status: string, sizeMb: Option<int>)

  /** The result `main` records for a configured file: the configured size, not the measured one. */
  function ResultFor(cfg: FileConfig, success: bool): UploadResult {
    UploadResult(cfg.s3Key, cfg.localPath, cfg.description, if success then "success" else "failed",
                 Some(cfg.expectedSizeMb))
  }

  /** A manifest entry copies its result, with size 0 when the result has none. */
  function EntryFor(r: UploadResult): (e: ManifestEntry)
    ensures e.s3Key == r.s3Key && e.localPath == r.localPath && e.description == r.description && e.status == r.status
    ensures e.sizeMb == if r.sizeMb.Some? then r.sizeMb.value else 0
  {
    ManifestEntry(r.s3Key, r.localPath, r.description, r.status, r.sizeMb.GetOr(0))
  }

  /** The `files` list of the manifest, built entry by entry. */
  method ManifestFiles(results: seq<UploadResult>) returns (files: seq<ManifestEntry>)
    ensures |files| == |results|
    ensures forall i :: 0 <= i < |results| ==> files[i] == EntryFor(results[i])
  {
    files := [];
    for i := 0 to |results|
      invariant |files| == i
      invariant forall k :: 0 <= k < i ==> files[k] == EntryFor(results[k])
    {
      files := files + [EntryFor(results[i])];
    }
  }

  function ManifestKey(stamp: string): string {
    "metadata/upload_manifest_" + stamp + ".json"
  }

  /** The stored manifest: the JSON document with its content type and metadata. */
  function ManifestObject(manifest: Manifest): StoredObject {
    ManifestDocument(manifest, "application/json", map["purpose" := "upload_manifest"])
  }

  /** `create_upload_manifest`: build the manifest and put it. `stored` is
      false when the put raises. */
  method CreateUploadManifest(
    store: ObjectStore, bucket: string, region: string, results: seq<UploadResult>, uploadTimestamp: string, keyStamp: string)
    returns (manifest: Manifest, key: string, stored: bool)
    modifies store
    ensures key == ManifestKey(keyStamp)
    ensures manifest.bucket == bucket && manifest.region == region && manifest.uploadTimestamp == uploadTimestamp
    ensures |manifest.files| == |results|
    ensures forall i :: 0 <= i < |results| ==> manifest.files[i] == EntryFor(results[i])
    ensures store.requests == old(store.requests) + [PutRequest(key)]
    ensures stored <==> key !in store.refusedWrites
    ensures store.objects == if stored then old(store.objects)[key := ManifestObject(manifest)] else old(store.objects)
  {
    var files := ManifestFiles(results);
    manifest := Manifest(uploadTimestamp, bucket, region, files);
    key := ManifestKey(keyStamp);
    stored := store.PutObject(key, ManifestObject(manifest));
  }

  /** Number of results with status "success". */
  function CountSuccessful(results: seq<UploadResult>): (n: nat)
    ensures n <= |results|
  {
    if results == [] then 0
    else (if results[0].status == "success" then 1 else 0) + CountSuccessful(results[1..])
  }

  lemma {:induction false} CountSuccessfulAppend(results: seq<UploadResult>, r: UploadResult)
    ensures CountSuccessful(results + [r]) == CountSuccessful(results) + (if r.status == "success" then 1 else 0)
  {
    if results != [] {
      assert (results + [r])[1..] == results[1..] + [r];
      CountSuccessfulAppend(results[1..], r);
    }
  }

  /** The summary count reaches the number of results exactly when every upload succeeded. */
  lemma {:induction false} AllSuccessful(results: seq<UploadResult>)
    ensures CountSuccessful(results) == |results| <==> forall i :: 0 <= i < |results| ==> results[i].status == "success"
  {
    if results != [] {
      AllSuccessful(results[1..]);
      if forall i :: 0 <= i < |results| ==> results[i].status == "success" {
        assert forall i :: 0 <= i < |results[1..]| ==> results[1..][i].status == "success" by {
          forall i | 0 <= i < |results[1..]| ensures results[1..][i].status == "success" {
            assert results[1..][i] == results[i + 1];
          }
        }
      } else if results[0].status == "success" {
        var j :| 0 <= j < |results| && results[j].status != "success";
        assert results[1..][j - 1] == results[j];
      }
    }
  }

  /** The upload requests of the configured files, in order. */
  function AllUploadRequests(store: ObjectStore, localFiles: map<string, nat>, files: seq<FileConfig>): seq<Request>
    decreases |files|
  {
    if files == [] then []
    else
      var init := files[..|files| - 1];
      var last := files[|files| - 1];
      AllUploadRequests(store, localFiles, init) + UploadRequests(store, localFiles, last.localPath, last.s3Key)
  }

  /** With none of the local files present, no upload is even attempted. */
  lemma {:induction false} NoLocalFilesNoRequests(store: ObjectStore, files: seq<FileConfig>)
    ensures AllUploadRequests(store, map[], files) == []
    decreases |files|
  {
    if files != [] {
      NoLocalFilesNoRequests(store, files[..|files| - 1]);
    }
  }

  /** Every upload request names a configured file that is present locally. */
  lemma {:induction false} UploadRequestsOfConfigured(store: ObjectStore, localFiles: map<string, nat>, files: seq<FileConfig>)
    ensures forall r :: r in AllUploadRequests(store, localFiles, files) && r.UploadRequest? ==>
      exists i :: 0 <= i < |files| && r == UploadRequest(files[i].localPath, files[i].s3Key) && files[i].localPath in localFiles
    decreases |files|
  {
    if files != [] {
      var init := files[..|files| - 1];
      var last := files[|files| - 1];
      UploadRequestsOfConfigured(store, localFiles, init);
      forall r | r in AllUploadRequests(store, localFiles, files) && r.UploadRequest?
        ensures exists i :: 0 <= i < |files| && r == UploadRequest(files[i].localPath, files[i].s3Key) && files[i].localPath in localFiles
      {
        if r in AllUploadRequests(store, localFiles, init) {
          var i :| 0 <= i < |init| && r == UploadRequest(init[i].localPath, init[i].s3Key) && init[i].localPath in localFiles;
          assert files[i] == init[i];
        } else {
          assert r == UploadRequest(last.localPath, last.s3Key);
        }
      }
    }
  }

  /** Every configured file that is present locally is uploaded. */
  lemma {:induction false} ConfiguredFilesUploaded(store: ObjectStore, localFiles: map<string, nat>, files: seq<FileConfig>)
    ensures forall i :: 0 <= i < |files| && files[i].localPath in localFiles ==>
      UploadRequest(files[i].localPath, files[i].s3Key) in AllUploadRequests(store, localFiles, files)
    decreases |files|
  {
    if files != [] {
      var init := files[..|files| - 1];
      var last := files[|files| - 1];
      ConfiguredFilesUploaded(store, localFiles, init);
      forall i | 0 <= i < |files| && files[i].localPath in localFiles
        ensures UploadRequest(files[i].localPath, files[i].s3Key) in AllUploadRequests(store, localFiles, files)
      {
        if i < |init| {
          assert init[i] == files[i];
        }
      }
    }
  }

  lemma AllUploadRequestsStep(store: ObjectStore, localFiles: map<string, nat>, files: seq<FileConfig>, i: nat)
    requires i < |files|
    ensures AllUploadRequests(store, localFiles, files[..i + 1]) ==
      AllUploadRequests(store, localFiles, files[..i]) + UploadRequests(store, localFiles, files[i].localPath, files[i].s3Key)
  {
    assert files[..i + 1][..i] == files[..i];
  }

  /** The store's contents after one configured file's upload attempt. */
  function WithUpload(
    objects: map<string, StoredObject>, refused: set<string>, localFiles: map<string, nat>, cfg: FileConfig, uploadDate: string)
    : map<string, StoredObject>
  {
    if cfg.localPath in localFiles && cfg.s3Key !in refused
    then objects[cfg.s3Key := CsvObject(cfg.localPath, localFiles[cfg.localPath], cfg.description, cfg.expectedRows, uploadDate)]
    else objects
  }

  /** The store's contents after the configured files' uploads, in order. */
  function WithUploads(
    objects: map<string, StoredObject>, refused: set<string>, localFiles: map<string, nat>, files: seq<FileConfig>, uploadDate: string)
    : map<string, StoredObject>
    decreases |files|
  {
    if files == [] then objects
    else WithUpload(WithUploads(objects, refused, localFiles, files[..|files| - 1], uploadDate),
                    refused, localFiles, files[|files| - 1], uploadDate)
  }

  lemma WithUploadsStep(
    objects: map<string, StoredObject>, refused: set<string>, localFiles: map<string, nat>, files: seq<FileConfig>, uploadDate: string, i: nat)
    requires i < |files|
    ensures WithUploads(objects, refused, localFiles, files[..i + 1], uploadDate) ==
      WithUpload(WithUploads(objects, refused, localFiles, files[..i], uploadDate), refused, localFiles, files[i], uploadDate)
  {
    assert files[..i + 1][..i] == files[..i];
  }

  /** A configured file that is present and whose write is accepted ends up
      stored under its key, unless a later file is uploaded to the same key. */
  lemma {:induction false} UploadStored(
    objects: map<string, StoredObject>, refused: set<string>, localFiles: map<string, nat>, files: seq<FileConfig>, uploadDate: string, i: nat)
    requires i < |files| && files[i].localPath in localFiles && files[i].s3Key !in refused
    requires forall j :: i < j < |files| ==> files[j].s3Key != files[i].s3Key
    ensures files[i].s3Key in WithUploads(objects, refused, localFiles, files, uploadDate)
    ensures WithUploads(objects, refused, localFiles, files, uploadDate)[files[i].s3Key] ==
      CsvObject(files[i].localPath, localFiles[files[i].localPath], files[i].description, files[i].expectedRows, uploadDate)
    decreases |files|
  {
    var init := files[..|files| - 1];
    if i < |files| - 1 {
      assert init[i] == files[i];
      UploadStored(objects, refused, localFiles, init, uploadDate, i);
    }
  }

  /** The uploads never remove an object, and leave every object whose key no
      configured file uses as it was. */
  lemma {:induction false} UploadsKeepOthers(
    objects: map<string, StoredObject>, refused: set<string>, localFiles: map<string, nat>, files: seq<FileConfig>, uploadDate: string)
    ensures objects.Keys <= WithUploads(objects, refused, localFiles, files, uploadDate).Keys
    ensures forall k :: k in objects && (forall j :: 0 <= j < |files| ==> files[j].s3Key != k) ==>
      WithUploads(objects, refused, localFiles, files, uploadDate)[k] == objects[k]
    decreases |files|
  {
    if files != [] {
      var init := files[..|files| - 1];
      UploadsKeepOthers(objects, refused, localFiles, init, uploadDate);
      forall k | k in objects && (forall j :: 0 <= j < |files| ==> files[j].s3Key != k)
        ensures WithUploads(objects, refused, localFiles, files, uploadDate)[k] == objects[k]
      {
        assert forall j :: 0 <= j < |init| ==> init[j].s3Key != k by {
          forall j | 0 <= j < |init| ensures init[j].s3Key != k {
            assert init[j] == files[j];
          }
        }
        assert files[|files| - 1].s3Key != k;
      }
    }
  }

  /** One pass of the upload loop: upload a configured file and record its result. */
  method UploadOne(store: ObjectStore, localFiles: map<string, nat>, cfg: FileConfig, uploadDate: string)
    returns (r: UploadResult)
    modifies store
    ensures r == ResultFor(cfg, UploadSucceeds(store, localFiles, cfg.localPath, cfg.s3Key))
    ensures store.requests == old(store.requests) + UploadRequests(store, localFiles, cfg.localPath, cfg.s3Key)
    ensures store.objects == WithUpload(old(store.objects), store.refusedWrites, localFiles, cfg, uploadDate)
  {
    var success := UploadFileToS3(store, localFiles, cfg.localPath, cfg.s3Key,
                                  cfg.description, cfg.expectedRows, uploadDate);
    r := ResultFor(cfg, success);
  }

  /** A proof step for the request log, which grows by appending. */
  lemma AppendAssoc<T>(a: seq<T>, b: seq<T>, c: seq<T>)
    ensures a + b + c == a + (b + c)
  {
  }

  /** The result `main` records for each configured file. */
  function ExpectedResults(store: ObjectStore, localFiles: map<string, nat>, files: seq<FileConfig>): (rs: seq<UploadResult>)
    ensures |rs| == |files|
    ensures forall i :: 0 <= i < |files| ==>
      rs[i] == ResultFor(files[i], UploadSucceeds(store, localFiles, files[i].localPath, files[i].s3Key))
  {
    seq(|files|, i requires 0 <= i < |files| =>
      ResultFor(files[i], UploadSucceeds(store, localFiles, files[i].localPath, files[i].s3Key)))
  }

  lemma ExpectedResultsStep(store: ObjectStore, localFiles: map<string, nat>, files: seq<FileConfig>, i: nat)
    requires i < |files|
    ensures ExpectedResults(store, localFiles, files[..i + 1]) ==
      ExpectedResults(store, localFiles, files[..i]) +
      [ResultFor(files[i], UploadSucceeds(store, localFiles, files[i].localPath, files[i].s3Key))]
  {
  }

  /** The upload loop of `main`: one result per configured file, in order. */
  method UploadAll(store: ObjectStore, localFiles: map<string, nat>, files: seq<FileConfig>, uploadDate: string)
    returns (results: seq<UploadResult>)
    modifies store
    ensures |results| == |files|
    ensures forall i :: 0 <= i < |files| ==>
      results[i] == ResultFor(files[i], UploadSucceeds(store, localFiles, files[i].localPath, files[i].s3Key))
    ensures store.requests == old(store.requests) + AllUploadRequests(store, localFiles, files)
    ensures store.objects == WithUploads(old(store.objects), store.refusedWrites, localFiles, files, uploadDate)
  {
    results := [];
    for i := 0 to |files|
      invariant results == ExpectedResults(store, localFiles, files[..i])
      invariant store.requests == old(store.requests) + AllUploadRequests(store, localFiles, files[..i])
      invariant store.objects == WithUploads(old(store.objects), store.refusedWrites, localFiles, files[..i], uploadDate)
    {
      var r := UploadOne(store, localFiles, files[i], uploadDate);
      ExpectedResultsStep(store, localFiles, files, i);
      AllUploadRequestsStep(store, localFiles, files, i);
      WithUploadsStep(old(store.objects), store.refusedWrites, localFiles, files, uploadDate, i);
      AppendAssoc(old(store.requests), AllUploadRequests(store, localFiles, files[..i]),
                  UploadRequests(store, localFiles, files[i].localPath, files[i].s3Key));
      results := results + [r];
    }
    assert files[..|files|] == files;
  }

  /** The clock readings of one run. */
  datatype Clock = Clock(uploadDate: string, manifestTimestamp: string, manifestKeyStamp: string)

  /** What one run of the script produced. `manifestStored` is false when the
      manifest put raised, which ends the script with a traceback. */
  datatype UploadRun = UploadRun(
    init: InitResult, results: seq<UploadResult>, manifest: Option<Manifest>, manifestStored: bool, successful: nat)

  /** The store's contents after a connected run: the markers, then the
      uploads, then the manifest. */
  function AfterRun(
    objects: map<string, StoredObject>, refused: set<string>, localFiles: map<string, nat>, clock: Clock, manifest: Manifest)
    : map<string, StoredObject>
  {
    var uploaded := WithUploads(WithMarkers(objects, refused, Folders), refused, localFiles, FilesToUpload, clock.uploadDate);
    var key := ManifestKey(clock.manifestKeyStamp);
    if key in refused then uploaded else uploaded[key := ManifestObject(manifest)]
  }

  lemma DifferAfterPrefix(p: string, a: string, b: string, j: nat)
    requires j < |a| && j < |b| && a[j] != b[j]
    ensures p + a != p + b
  {
    assert (p + a)[|p| + j] == a[j];
  }

  /** The configured files go to distinct keys, none of which is a marker key
      or a manifest key. */
  lemma ConfiguredKeysSeparate(stamp: string)
    ensures forall i, j :: 0 <= i < j < |FilesToUpload| ==> FilesToUpload[i].s3Key != FilesToUpload[j].s3Key
    ensures forall i :: 0 <= i < |FilesToUpload| ==> FilesToUpload[i].s3Key != ManifestKey(stamp)
    ensures forall i, f :: 0 <= i < |FilesToUpload| ==> FilesToUpload[i].s3Key != MarkerKey(f)
  {
    var a, b, c := "/ipps_charges/ipps_charges.csv", "/hospital_general_info/hospital_general_info.csv",
                   "/readmissions/readmissions.csv";
    assert |a| == |c| == 30 && |b| == 48;
    DifferAfterPrefix(BronzeLayer, a, c, 24);
    forall i | 0 <= i < |FilesToUpload|
      ensures FilesToUpload[i].s3Key[0] == 'b' && FilesToUpload[i].s3Key[|FilesToUpload[i].s3Key| - 1] == 'v'
    {
    }
    assert ManifestKey(stamp)[0] == 'm';
    forall f ensures MarkerKey(f)[|MarkerKey(f)| - 1] == 'p' {
    }
  }

  /** After a connected run, a configured file that is present and whose write
      is accepted is stored as its CSV object. */
  lemma RunStoresFile(
    objects: map<string, StoredObject>, refused: set<string>, localFiles: map<string, nat>, clock: Clock, manifest: Manifest, i: nat)
    requires i < |FilesToUpload| && FilesToUpload[i].localPath in localFiles && FilesToUpload[i].s3Key !in refused
    ensures FilesToUpload[i].s3Key in AfterRun(objects, refused, localFiles, clock, manifest)
    ensures AfterRun(objects, refused, localFiles, clock, manifest)[FilesToUpload[i].s3Key] ==
      CsvObject(FilesToUpload[i].localPath, localFiles[FilesToUpload[i].localPath],
                FilesToUpload[i].description, FilesToUpload[i].expectedRows, clock.uploadDate)
  {
    var cfg := FilesToUpload[i];
    var uploaded := WithUploads(WithMarkers(objects, refused, Folders), refused, localFiles, FilesToUpload, clock.uploadDate);
    ConfiguredKeysSeparate(clock.manifestKeyStamp);
    assert cfg.s3Key in uploaded &&
      uploaded[cfg.s3Key] == CsvObject(cfg.localPath, localFiles[cfg.localPath], cfg.description, cfg.expectedRows, clock.uploadDate) by {
      UploadStored(WithMarkers(objects, refused, Folders), refused, localFiles, FilesToUpload, clock.uploadDate, i);
    }
  }

  /** After a connected run, every accepted folder marker holds the marker. */
  lemma RunStoresMarker(
    objects: map<string, StoredObject>, refused: set<string>, localFiles: map<string, nat>, clock: Clock, manifest: Manifest, i: nat)
    requires i < |Folders| && MarkerKey(Folders[i]) !in refused
    ensures MarkerKey(Folders[i]) in AfterRun(objects, refused, localFiles, clock, manifest)
    ensures AfterRun(objects, refused, localFiles, clock, manifest)[MarkerKey(Folders[i])] == MarkerObject
  {
    var key := MarkerKey(Folders[i]);
    var marked := WithMarkers(objects, refused, Folders);
    assert key in marked && marked[key] == MarkerObject by {
      MarkersStored(objects, refused, Folders);
    }
    var uploaded := WithUploads(marked, refused, localFiles, FilesToUpload, clock.uploadDate);
    assert key in uploaded && uploaded[key] == MarkerObject by {
      ConfiguredKeysSeparate(clock.manifestKeyStamp);
      UploadsKeepOthers(marked, refused, localFiles, FilesToUpload, clock.uploadDate);
    }
    assert key != ManifestKey(clock.manifestKeyStamp) by {
      assert key[|key| - 1] == 'p';
      assert ManifestKey(clock.manifestKeyStamp)[|ManifestKey(clock.manifestKeyStamp)| - 1] == 'n';
    }
  }

  /** After a connected run the manifest is stored unless its write is refused,
      and no object that was there before has gone. */
  lemma RunStoresManifest(
    objects: map<string, StoredObject>, refused: set<string>, localFiles: map<string, nat>, clock: Clock, manifest: Manifest)
    ensures ManifestKey(clock.manifestKeyStamp) !in refused ==>
      ManifestKey(clock.manifestKeyStamp) in AfterRun(objects, refused, localFiles, clock, manifest) &&
      AfterRun(objects, refused, localFiles, clock, manifest)[ManifestKey(clock.manifestKeyStamp)] == ManifestObject(manifest)
    ensures objects.Keys <= AfterRun(objects, refused, localFiles, clock, manifest).Keys
  {
    UploadsKeepOthers(WithMarkers(objects, refused, Folders), refused, localFiles, FilesToUpload, clock.uploadDate);
  }

  /** The script's `main`. */
  method RunS3Upload(
    store: ObjectStore, bucketVariable: Option<string>, regionVariable: Option<string>,
    head: HeadBucketOutcome, create: CreateBucketOutcome, localFiles: map<string, nat>, clock: Clock)
    returns (run: UploadRun)
    modifies store
    ensures run.init == InitializeBucket(Getenv(bucketVariable, DefaultBucket), Getenv(regionVariable, DefaultRegion), head, create)
    ensures !run.init.connected ==>
      run.results == [] && run.manifest == None && store.requests == old(store.requests) && store.objects == old(store.objects)
    ensures run.init.connected ==>
      |run.results| == |FilesToUpload| &&
      (forall i :: 0 <= i < |FilesToUpload| ==>
        run.results[i] == ResultFor(FilesToUpload[i],
                                    UploadSucceeds(store, localFiles, FilesToUpload[i].localPath, FilesToUpload[i].s3Key)))
    ensures run.init.connected ==>
      run.manifest.Some? && |run.manifest.value.files| == |run.results| &&
      forall i :: 0 <= i < |run.results| ==> run.manifest.value.files[i] == EntryFor(run.results[i])
    ensures run.init.connected ==>
      store.requests == old(store.requests) + MarkerPuts(Folders) +
                        AllUploadRequests(store, localFiles, FilesToUpload) +
                        [PutRequest(ManifestKey(clock.manifestKeyStamp))]
    ensures run.init.connected ==>
      (run.manifestStored <==> ManifestKey(clock.manifestKeyStamp) !in store.refusedWrites) &&
      store.objects == AfterRun(old(store.objects), store.refusedWrites, localFiles, clock, run.manifest.value)
    ensures run.init.connected ==>
      run.manifest.value.bucket == Getenv(bucketVariable, DefaultBucket) &&
      run.manifest.value.region == Getenv(regionVariable, DefaultRegion) &&
      run.manifest.value.uploadTimestamp == clock.manifestTimestamp
    ensures !run.init.connected ==> !run.manifestStored
    ensures run.successful == CountSuccessful(run.results) <= |run.results|
  {
    var bucket := Getenv(bucketVariable, DefaultBucket);
    var region := Getenv(regionVariable, DefaultRegion);
    var init := InitializeBucket(bucket, region, head, create);
    if !init.connected {
      return UploadRun(init, [], None, false, 0);
    }
    CreateFolderStructure(store);
    var results := UploadAll(store, localFiles, FilesToUpload, clock.uploadDate);
    var manifest, key, stored := CreateUploadManifest(store, bucket, region, results,
                                                      clock.manifestTimestamp, clock.manifestKeyStamp);
    run := UploadRun(init, results, Some(manifest), stored, CountSuccessful(results));
  }
}
