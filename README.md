# Healthcare analytics orchestration scripts, modelled in Dafny

The repository is a set of Python scripts around dbt, Great Expectations, boto3
and a Slack webhook. Most of it only calls those tools. This project models the
scripts' own decision logic and proves what each promises:

- **Quality scorecard** (`scorecard.dfy`, module `Scorecard`):
  - the overall pass percentage;
  - first-match sorting of expectation results into completeness, uniqueness,
    validity and consistency;
  - per-category scores, with `None` for an empty category;
  - the failed-expectation list;
  - the quality band and the recommendation.
- **Enhanced pipeline runner** (`enhanced_pipeline.dfy`, module
  `EnhancedPipeline`):
  - the `run_command` success policy with "continue on error";
  - the three required model layers, each of which, when it fails, ends the run with exit code 1;
  - the advisory steps;
  - the dbt test summary;
  - the final status, the notification and the exit code.
- **Plain data-quality runner** (`quality_pipeline.dfy`, module
  `QualityPipeline`):
  - `dbt run` is the only fatal step;
  - the three checkpoints always run, in a fixed order;
  - the list of steps that reported issues.
- **Slack notifier** (`slack_alert.dfy`, module `SlackAlert`):
  - the status→emoji and status→colour rules;
  - the payload;
  - the missing-webhook guard;
  - the command-line exit code.
- **Profile reader** (`profiles.dfy`, module `Profiles`): the lookup of the
  `dev` output with defaults. Two scripts keep their own copy of it, and the
  copies differ only in the default role.
- **Datasource registration** (`snowflake_config.dfy`, module
  `SnowflakeConfig`):
  - the credential gate;
  - the delete-then-add of the named datasource on a `DataContext` object;
  - saving the project configuration.
- **Source-hospital check** (`source_hospitals.dfy`, module
  `SourceHospitals`):
  - the connection URL, with a proof of when it determines the credentials and
    a collision when it does not;
  - the display rules of the listing;
  - the exists/missing tally;
  - the two notes the tally selects.
- **Data-lake upload** (`s3_upload.dfy`, module `S3Upload`):
  - the bucket-connection rules, including the create region rule;
  - the folder markers;
  - the per-file upload with its metadata and the read-back check;
  - one result per configured file;
  - the manifest that mirrors the results.
  - The object store is an `ObjectStore` class. Its contents and request log
    change in place.
- **Host-language helpers** (`common.dfy`, module `Common`):
  - optional values;
  - truthiness of an optional string;
  - substring membership;
  - prefix slicing;
  - decimal rendering of a natural number, with its inverse.

External effects are inputs to the model:
- a shell command's return code and captured output (a function from the command
  to its result);
- whether an HTTP POST completes;
- the profiles file (missing, unreadable, or a parsed tree);
- whether each framework call raises;
- the rows a query returns;
- the local files (path ↦ size);
- the keys the object service refuses to write or to describe;
- the clock readings.

## Model

| member | source | states |
|---|---|---|
| `Scorecard.CountPassed` | scripts/gx_create_quality_scorecard.py:16 | The passed count is at most the number of results, and equals it exactly when every result passed. |
| `Scorecard.Percent` | scripts/gx_create_quality_scorecard.py:21 | For a non-empty set, the percentage lies in [0, 100]. It is 100 exactly when all passed and 0 exactly when none passed. |
| `Scorecard.QualityScore` | scripts/gx_create_quality_scorecard.py:13-22 | The overall score lies in [0, 100] and is 0 for no results. For a non-empty list it is 100 exactly when every result succeeded. |
| `Scorecard.Classify` | scripts/gx_create_quality_scorecard.py:36-43 | Each of the four categories is characterised by an if-and-only-if over which of "null", "unique", "between" and "in_set" the type contains. The tests apply in first-match order. |
| `Scorecard.NotNullMentionsNull` | scripts/gx_create_quality_scorecard.py:36 | Every type containing "not_null" contains "null". The first test of the completeness rule is therefore subsumed. |
| `Scorecard.MissingTypeIsConsistency` | scripts/gx_create_quality_scorecard.py:34 | A result without an expectation type (read as "") is classified as consistency. |
| `Scorecard.Bucket` | scripts/gx_create_quality_scorecard.py:33-43 | A category's list is no longer than the input, and every member carries that category. |
| `Scorecard.BucketAppend` | scripts/gx_create_quality_scorecard.py:37-43 | Appending a result extends exactly the list of its own category. |
| `Scorecard.InBucket` | scripts/gx_create_quality_scorecard.py:33-43 | A result is in a category's list exactly when it is one of the results and classifies to that category. |
| `Scorecard.BucketsPartition` | scripts/gx_create_quality_scorecard.py:26-43 | The four lists together hold every result exactly as often as the input does (multiset equality). |
| `Scorecard.BucketSizesSum` | scripts/gx_create_quality_scorecard.py:26-43 | The four list sizes sum to the number of results. |
| `Scorecard.CategoryScore` | scripts/gx_create_quality_scorecard.py:46-51 | A category scores `None` exactly when it is empty. Otherwise it scores a value in [0, 100] equal to the pass percentage of its results. |
| `Scorecard.SortIntoCategories` | scripts/gx_create_quality_scorecard.py:26-43 | The first loop files every result under its category. Each of the four lists is exactly that category's results, in input order. |
| `Scorecard.ScoreCategories` | scripts/gx_create_quality_scorecard.py:45-53 | The second loop gives every category exactly the score of its own list. |
| `Scorecard.CalculateCategoryScores` | scripts/gx_create_quality_scorecard.py:24-53 | The two loops produce, for every category, the score of exactly that category's results. |
| `Scorecard.FailedOnly` | scripts/gx_create_quality_scorecard.py:99 | The failed list has `total - passed` entries, and none of them succeeded. |
| `Scorecard.InFailedOnly` | scripts/gx_create_quality_scorecard.py:99 | A result is listed as failed exactly when it is one of the results and did not succeed. |
| `Scorecard.Describe` | scripts/gx_create_quality_scorecard.py:102-105 | A listing line shows the expectation type, or "Unknown" without one, and the column, or "N/A" without one. |
| `Scorecard.UntypedFailureListedAsUnknown` | scripts/gx_create_quality_scorecard.py:103 | A result without a type is listed as "Unknown", although the classifier files it under consistency. |
| `Scorecard.Band` | scripts/gx_create_quality_scorecard.py:115-122 | Exactly one band is chosen, each for its score interval (≥95, [90,95), [80,90), <80). |
| `Scorecard.BandMonotone` | scripts/gx_create_quality_scorecard.py:115-122 | A higher score never selects a worse band. |
| `Scorecard.Recommend` | scripts/gx_create_quality_scorecard.py:126-131 | Each recommendation is given for exactly its score interval. |
| `Scorecard.RecommendationFollowsBand` | scripts/gx_create_quality_scorecard.py:115-131 | The recommendation is determined by the band; the two lowest bands share one recommendation. |
| `Scorecard.Summarize` | scripts/gx_create_quality_scorecard.py:80-131 | passed + failed = total = number of results. The inline score equals `calculate_quality_score`'s. The failed list holds exactly the non-successful results in order, and is empty exactly when all passed. One listing line per failure, in the same order, is that failure's `Describe`. The band and recommendation follow the score. |
| `Scorecard.NineOfTen` | scripts/gx_create_quality_scorecard.py:80-122 | Nine passes out of ten score 90 and land in the GOOD band. The failed list is exactly the one failing result, and the listing is its single line. |
| `EnhancedPipeline.RunCommand` | scripts/run_pipeline_enhanced.py:29-41 | Success holds exactly when the return code is 0 or the step continues on error. The output is stdout on return code 0 and stderr otherwise. |
| `EnhancedPipeline.ContinueOnErrorNeverFails` | scripts/run_pipeline_enhanced.py:34-36 | A step run with "continue on error" always reports success. |
| `EnhancedPipeline.CountStatus` | scripts/run_pipeline_enhanced.py:55-57 | A status count never exceeds the number of entries. |
| `EnhancedPipeline.GetTestSummary` | scripts/run_pipeline_enhanced.py:50-59 | Missing or empty results give all zeros. Otherwise passed + failed + warned is at most the number of entries. |
| `EnhancedPipeline.CountsBounded` | scripts/run_pipeline_enhanced.py:55-59 | The three counts together never exceed the number of entries. |
| `EnhancedPipeline.UnknownStatusIgnored` | scripts/run_pipeline_enhanced.py:55-59 | An entry whose status is not pass, fail or warn (or that has none) changes no count. |
| `EnhancedPipeline.SendNotification` | scripts/run_pipeline_enhanced.py:61-73 | A notification goes out exactly when the webhook URL is set and non-empty. Its icon is ":hospital:" exactly when the status is "success", and its text is the rocket, the status and the message. |
| `EnhancedPipeline.RunAdvisorySteps` | scripts/run_pipeline_enhanced.py:118-162 | After the models: tests, validation when `gx` exists, docs, and data docs when `gx` exists, in that order. The summary is `get_test_summary`'s. The only warning ever recorded is the failed-test count. |
| `EnhancedPipeline.Finish` | scripts/run_pipeline_enhanced.py:164-194 | Reached only without errors, the run ends with status "success" and exit code 0. The notification is sent for "success" with the completion message. |
| `EnhancedPipeline.RunModelLayers` | scripts/run_pipeline_enhanced.py:94-116 | Staging, intermediate and marts are built in order. The first failure stops the sequence with that layer's error. There are no errors exactly when all three layers succeed. |
| `EnhancedPipeline.RunEnhancedPipeline` | scripts/run_pipeline_enhanced.py:75-194 | Exit code 0 exactly when all three required layers succeed. Errors are empty exactly on exit 0. A failing layer stops the run right after it, with its own error and no summary or notification. On success, the command sequence and the warnings are as listed, and the notification is `SendNotification` for "success" with the completion message, sent to the given webhook URL. |
| `QualityPipeline.Succeeds` | scripts/run_data_quality_pipeline.py:26-34 | `run_command`'s verdict: a step succeeds exactly when running it on its own reports no failure. `InFailing` states the converse for a whole run: a command is reported exactly when it ran and did not succeed. |
| `QualityPipeline.CheckpointCommands` | scripts/run_data_quality_pipeline.py:58-65 | One checkpoint command per name, in the same order. What this means for a run is stated by `RunCheckpoints` and `CheckpointsRunInOrder`. |
| `QualityPipeline.Failing` | scripts/run_data_quality_pipeline.py:64-67 | The commands reported as failing are never more than the commands run. |
| `QualityPipeline.FailingConcat` | scripts/run_data_quality_pipeline.py:49-79 | The failures of two consecutive runs of commands are the failures of each, concatenated. |
| `QualityPipeline.InFailing` | scripts/run_data_quality_pipeline.py:26-34 | A command is reported as failing exactly when it ran and its return code was not 0. |
| `QualityPipeline.RunCheckpoints` | scripts/run_data_quality_pipeline.py:58-67 | Every checkpoint runs, in the fixed order, whatever earlier ones returned. The issues are exactly the failing ones. |
| `QualityPipeline.RunAdvisorySteps` | scripts/run_data_quality_pipeline.py:49-79 | Tests, then checkpoints when configured, docs, and data docs when configured, all issued. The issues are exactly the failing commands. |
| `QualityPipeline.RunDataQualityPipeline` | scripts/run_data_quality_pipeline.py:36-86 | A failed `dbt run` exits 1 with no further command. Otherwise the run always completes with exit 0, a failed `dbt test` included, and reports exactly the failing steps. |
| `QualityPipeline.CheckpointsRunInOrder` | scripts/run_data_quality_pipeline.py:55-67 | In the commands a run issues after a successful build with the directory present, marts_suite, staging_suite and full_pipeline run once each, in that order, right after the tests. |
| `QualityPipeline.NoValidationWithoutDirectory` | scripts/run_data_quality_pipeline.py:55-79 | Without the directory, no checkpoint and no data-docs build is issued. |
| `SlackAlert.Emoji` | scripts/send_slack_alert.py:36-43 | The status-to-emoji table itself: a known status gets its mapped emoji, and an unknown one gets ":information_source:". `EmojiDistinguishes` states the table as one if-and-only-if per emoji. |
| `SlackAlert.EmojiDistinguishes` | scripts/send_slack_alert.py:36-43 | Each of the three alarm emojis is given for exactly its status. The information emoji is given for every other status, known or unknown. |
| `SlackAlert.Colour` | scripts/send_slack_alert.py:51 | "good" exactly for success, "danger" exactly for failure, "warning" exactly for every other status including "info". |
| `SlackAlert.BuildPayload` | scripts/send_slack_alert.py:45-57 | The top-level text is the emoji, a space and the message. The icon is ":hospital:". There is one attachment, carrying the message unchanged and the status colour. |
| `SlackAlert.MessageReadBack` | scripts/send_slack_alert.py:46-52 | The message is recovered from the top-level text after the emoji and a space, and equals the attachment text. |
| `SlackAlert.SendSlackAlert` | scripts/send_slack_alert.py:13-66 | No POST happens exactly when neither the argument nor the environment gives a non-empty URL. The argument wins over the environment. The result is true exactly when a POST was made and completed. |
| `SlackAlert.SlackCli` | scripts/send_slack_alert.py:68-78 | A missing message exits 1 without a POST. The status defaults to "info". The POST goes to the URL from the environment and carries the payload for the message and status. The exit code is 0 exactly when a message was given, the environment holds a URL and the POST completed. |
| `Profiles.DevOutput` | scripts/gx_configure_snowflake_working.py:19-28 | A missing or unreadable file, or a document without the "healthcare_analytics" profile, yields no output. |
| `Profiles.Field` | scripts/gx_configure_snowflake_working.py:29-36 | A missing key reads as its default; a text value reads as itself. |
| `Profiles.ReadProfile` | scripts/gx_configure_snowflake_working.py:17-40 | Credentials are found exactly when the `dev` lookup succeeds. Each field is the profile's value or its default: "" for account, user and password; HEALTHCARE_ANALYTICS; transforming_wh; and the reader's role default. What follows from the defaults is stated by `MissingDevIsAllDefaults` and `OnlyRoleDefaultDiffers`. |
| `Profiles.MissingDevIsAllDefaults` | scripts/gx_configure_snowflake_working.py:28-36 | A profile without a `dev` output reads as all defaults. |
| `Profiles.OnlyRoleDefaultDiffers` | scripts/check_source_hospitals.py:21-30 | The two readers find credentials for the same files. Their credentials differ at most in the role, and only when the profile gives none. |
| `SnowflakeConfig.ReadDbtProfiles` | scripts/gx_configure_snowflake_working.py:17-40 | This copy of the reader defaults the role to SYSADMIN. |
| `SnowflakeConfig.CredentialsUsable` | scripts/gx_configure_snowflake_working.py:53 | The gate passes exactly when credentials were read and account, user and password are all truthy. `UsableMeansGiven` states that passing means all three were given as non-empty text. |
| `SnowflakeConfig.UsableMeansGiven` | scripts/gx_configure_snowflake_working.py:53-56 | Passing the gate means account, user and password were all given as non-empty text; their defaults never pass. |
| `SnowflakeConfig.NewDatasource` | scripts/gx_configure_snowflake_working.py:87-96 | The new datasource is named "snowflake_datasource" and uses schema "marts". Its other six fields are copied from the credentials. |
| `SnowflakeConfig.DataContext.constructor` | scripts/gx_configure_snowflake_working.py:43 | A context holds the given in-memory and saved datasources. |
| `SnowflakeConfig.DataContext.DeleteDatasource` | scripts/gx_configure_snowflake_working.py:69 | A successful delete removes the name. A failed one changes nothing. |
| `SnowflakeConfig.DataContext.AddDatasource` | scripts/gx_configure_snowflake_working.py:99 | A successful add registers the datasource under its name. A failed one changes nothing. |
| `SnowflakeConfig.DataContext.SaveProjectConfig` | scripts/gx_configure_snowflake_working.py:102 | A successful save makes the saved configuration equal to the in-memory one. |
| `SnowflakeConfig.ConfigureSnowflake` | scripts/gx_configure_snowflake_working.py:42-124 | Without usable credentials it exits 1 and touches nothing. A successful add leaves the old datasources with "snowflake_datasource" replaced by the new one, whether or not the delete worked. A failed add leaves only the delete's effect. Exit 0 exactly when the gate, the add and the save all succeed. |
| `SourceHospitals.ReadDbtProfiles` | scripts/check_source_hospitals.py:11-34 | This copy of the reader defaults the role to ACCOUNTADMIN. |
| `SourceHospitals.LocationRoundTrip` | scripts/check_source_hospitals.py:47 | When no field holds the separator that ends it, the part of the URL after the scheme parses back to exactly the credentials. |
| `SourceHospitals.ConnectionString` | scripts/check_source_hospitals.py:47 | The URL starts with `snowflake://`. When no field holds the separator that ends it, parsing the URL gives back exactly the credentials (a round trip through `ParseConnectionString`). |
| `SourceHospitals.ConnectionStringAmbiguous` | scripts/check_source_hospitals.py:47 | Without escaping, two different sets of credentials (a password with "@") give the same URL. |
| `SourceHospitals.OrNA` | scripts/check_source_hospitals.py:95-96 | An absent or empty value shows as "N/A". Any other value shows as itself. |
| `SourceHospitals.Display` | scripts/check_source_hospitals.py:93-104 | The name shown is a prefix of the name (or "N/A") of at most 38 characters, and the whole name when that fits. The state shows as itself or "N/A". |
| `SourceHospitals.CountExists` | scripts/check_source_hospitals.py:99-102 | The exists count never exceeds the number of rows. |
| `SourceHospitals.CountExistsWitness` | scripts/check_source_hospitals.py:99-124 | The count is positive exactly when some row exists, and below the row count exactly when some row is missing. |
| `SourceHospitals.TallyRows` | scripts/check_source_hospitals.py:89-104 | Every row increments exactly one counter, so exists + missing = rows. One listing line is produced per row, in order. |
| `SourceHospitals.CheckSourceHospitals` | scripts/check_source_hospitals.py:36-135 | No credentials exit 1 before any connection. A failed query exits 1. Otherwise it exits 0. No rows prints "No missing hospitals found!". Rows give a tally whose exists count is `CountExists` of the rows, whose two counts add up to the rows, whose ISSUE FOUND note appears exactly when some row exists and whose orphan note appears exactly when some row is missing. |
| `S3Upload.InitializeBucket` | scripts/s3_upload.py:54-94 | A create request is made exactly on a 404. It carries a location constraint (the region) exactly outside us-east-1. The script goes on exactly when the bucket was found, or on a 404 when the create succeeded or failed with BucketAlreadyExists or BucketAlreadyOwnedByYou. |
| `S3Upload.AccessDeniedStops` | scripts/s3_upload.py:85-88 | A 403 on the bucket stops the script without a create request. |
| `S3Upload.ObjectStore.constructor` | scripts/s3_upload.py:57 | A store starts with the given objects and an empty request log. |
| `S3Upload.ObjectStore.PutObject` | scripts/s3_upload.py:112-117 | The put is logged. It stores the object exactly when the key is not refused, and changes nothing else. |
| `S3Upload.ObjectStore.UploadFile` | scripts/s3_upload.py:136-152 | The upload is logged. It stores the object exactly when the key is not refused. |
| `S3Upload.ObjectStore.HeadObject` | scripts/s3_upload.py:155 | The read-back is logged. It succeeds exactly when the object exists and its metadata is not refused. Objects are unchanged. |
| `S3Upload.MarkerKey` | scripts/s3_upload.py:114 | A marker key is its folder followed by ".keep". |
| `S3Upload.CreateFolderStructure` | scripts/s3_upload.py:97-120 | One put per folder, in order, each attempted whatever happened before. The store afterwards is `WithMarkers` of the old store: see `MarkersStored`. |
| `S3Upload.MarkersStored` | scripts/s3_upload.py:107-117 | Putting the markers adds exactly the accepted marker keys and removes nothing. Every accepted marker key holds the marker, overwriting what was there, and every other object keeps its value. |
| `S3Upload.UploadMetadata` | scripts/s3_upload.py:141-148 | The metadata has exactly the six keys. The description and upload date are carried through, and the expected row count reads back from its decimal text. |
| `S3Upload.UploadFileToS3` | scripts/s3_upload.py:123-166 | A missing local file fails with no request. Otherwise the upload is made, and the read-back only when the upload went through. The result is true exactly when the file exists, the write is accepted and the read-back succeeds. The stored object has the local file's size, the metadata, text/csv and AES256. |
| `S3Upload.EntryFor` | scripts/s3_upload.py:179-185 | A manifest entry copies its result's key, path, description and status, with size 0 when none was recorded. |
| `S3Upload.ManifestFiles` | scripts/s3_upload.py:178-185 | The manifest's file list has one entry per result, in the same order. |
| `S3Upload.CreateUploadManifest` | scripts/s3_upload.py:169-199 | The manifest records the bucket, the region and the timestamp, and mirrors the results. It is put under `metadata/upload_manifest_<stamp>.json` and stored exactly when that write is accepted. |
| `S3Upload.CountSuccessful` | scripts/s3_upload.py:250 | The successful count never exceeds the number of results. |
| `S3Upload.AllSuccessful` | scripts/s3_upload.py:250-251 | The count equals the number of results exactly when every status is "success". |
| `S3Upload.NoLocalFilesNoRequests` | scripts/s3_upload.py:127-129 | With no local file present, no upload request is made at all. |
| `S3Upload.UploadRequestsOfConfigured` | scripts/s3_upload.py:223-232 | Every upload request names a configured file present locally. |
| `S3Upload.ConfiguredFilesUploaded` | scripts/s3_upload.py:223-232 | Every configured file that is present locally is uploaded. |
| `S3Upload.UploadOne` | scripts/s3_upload.py:223-240 | One iteration of the upload loop. It records "success" exactly when the upload succeeds, logs exactly that file's requests, and stores the file's CSV object exactly when the file is present and its write is accepted. |
| `S3Upload.UploadAll` | scripts/s3_upload.py:221-240 | There is one result per configured file, in order. Its status is "success" exactly when that upload succeeds, and its size is the configured size, not the measured one. The store afterwards is the old one with each accepted upload applied in order (`WithUploads`). |
| `S3Upload.UploadStored` | scripts/s3_upload.py:123-152 | A present file whose write is accepted is stored as its CSV object, unless a later file goes to the same key. |
| `S3Upload.UploadsKeepOthers` | scripts/s3_upload.py:221-232 | The uploads remove nothing and leave every object under a key no configured file uses unchanged. |
| `S3Upload.ConfiguredKeysSeparate` | scripts/s3_upload.py:29-52 | The three configured keys are distinct from each other, from every marker key and from every manifest key. |
| `S3Upload.RunS3Upload` | scripts/s3_upload.py:202-256 | A failed connection returns before any request and changes nothing. Otherwise the markers, the uploads and the manifest put happen in that order. The store afterwards is the markers, then the uploads, then the manifest applied to the old store (`AfterRun`). The manifest is stored exactly when its write is accepted. The results mirror the configuration. The manifest records the bucket and region read from the environment (or their defaults) and the run's timestamp, and its entries mirror the results. The successful count is bounded by the results. |
| `S3Upload.RunStoresFile` | scripts/s3_upload.py:221-240 | After a connected run, each configured file that is present and whose write is accepted is stored as its CSV object. |
| `S3Upload.RunStoresMarker` | scripts/s3_upload.py:97-120 | After a connected run, each accepted marker key holds the marker. |
| `S3Upload.RunStoresManifest` | scripts/s3_upload.py:169-199 | After a connected run, the manifest is stored unless its write is refused, and no object that was there before is gone. |
| `Common.Take` | scripts/check_source_hospitals.py:104 | `s[:n]` has length n, or the length of `s` when that is shorter; it is a prefix of `s`, and is all of `s` when it fits. |
| `Common.NatToString` | scripts/s3_upload.py:144 | `str(n)` is a non-empty string of decimal digits. |
| `Common.ParseNatToString` | scripts/s3_upload.py:144 | Reading back the decimal rendering of a number gives the number. |

## Left out

- Floating-point rounding: `round(x, 2)` of the scores is not modelled. Scores are exact reals, and the bands are decided on the exact value.
- Console output, column padding, the log lines and the scorecard JSON file written to disk are not modelled. Decisions encoded in the output are modelled: bands, recommendations, the two notes and the failed-expectation lines (`Scorecard.Describe`).
- The scorecard's validation run (context, datasource, validator) is an input: the list of results.
- Subprocess execution, HTTP POSTs, YAML parsing, file reads and boto3 calls are inputs or oracles, as listed above. The query's SQL runs in the warehouse and is not modelled.
- `load_dbt_results`: a results file that exists but is not valid JSON makes the source raise. The model only has "no results" or a list of statuses. A results entry that is not a mapping (which would raise in `get_test_summary`) is not modelled either.
- Profiles.Field: a profile field holding a non-text value (null, a number, a list) reads as "". The source passes the value itself on. Consequences: the gate treats a numeric account or password as missing, and the connection URL never shows "None" or a number.
- SnowflakeConfig.ConfigureSnowflake: installing the warehouse driver on demand, the framework import check and the console lines are not modelled. The framework is assumed to register a datasource under its name, replacing any left behind by a failed delete.
- SlackAlert.BuildPayload: the attachment's `ts` (the script file's modification time) is not modelled.
- `S3Upload.UploadFileToS3`: the source verifies an upload only by reading its metadata back; it logs `ContentLength` but compares no sizes. The model follows the code. The stored object records the local file's size, but no size comparison decides the result.
- `S3Upload.RunS3Upload`: every `datetime.now()` call is an input of one `Clock`. All files of a run therefore share one upload date, and the manifest key's stamp is an input string, not derived from the timestamp. A manifest put that raises ends the source with a traceback; the model reports it as `manifestStored == false`. Creating the client itself failing is treated like any other non-client error of the bucket check.
- `S3Upload.InitializeBucket`: a bucket name already taken by another account is only logged, and the script goes on. The model states this behaviour as written.
- EnhancedPipeline.RunEnhancedPipeline: the warnings guarded by a failed "continue on error" step can never be recorded (`EnhancedPipeline.ContinueOnErrorNeverFails`). The model keeps those branches as the source has them, and the contract states which warning does occur. Changing the working directory and printing the timestamp are not modelled.
