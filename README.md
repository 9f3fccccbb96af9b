# mp3_converter in Dafny

A model of the video-to-mp3 pipeline's core. The pipeline has four services.
The gateway stores an uploaded video in a GridFS bucket and publishes a job for it on the `video` queue.
The converter fetches that video and stores the transcoded mp3 in a second bucket.
It then publishes the job, now carrying `mp3_fid`, on the mp3 queue.
The auth service keeps an email→password-hash table, and its tokens gate the gateway's routes.

Both producers follow the same store-then-publish pattern: put the blob, publish one job naming it, and delete the blob again if the publish fails.
The model's central invariant is blob/job atomicity (`Jobs.Atomic`).
It holds for one bucket and the queue that hands its blobs on, and has two parts:
- every stored blob is named by exactly one job on that queue;
- every job on that queue names a stored blob.

The proofs show that both producers keep this invariant, unless the compensating delete or the converter's clean-up after the put raises, or the gateway's claims lack a username; separate lemmas show the orphaned blob each of these leaves.
They also prove the ordered error ladders of `/signup`, `/login`, `/upload` and `/download`.

Modules:
- `PyRuntime` covers the Python notions the code relies on:
  - decoded JSON values and their truth test;
  - `dict.get`, `in` and `len`;
  - exceptions, and a call that returns or raises (`Outcome`);
  - Flask's `(body, status)` tuples.
- `ObjectIds` models bson ObjectIds as 12 bytes. `Str` is `str(oid)` and `Parse` is `ObjectId(s)`. `Parse(Str(id)) == Some(id)` is proved.
- `Jobs` defines the job record, published messages, the bucket-plus-queue `Store`, and the atomicity invariant with its shared lemmas.
- `Services` holds the GridFS bucket (`GridFs`) and the broker (`Broker`). Both are classes whose methods update their fields.
- `StorageUtil` models the gateway's `util.upload`.
- `ToMp3` models the converter's `start`.
- `AuthServer` models `signup`, `login` and `createJWT`, with the user table as a class.
- `GatewayServer` models the cached connection and channel, the `/upload` route with its loop over files, and `/download`.

Each imperative operation is a method whose `ensures` ties the result and the new state to a pure function of the old state.
These methods are `StorageUtil.Upload`, `ToMp3.Start`, `UserTable.Signup`, `UserTable.Login`, `Gateway.GetRabbitmqChannel` and `Gateway.Upload`.
The matching pure functions are `UploadEffect`, `StartEffect`, `SignupEffect`, `LoginResult`, `AcquireChannel` and `UploadRoute`.
The properties are proved as lemmas about those functions.

Parameters stand in for what the outside world decides:
- the id `ObjectId()` generates;
- whether MongoDB, MySQL or RabbitMQ answers, separately for each call that can fail (get, put, delete, publish);
- whether the intermediate mp3 file is closed and removed;
- whether `request.get_json()` produces a body. Since Werkzeug 2.1 it raises on a missing JSON content type or a malformed body;
- whether a publish is accepted;
- the transcoding (`transcode: Blob -> Option<Blob>`);
- the password hash (`hash: string -> string`);
- the current time and the JWT secret;
- the `(access, err)` pair from token validation, and what `json.loads(access)` yields.

## Model

| member | source | states |
|---|---|---|
| Services.GridFs.Put | python/src/gateway/storage/util.py:6 | `fs.put` stores the blob under the freshly generated id, or raises and leaves the bucket unchanged |
| Services.GridFs.Get | python/src/converter/convert/to_mp3.py:15 | `fs.get` raises when MongoDB is unreachable and NoFile when the id is absent; otherwise it returns the stored blob; it never changes the bucket |
| Services.GridFs.Delete | python/src/gateway/storage/util.py:31 | `fs.delete(fid)` removes exactly `fid`, or raises with the bucket unchanged when MongoDB is unreachable |
| Services.Broker.BasicPublish | python/src/gateway/storage/util.py:20-27 | an accepted publish appends exactly one message with the given exchange, routing key, body and delivery mode; a rejected one, or one on a `None` channel, raises and appends nothing |
| ObjectIds.Str | python/src/gateway/storage/util.py:13 | `str(fid)` is 24 hex digits |
| ObjectIds.Parse | python/src/converter/convert/to_mp3.py:15 | `ObjectId(s)` succeeds exactly on 24-hex-digit strings |
| ObjectIds.ParseStr | python/src/converter/convert/to_mp3.py:15 | parsing the `video_fid` the gateway wrote with `str(fid)` gives back that id |
| ObjectIds.StrInjective | python/src/gateway/storage/util.py:13 | distinct ids never share a `str` rendering |
| Jobs.PublishFreshKeepsAtomic | python/src/gateway/storage/util.py:6-28 | storing a fresh blob and publishing one job naming it keeps atomicity |
| Jobs.OtherQueueKeepsAtomic | python/src/converter/convert/to_mp3.py:38-46 | a message on another queue does not disturb a queue's atomicity |
| StorageUtil.Upload | python/src/gateway/storage/util.py:3-34 | the method's return value and new bucket and queue are exactly those of `UploadEffect` |
| StorageUtil.PutFailureChangesNothing | python/src/gateway/storage/util.py:4-10 | a failed put answers ("internal server error", 500) with the bucket and queue unchanged |
| StorageUtil.SuccessPublishesOneVideoJob | python/src/gateway/storage/util.py:12-34 | on success exactly one message is appended: default exchange, routing key `video`, persistent, naming `str(fid)`, with `mp3_fid` None and the claims' username, and the new blob stays |
| StorageUtil.PublishFailureCompensates | python/src/gateway/storage/util.py:29-32 | a rejected or impossible publish deletes the new blob, so the state returns to the pre-call state, and answers 500; if that delete raises, the exception escapes with the blob still stored |
| StorageUtil.OnlyTheNewFileChanges | python/src/gateway/storage/util.py:31 | no blob other than the new one is added, changed or removed |
| StorageUtil.UploadIsAtomic | python/src/gateway/storage/util.py:3-34 | given a username claim, one of three outcomes: None, with the new blob stored and exactly one job naming it; 500, with the state unchanged; or the compensating delete raised, leaving the new blob stored with no job naming it |
| StorageUtil.UploadKeepsAtomic | python/src/gateway/storage/util.py:3-34 | given a username claim, atomicity of the video bucket and the `video` queue holds after every call, unless the compensating delete raised; then the only change is the new blob |
| StorageUtil.MissingUsernameOrphansVideo | python/src/gateway/storage/util.py:6-16 | as written, claims without a username raise KeyError after the put: the video stays stored and no job names it |
| StorageUtil.FailedDeleteOrphansVideo | python/src/gateway/storage/util.py:29-32 | as written, a compensating `fs.delete(fid)` that raises leaves the video stored with no job naming it, breaks atomicity, and yields the exception instead of 500 |
| StorageUtil.OrphanExample | python/src/gateway/storage/util.py:15 | a concrete case: empty bucket, claims `{"admin": true}`, and the upload leaves an unreferenced blob |
| StorageUtil.GuardedUploadAgrees | python/src/gateway/storage/util.py:12-32 | with the job built inside the guarded block, the result equals the as-written one whenever a username is present; without one, nothing is published, the call never succeeds, and nothing is stored unless the delete raises |
| StorageUtil.GuardedUploadKeepsAtomic | python/src/gateway/storage/util.py:12-32 | the guarded upload keeps atomicity for every claim set, unless its compensating delete raises |
| ToMp3.Start | python/src/converter/convert/to_mp3.py:5-51 | the video bucket is unchanged, and the return value and new mp3 bucket and queue are exactly those of `StartEffect` |
| ToMp3.FetchesByVideoFid | python/src/converter/convert/to_mp3.py:15 | a malformed or unknown `video_fid`, or a MongoDB that does not answer the lookup, raises before anything is stored; what gets stored is the transcoding of exactly that video |
| ToMp3.ConvertsTheUploadedVideo | python/src/converter/convert/to_mp3.py:15 | for a job the gateway published for video `v`, the stored mp3 is the transcoding of the blob under `v` |
| ToMp3.SuccessForwardsJob | python/src/converter/convert/to_mp3.py:32-46 | on success the mp3 gets a fresh id, and exactly one message goes to MP3_QUEUE: default exchange, persistent, the incoming job with only `mp3_fid` set to `str(fid)` |
| ToMp3.PublishFailureCompensates | python/src/converter/convert/to_mp3.py:47-51 | a failed publish deletes the new mp3, leaves the state as before, and returns "failed to publish message"; if that delete raises, the exception escapes with the mp3 still stored |
| ToMp3.Mp3BucketGrowsByAtMostOne | python/src/converter/convert/to_mp3.py:32-48 | the mp3 bucket gains at most the one new id, and no existing mp3 is removed or changed |
| ToMp3.RetryStartsFromSameState | python/src/converter/convert/to_mp3.py:32-51 | an attempt that did not succeed leaves no trace, so a second attempt runs from the original state; the exception is a failed clean-up after the put, which leaves exactly one unpublished mp3 |
| ToMp3.StartKeepsAtomic | python/src/converter/convert/to_mp3.py:32-51 | atomicity of the mp3 bucket and the mp3 queue, keyed by `mp3_fid`, holds after every call, unless the clean-up after the put raised; then the only change is the new mp3 |
| ToMp3.FailedCleanupOrphansMp3 | python/src/converter/convert/to_mp3.py:32-51 | as written, a raising `f.close()`, `os.remove(tf_path)` or compensating `fs_mp3s.delete(fid)` leaves the mp3 stored with no job naming it and breaks atomicity |
| ToMp3.StartKeepsVideoQueueAtomic | python/src/converter/convert/to_mp3.py:38-46 | on the shared broker, a conversion publishing to an mp3 queue other than `video` keeps the video bucket and `video` queue atomic |
| ToMp3.TempPathDeterminedByFid | python/src/converter/convert/to_mp3.py:24 | the intermediate path starts with the temp dir, ends in ".mp3", and is determined by `video_fid` alone |
| ToMp3.TempPathLeavesTempDir | python/src/converter/convert/to_mp3.py:24 | with temp dir "/tmp", the path is "/tmpabc.mp3", which is not inside "/tmp/" |
| ToMp3.JoinedTempPathInsideDir | python/src/converter/convert/to_mp3.py:24 | the path joined with a separator lies inside the temp dir, names `video_fid + ".mp3"`, and is injective in `video_fid` |
| AuthServer.CreateJwt | python/src/auth/server.py:100-111 | the payload carries the username, `admin = authz`, `iat = now` and `exp = now + 1 day`; it is signed with the secret using HS256 |
| AuthServer.CheckSignup | python/src/auth/server.py:19-34 | the body passes exactly when it is a dict whose `email` and `password` are present and truthy, the email contains '@' and '.', and the password has length at least 6; it then hands on those two values; every rejection is 400 for presence, format or length, or 500 when `get_json`, `in` or `len` raises |
| AuthServer.UserTable.Signup | python/src/auth/server.py:17-55 | the reply and the new table are exactly those of `SignupEffect` |
| AuthServer.UserTable.Login | python/src/auth/server.py:57-80 | the response is exactly `LoginResult` on the current table, and the table is not changed |
| AuthServer.SignupWithoutJsonFails | python/src/auth/server.py:19-55 | a request whose JSON body `get_json` cannot produce (it raises) gets the catch-all ("internal server error", 500) with the table unchanged |
| AuthServer.SignupRequiresBoth | python/src/auth/server.py:22-23 | a falsy JSON body, or a dict whose email or password is missing or falsy, gets ("email and password are required", 400) with the table unchanged |
| AuthServer.SignupRejectsBadEmail | python/src/auth/server.py:29-30 | for any dict body, once both are present, an email lacking '@' or '.' gets ("invalid email format", 400), whatever the password, the other keys and the table |
| AuthServer.SignupRejectsShortPassword | python/src/auth/server.py:33-34 | for any dict body, after the format check, a password shorter than 6 gets 400, even for a taken email |
| AuthServer.SignupRejectsDuplicate | python/src/auth/server.py:38-42 | for any dict body, a valid request for an existing email gets 409 and leaves the table unchanged |
| AuthServer.SignupCreatesIff | python/src/auth/server.py:17-55 | 201 exactly when all checks pass and the email is new; it then inserts exactly `(email, hash(password))` and grows the table by one; every other reply leaves the table unchanged |
| AuthServer.LoginIssuesTokenIff | python/src/auth/server.py:59-80 | a token exactly when credentials are present, the database answers, a row exists and the hashes match; the token is for that username with `admin` set; missing credentials and mismatches get 401 |
| AuthServer.SignupThenLogin | python/src/auth/server.py:45-108 | after a 201 signup with any dict body whose email is `e` and password `p`, logging in with `(e, p)` yields a token with `username = e`, `admin = True` and `exp = iat + 1 day` |
| GatewayServer.AcquireReusesOpenConnection | python/src/gateway/server.py:20-25 | a new connection opens only when none is cached or the cached one is closed; otherwise the cached channel is returned and nothing changes; a failed connect leaves the cache unchanged |
| GatewayServer.Gateway.GetRabbitmqChannel | python/src/gateway/server.py:17-25 | the returned channel and the new globals are exactly those of `AcquireChannel` |
| GatewayServer.UploadGate | python/src/gateway/server.py:37-67 | the request is admitted exactly when there is no token error, the access is non-empty and parses to a dict, the `admin` claim is truthy and exactly one file came |
| GatewayServer.UploadGateOrder | python/src/gateway/server.py:39-67 | the order of the checks: token error as-is, empty access 401, unparsable access 500, falsy `admin` 401, and only then the file count 400 |
| GatewayServer.RejectedUploadChangesNothing | python/src/gateway/server.py:39-67 | a rejected request stores nothing, publishes nothing and leaves the connection cache unchanged |
| GatewayServer.UploadFilesKeepsExisting | python/src/gateway/server.py:70-75 | the loop over files never alters a stored video and only appends to the queue |
| GatewayServer.UploadFilesSuccess | python/src/gateway/server.py:70-77 | ("success!", 200) only if every `util.upload` returned None; then each file is stored under its fresh id and exactly one job per file, in order, is appended |
| GatewayServer.UploadFilesKeepsAtomic | python/src/gateway/server.py:70-75 | given a username claim, the loop keeps the video bucket and queue atomic, unless a compensating delete raised, which ends the request with that exception |
| GatewayServer.UploadRouteOneFile | python/src/gateway/server.py:37-77 | an admitted request has one file; success appends exactly its job; anything else is the 500 from `util.upload` or an uncaught exception; atomicity is kept unless the compensating delete raised |
| GatewayServer.Gateway.Upload | python/src/gateway/server.py:37-77 | the response, the connection globals, the video bucket and the queue are exactly those of `UploadRoute` |
| GatewayServer.DownloadResponse | python/src/gateway/server.py:79-101 | no exception escapes the view; every reply is the token error, 400, 401 or 500; a file is sent only when MongoDB answered and the blob is the one stored under the requested id |
| GatewayServer.DownloadLadder | python/src/gateway/server.py:79-101 | token error as-is; admin without `fid` 400; non-admin 401; a file is sent exactly when an admin names a stored mp3 by a valid id while MongoDB answers, under the name `fid + ".mp3"`; a MongoDB outage on that read, and every other case, gives 500 |
| GatewayServer.DownloadServesStoredMp3 | python/src/gateway/server.py:87-99 | an mp3 stored under `fid` is served for `str(fid)` while MongoDB answers; otherwise the request gets ("internal server error", 500) |

## Left out

- Flask, MongoDB/GridFS, MySQL and RabbitMQ are replaced by values: a map for each bucket, a sequence for the accepted messages, a map for the user table, and parameters for reachability and publish acceptance.
- JSON encoding of the job and `json.loads(message)` in the converter are not modelled. The job is a record, and `start` receives it decoded.
- `json.loads(access)` in the gateway is given as a parameter, with None standing for a decode error.
- sha256 hashing is the abstract function `hash`, and JWT encoding is the abstract record `Jwt`.
- `validate.token` and `access.login` are not modelled: they only relay the auth service over HTTP. `/validate` and the gateway's `/login` passthrough are left out for the same reason.
- moviepy, the temporary video file, writing the mp3 and reading it back are the abstract `transcode`. These steps all come before the put, so a failure there stores nothing. Closing and removing the mp3 file come after the put and are the `tempRemoved` flag. The intermediate mp3 path is modelled on its own by `Mp3TempPath`.
- The converter's consumer loop, acknowledgement and redelivery are not part of the modelled code. The notification service is not part of this model either.
- `verify_connections` and all `print` logging are I/O and are left out.
- Concurrent requests sharing the global connection are left out; there is no lock in the code.
- Floats in JSON are not modelled.
- The `request.files` multi-dict is a sequence of blobs: one entry per file key.
- `bytes.fromhex`-style leniency of bson (whitespace, 12-byte `bytes` arguments) is not modelled. `ObjectId(s)` on a string accepts exactly 24 hex digits.
- Sizes and contents of blobs are not inspected anywhere.
- AuthServer.CreateJwt: `datetime.now` is read twice in the source; the model uses one `now` for both, so `exp - iat` is exactly one day.
- AuthServer.LoginResult, AuthServer.SignupEffect, AuthServer.SignupRejectsDuplicate: MySQL's case-insensitive collation is not modelled; emails are compared exactly, both in the signup duplicate lookup and in the login lookup. With exact matching, the login check `auth.username != email` can never fire, so it does not appear.
- AuthServer.SignupEffect: a non-string email that passes `in` and `len` (a list or a dict) reaches the SELECT, which is assumed to raise and yield the catch-all 500. A non-string password with a string email gets through the SELECT, so a taken email still gets 409; otherwise `password.encode()` raises AttributeError and yields the 500. `JWT_SECRET` is taken to be a string.
- StorageUtil.UploadKeepsAtomic: holds only for claims carrying `username`. Tokens issued by `createJWT` always carry it. Without one, the as-written code orphans the blob (see Findings).
- StorageUtil.UploadIsAtomic, StorageUtil.UploadKeepsAtomic, StorageUtil.GuardedUploadKeepsAtomic: atomicity is not promised when the compensating `fs.delete(fid)` raises. It runs inside the `except` branch, so its exception escapes and the blob stays; `StorageUtil.FailedDeleteOrphansVideo` shows the orphan.
- ToMp3.StartKeepsAtomic, ToMp3.RetryStartsFromSameState: neither is promised when `f.close()` or `os.remove(tf_path)` raises after the put, or when the compensating `fs_mp3s.delete(fid)` raises. The mp3 then stays stored and unpublished; `ToMp3.FailedCleanupOrphansMp3` shows it.
- GatewayServer.UploadFilesKeepsAtomic, GatewayServer.UploadRouteOneFile: inherit the same exception, and the request ends with the delete's exception.
- ToMp3.Start: `MP3_QUEUE` unset is modelled as a publish that raises, which the code's `except` turns into compensation.

## Findings

| source | as written | input that shows it | evidently intended | confidence | as-written member | corrected member |
|---|---|---|---|---|---|---|
| python/src/gateway/storage/util.py:15 | the job reads `access["username"]` after `fs.put` and outside both `try` blocks, so a KeyError escapes and the stored video is never deleted | claims `{"admin": true}` with no `username`, on an empty bucket: one blob stored, no job names it | a failure to build the job is compensated like a failed publish, so no blob is left unreferenced | low, not executed: tokens from `createJWT` always carry `username` | StorageUtil.MissingUsernameOrphansVideo | StorageUtil.GuardedUploadKeepsAtomic |
| python/src/converter/convert/to_mp3.py:24 | the intermediate path is `gettempdir() + video_fid + ".mp3"`, with no separator | temp dir "/tmp" and fid "abc" give "/tmpabc.mp3", a file in "/" rather than in "/tmp" | `os.path.join(gettempdir(), video_fid + ".mp3")`, a file inside the temp dir | medium, not executed | ToMp3.TempPathLeavesTempDir | ToMp3.JoinedTempPathInsideDir |

The gateway route uses the as-written `util.upload`. `StorageUtil.GuardedUploadAgrees` shows that the two versions coincide whenever the claims carry a username.
The intermediate path does not influence the rest of the model, because the mp3 written there is read back whole.
