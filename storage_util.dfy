/** The gateway's `util.upload`: store the video in GridFS, build the job
    `{video_fid, mp3_fid: None, username}`, publish it persistently to the
    `video` queue, and delete the stored video again if the publish fails. */
module StorageUtil {
  import opened PyRuntime
  import opened ObjectIds
  import opened Jobs
  import opened Services

  const VideoQueue: string := "video"
  const InternalError: Reply := Reply("internal server error", 500)

  /** What the outside world does during one call: the id `ObjectId()`
      generates for the new file, whether MongoDB is reachable for the put,
      whether the broker accepts the publish, and whether MongoDB is still
      reachable for the compensating delete. */
  datatype UploadEnv = UploadEnv(newId: ObjectId, storeReachable: bool, accepted: bool, deleteSucceeds: bool)

  /** The job published for a stored video. */
  function VideoJob(fid: ObjectId, username: Json): Message {
    Message("", VideoQueue, Job(Str(fid), None, username), PersistentDeliveryMode)
  }

  /** The `except` branch after a failed publish, with `f` already stored
      under the new id: `fs.delete(fid)` and 500, or, when the delete itself
      raises, that exception with the file still stored. */
  function Compensated(s: Store, f: Blob, env: UploadEnv): Effect<Option<Reply>> {
    var stored := s.files[env.newId := f];
    if !env.deleteSucceeds then Effect(Raise(StorageUnavailable), Store(stored, s.published))
    else Effect(Return(Some(InternalError)), Store(stored - {env.newId}, s.published))
  }

  /** `upload(f, fs, channel, access)` as written: returns None on success,
      `("internal server error", 500)` on a failed put or publish, and raises
      KeyError when the claims carry no username (after the put). */
  function UploadEffect(s: Store, f: Blob, channel: Option<Channel>, access: map<string, Json>, env: UploadEnv)
    : Effect<Option<Reply>>
  {
    if !env.storeReachable || env.newId in s.files then
      Effect(Return(Some(InternalError)), s)
    else
      var stored := s.files[env.newId := f];
      if "username" !in access then
        Effect(Raise(KeyError("username")), Store(stored, s.published))
      else if channel.Some? && env.accepted then
        Effect(Return(None), Store(stored, s.published + [VideoJob(env.newId, access["username"])]))
      else
        Compensated(s, f, env)
  }

  method Upload(f: Blob, fs: GridFs, broker: Broker, channel: Option<Channel>, access: map<string, Json>, env: UploadEnv)
    returns (r: Outcome<Option<Reply>>)
    modifies fs, broker
    ensures Effect(r, Store(fs.files, broker.published))
         == UploadEffect(Store(old(fs.files), old(broker.published)), f, channel, access, env)
  {
    var put := fs.Put(f, env.newId, env.storeReachable);
    if put.Raise? {
      return Return(Some(InternalError));
    }
    var fid := put.value;
    if "username" !in access {
      return Raise(KeyError("username"));
    }
    var message := Job(Str(fid), None, access["username"]);
    var sent := broker.BasicPublish(channel, "", VideoQueue, message, PersistentDeliveryMode, env.accepted);
    if sent.Raise? {
      var deleted := fs.Delete(fid, env.deleteSucceeds);
      if deleted.Raise? {
        return Raise(deleted.exc);
      }
      return Return(Some(InternalError));
    }
    return Return(None);
  }

  /** A failed put answers 500, publishes nothing and leaves the bucket as it was. */
  lemma PutFailureChangesNothing(s: Store, f: Blob, channel: Option<Channel>, access: map<string, Json>, env: UploadEnv)
    requires !env.storeReachable || env.newId in s.files
    ensures UploadEffect(s, f, channel, access, env) == Effect(Return(Some(InternalError)), s)
  {
  }

  /** On success exactly one message is appended: to the `video` queue on the
      default exchange, persistent, naming `str(fid)` of the new file, with no
      mp3 yet and the claims' username; the new file stays stored. */
  lemma SuccessPublishesOneVideoJob(s: Store, f: Blob, channel: Option<Channel>, access: map<string, Json>, env: UploadEnv)
    ensures var e := UploadEffect(s, f, channel, access, env);
      e.outcome == Return(None) ==>
        && env.newId !in s.files
        && e.after.files == s.files[env.newId := f]
        && |e.after.published| == |s.published| + 1
        && e.after.published[..|s.published|] == s.published
        && var m := e.after.published[|s.published|];
           && m.exchange == "" && m.routingKey == "video" && m.deliveryMode == PersistentDeliveryMode
           && m.body.videoFid == Str(env.newId) && m.body.mp3Fid == None
           && "username" in access && m.body.username == access["username"]
  {
  }

  /** A rejected publish deletes the file just stored, so the bucket returns to
      its previous contents, nothing is published, and the answer is 500; if
      that delete raises, the exception escapes with the file still stored. */
  lemma PublishFailureCompensates(s: Store, f: Blob, channel: Option<Channel>, access: map<string, Json>, env: UploadEnv)
    requires env.storeReachable && env.newId !in s.files && "username" in access
    requires channel.None? || !env.accepted
    ensures env.deleteSucceeds ==> UploadEffect(s, f, channel, access, env) == Effect(Return(Some(InternalError)), s)
    ensures !env.deleteSucceeds ==>
              UploadEffect(s, f, channel, access, env) == Effect(Raise(StorageUnavailable), Store(s.files[env.newId := f], s.published))
  {
    assert s.files[env.newId := f] - {env.newId} == s.files;
  }

  /** Whatever happens, no file other than the new one is added, changed or
      removed: compensation deletes `fid` only. */
  lemma OnlyTheNewFileChanges(s: Store, f: Blob, channel: Option<Channel>, access: map<string, Json>, env: UploadEnv)
    ensures var after := UploadEffect(s, f, channel, access, env).after.files;
      && (forall id | id in s.files :: id in after && after[id] == s.files[id])
      && (forall id | id in after && id != env.newId :: id in s.files)
  {
  }

  /** The per-call outcomes: either the call returned None, the new file is
      stored and exactly one job on the `video` queue names it; or it returned
      an error and no new file survives; or the compensating delete raised and
      the new file stays stored with no job naming it. Given a username claim. */
  lemma {:induction false} UploadIsAtomic(s: Store, f: Blob, channel: Option<Channel>, access: map<string, Json>, env: UploadEnv)
    requires "username" in access
    requires Committed(s.files, s.published, VideoQueue, VideoRef)
    ensures var e := UploadEffect(s, f, channel, access, env);
      || (&& e.outcome == Return(None)
          && env.newId in e.after.files && env.newId !in s.files
          && RefCount(e.after.published, VideoQueue, VideoRef, Str(env.newId)) == 1)
      || (&& e.outcome == Return(Some(InternalError))
          && e.after == s)
      || (&& e.outcome == Raise(StorageUnavailable) && !env.deleteSucceeds
          && env.newId !in s.files && e.after == Store(s.files[env.newId := f], s.published)
          && RefCount(e.after.published, VideoQueue, VideoRef, Str(env.newId)) == 0)
  {
    var e := UploadEffect(s, f, channel, access, env);
    if env.storeReachable && env.newId !in s.files {
      FreshIdUnreferenced(s.files, s.published, VideoQueue, VideoRef, env.newId);
      if e.outcome == Return(None) {
        RefCountAppend(s.published, VideoJob(env.newId, access["username"]), VideoQueue, VideoRef, Str(env.newId));
      } else {
        PublishFailureCompensates(s, f, channel, access, env);
      }
    }
  }

  /** Blob/job atomicity over the whole video bucket and `video` queue holds
      after every call that starts from it, given a username claim, except
      when the compensating delete raises: then the only change is the new
      file, left stored. */
  lemma UploadKeepsAtomic(s: Store, f: Blob, channel: Option<Channel>, access: map<string, Json>, env: UploadEnv)
    requires "username" in access
    requires Atomic(s.files, s.published, VideoQueue, VideoRef)
    ensures var e := UploadEffect(s, f, channel, access, env);
      || Atomic(e.after.files, e.after.published, VideoQueue, VideoRef)
      || (&& e.outcome == Raise(StorageUnavailable) && !env.deleteSucceeds
          && e.after == Store(s.files[env.newId := f], s.published))
  {
    var e := UploadEffect(s, f, channel, access, env);
    if e.outcome == Return(None) {
      PublishFreshKeepsAtomic(s.files, s.published, VideoQueue, VideoRef, env.newId, f, VideoJob(env.newId, access["username"]));
    } else if env.storeReachable && env.newId !in s.files {
      PublishFailureCompensates(s, f, channel, access, env);
    }
  }

  /** As written, claims without a username raise KeyError after the put and
      before the guarded publish: the video stays stored and no job names it. */
  lemma MissingUsernameOrphansVideo(s: Store, f: Blob, channel: Option<Channel>, access: map<string, Json>, env: UploadEnv)
    requires "username" !in access
    requires env.storeReachable && env.newId !in s.files
    requires Committed(s.files, s.published, VideoQueue, VideoRef)
    ensures var e := UploadEffect(s, f, channel, access, env);
      && e.outcome == Raise(KeyError("username"))
      && env.newId in e.after.files
      && e.after.published == s.published
      && RefCount(e.after.published, VideoQueue, VideoRef, Str(env.newId)) == 0
      && !Atomic(e.after.files, e.after.published, VideoQueue, VideoRef)
  {
    FreshIdUnreferenced(s.files, s.published, VideoQueue, VideoRef, env.newId);
  }

  /** As written, a compensating `fs.delete(fid)` that raises leaves the video
      stored with no job naming it, and the caller gets the exception instead
      of the 500 reply. */
  lemma FailedDeleteOrphansVideo(s: Store, f: Blob, channel: Option<Channel>, access: map<string, Json>, env: UploadEnv)
    requires "username" in access
    requires env.storeReachable && env.newId !in s.files
    requires channel.None? || !env.accepted
    requires !env.deleteSucceeds
    requires Committed(s.files, s.published, VideoQueue, VideoRef)
    ensures var e := UploadEffect(s, f, channel, access, env);
      && e.outcome == Raise(StorageUnavailable)
      && env.newId in e.after.files
      && e.after.published == s.published
      && RefCount(e.after.published, VideoQueue, VideoRef, Str(env.newId)) == 0
      && !Atomic(e.after.files, e.after.published, VideoQueue, VideoRef)
  {
    FreshIdUnreferenced(s.files, s.published, VideoQueue, VideoRef, env.newId);
  }

  /** Counterexample: empty bucket and queue, claims `{"admin": true}`. */
  lemma OrphanExample(f: Blob, id: ObjectId)
    ensures var e := UploadEffect(Store(map[], []), f, Some(Channel(0)), map["admin" := JBool(true)], UploadEnv(id, true, true, true));
      e.outcome.Raise? && e.after.files == map[id := f] && e.after.published == []
  {
  }

  /** `upload` with the job built inside the guarded block, as the compensation
      evidently intends: a missing username is handled like a failed publish. */
  function GuardedUploadEffect(s: Store, f: Blob, channel: Option<Channel>, access: map<string, Json>, env: UploadEnv)
    : Effect<Option<Reply>>
  {
    if !env.storeReachable || env.newId in s.files then
      Effect(Return(Some(InternalError)), s)
    else if "username" in access && channel.Some? && env.accepted then
      Effect(Return(None), Store(s.files[env.newId := f], s.published + [VideoJob(env.newId, access["username"])]))
    else
      Compensated(s, f, env)
  }

  /** The two versions differ only on claims without a username: with one,
      they agree, and without one the guarded version publishes nothing,
      never succeeds, and stores nothing unless its delete raises. */
  lemma GuardedUploadAgrees(s: Store, f: Blob, channel: Option<Channel>, access: map<string, Json>, env: UploadEnv)
    ensures "username" in access ==> GuardedUploadEffect(s, f, channel, access, env) == UploadEffect(s, f, channel, access, env)
    ensures "username" !in access ==>
              var g := GuardedUploadEffect(s, f, channel, access, env);
              && g.after.published == s.published && g.outcome != Return(None)
              && (env.deleteSucceeds ==> g == Effect(Return(Some(InternalError)), s))
  {
    if env.storeReachable && env.newId !in s.files {
      assert s.files[env.newId := f] - {env.newId} == s.files;
    }
  }

  /** The guarded upload keeps atomicity for every claim set, except when its
      compensating delete raises. */
  lemma GuardedUploadKeepsAtomic(s: Store, f: Blob, channel: Option<Channel>, access: map<string, Json>, env: UploadEnv)
    requires Atomic(s.files, s.published, VideoQueue, VideoRef)
    ensures var e := GuardedUploadEffect(s, f, channel, access, env);
      || Atomic(e.after.files, e.after.published, VideoQueue, VideoRef)
      || (&& e.outcome == Raise(StorageUnavailable) && !env.deleteSucceeds
          && e.after == Store(s.files[env.newId := f], s.published))
  {
    var e := GuardedUploadEffect(s, f, channel, access, env);
    if e.outcome == Return(None) {
      PublishFreshKeepsAtomic(s.files, s.published, VideoQueue, VideoRef, env.newId, f, VideoJob(env.newId, access["username"]));
    } else if env.storeReachable && env.newId !in s.files {
      assert s.files[env.newId := f] - {env.newId} == s.files;
    }
  }
}
