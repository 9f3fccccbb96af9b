/** The converter's `start`: fetch the video a job names, transcode it, store
    the mp3, set the job's `mp3_fid`, publish it persistently to the mp3 queue,
    and delete the stored mp3 again if the publish fails. The video bucket is
    only read. Transcoding, the temporary video file, writing the mp3 and
    reading it back are the opaque `transcode`; closing and removing the mp3
    file, which happen after the put, are a flag of the environment. */
module ToMp3 {
  import opened PyRuntime
  import opened ObjectIds
  import opened Jobs
  import opened Services
  import StorageUtil

  const PublishFailed: string := "failed to publish message"

  /** What the outside world does during one call, in the order the code
      meets it: whether MongoDB is reachable for fetching the video, the id
      `ObjectId()` generates for the mp3, whether MongoDB is reachable for the
      put, whether `f.close()` and `os.remove(tf_path)`
      succeed, whether the broker accepts the publish, and whether MongoDB is
      still reachable for the compensating delete. */
  datatype ConvertEnv = ConvertEnv(fetchReachable: bool, newId: ObjectId, storeReachable: bool, tempRemoved: bool,
                                   accepted: bool, deleteSucceeds: bool)

  /** The job forwarded to the mp3 queue: the incoming one with `mp3_fid` set. */
  function Mp3Job(job: Job, fid: ObjectId, queue: string): Message {
    Message("", queue, job.(mp3Fid := Some(Str(fid))), PersistentDeliveryMode)
  }

  /** `start(message, fs_videos, fs_mp3s, channel)` on the decoded job, with
      `mp3Queue` the MP3_QUEUE setting (None when unset, on which publishing
      raises). Returns None on success and "failed to publish message" after
      compensating; every other failure raises, and one after the put (the
      file clean-up, or the compensating delete) leaves the mp3 stored. */
  function StartEffect(videos: map<ObjectId, Blob>, s: Store, job: Job, transcode: Blob -> Option<Blob>,
                       mp3Queue: Option<string>, env: ConvertEnv): Effect<Option<string>>
  {
    match Parse(job.videoFid)
    case None => Effect(Raise(InvalidId), s)
    case Some(vid) =>
      if !env.fetchReachable then Effect(Raise(StorageUnavailable), s)
      else if vid !in videos then Effect(Raise(NoFile), s)
      else
        match transcode(videos[vid])
        case None => Effect(Raise(TranscodeFailed), s)
        case Some(audio) =>
          if !env.storeReachable then Effect(Raise(StorageUnavailable), s)
          else if env.newId in s.files then Effect(Raise(FileExists), s)
          else
            var stored := s.files[env.newId := audio];
            if !env.tempRemoved then Effect(Raise(OsError), Store(stored, s.published))
            else if mp3Queue.Some? && env.accepted then
              Effect(Return(None), Store(stored, s.published + [Mp3Job(job, env.newId, mp3Queue.value)]))
            else if !env.deleteSucceeds then Effect(Raise(StorageUnavailable), Store(stored, s.published))
            else Effect(Return(Some(PublishFailed)), Store(stored - {env.newId}, s.published))
  }

  method Start(job: Job, videos: GridFs, mp3s: GridFs, broker: Broker, channel: Channel,
               transcode: Blob -> Option<Blob>, mp3Queue: Option<string>, env: ConvertEnv)
    returns (r: Outcome<Option<string>>)
    requires videos != mp3s
    modifies mp3s, broker
    ensures videos.files == old(videos.files)
    ensures Effect(r, Store(mp3s.files, broker.published))
         == StartEffect(old(videos.files), Store(old(mp3s.files), old(broker.published)), job, transcode, mp3Queue, env)
  {
    var vid := Parse(job.videoFid);
    if vid.None? {
      return Raise(InvalidId);
    }
    var out := videos.Get(vid.value, env.fetchReachable);
    if out.Raise? {
      return Raise(out.exc);
    }
    var audio := transcode(out.value);
    if audio.None? {
      return Raise(TranscodeFailed);
    }
    var put := mp3s.Put(audio.value, env.newId, env.storeReachable);
    if put.Raise? {
      return Raise(put.exc);
    }
    var fid := put.value;
    if !env.tempRemoved {
      return Raise(OsError);
    }
    var message := job.(mp3Fid := Some(Str(fid)));
    var sent: Outcome<()>;
    if mp3Queue.None? {
      sent := Raise(TypeError);
    } else {
      sent := broker.BasicPublish(Some(channel), "", mp3Queue.value, message, PersistentDeliveryMode, env.accepted);
    }
    if sent.Raise? {
      var deleted := mp3s.Delete(fid, env.deleteSucceeds);
      if deleted.Raise? {
        return Raise(deleted.exc);
      }
      return Return(Some(PublishFailed));
    }
    return Return(None);
  }

  /** The video is looked up by `ObjectId(job["video_fid"])`: a malformed or
      unknown id, or a MongoDB that does not answer the lookup, raises before
      anything is stored or published, and what gets stored is the transcoding
      of exactly that video. */
  lemma FetchesByVideoFid(videos: map<ObjectId, Blob>, s: Store, job: Job, transcode: Blob -> Option<Blob>,
                          mp3Queue: Option<string>, env: ConvertEnv)
    ensures var e := StartEffect(videos, s, job, transcode, mp3Queue, env);
      && (Parse(job.videoFid).None? ==> e == Effect(Raise(InvalidId), s))
      && (Parse(job.videoFid).Some? && !env.fetchReachable ==> e == Effect(Raise(StorageUnavailable), s))
      && (Parse(job.videoFid).Some? && env.fetchReachable && Parse(job.videoFid).value !in videos
          ==> e == Effect(Raise(NoFile), s))
      && (e.outcome == Return(None) ==>
            var vid := Parse(job.videoFid).value;
            env.fetchReachable && vid in videos && transcode(videos[vid]).Some?
            && e.after.files[env.newId] == transcode(videos[vid]).value)
  {
  }

  /** For a job published by the gateway for video `v`, the converter
      transcodes the blob stored under `v` itself. */
  lemma ConvertsTheUploadedVideo(videos: map<ObjectId, Blob>, s: Store, v: ObjectId, username: Json,
                                 transcode: Blob -> Option<Blob>, mp3Queue: Option<string>, env: ConvertEnv)
    requires v in videos
    ensures var e := StartEffect(videos, s, Job(Str(v), None, username), transcode, mp3Queue, env);
      e.outcome == Return(None) ==>
        transcode(videos[v]).Some? && e.after.files[env.newId] == transcode(videos[v]).value
  {
    ParseStr(v);
  }

  /** On success the mp3 is stored under a fresh id and exactly one message is
      appended: on the default exchange, to MP3_QUEUE, persistent, carrying the
      incoming job with only `mp3_fid` set to `str(fid)`. */
  lemma SuccessForwardsJob(videos: map<ObjectId, Blob>, s: Store, job: Job, transcode: Blob -> Option<Blob>,
                           mp3Queue: Option<string>, env: ConvertEnv)
    ensures var e := StartEffect(videos, s, job, transcode, mp3Queue, env);
      e.outcome == Return(None) ==>
        && mp3Queue.Some?
        && env.newId !in s.files && env.newId in e.after.files
        && |e.after.files| == |s.files| + 1
        && |e.after.published| == |s.published| + 1
        && e.after.published[..|s.published|] == s.published
        && var m := e.after.published[|s.published|];
           && m.exchange == "" && m.routingKey == mp3Queue.value && m.deliveryMode == PersistentDeliveryMode
           && m.body.videoFid == job.videoFid && m.body.username == job.username
           && m.body.mp3Fid == Some(Str(env.newId))
  {
  }

  /** A failed publish deletes the new mp3, leaving the bucket and the queue as
      they were, and returns "failed to publish message"; if that delete
      raises, the exception escapes with the mp3 still stored. */
  lemma PublishFailureCompensates(videos: map<ObjectId, Blob>, s: Store, job: Job, transcode: Blob -> Option<Blob>,
                                  mp3Queue: Option<string>, env: ConvertEnv)
    requires Parse(job.videoFid).Some? && env.fetchReachable && Parse(job.videoFid).value in videos
    requires transcode(videos[Parse(job.videoFid).value]).Some?
    requires env.storeReachable && env.newId !in s.files && env.tempRemoved
    requires mp3Queue.None? || !env.accepted
    ensures env.deleteSucceeds ==> StartEffect(videos, s, job, transcode, mp3Queue, env) == Effect(Return(Some(PublishFailed)), s)
    ensures !env.deleteSucceeds ==>
              StartEffect(videos, s, job, transcode, mp3Queue, env)
                == Effect(Raise(StorageUnavailable),
                          Store(s.files[env.newId := transcode(videos[Parse(job.videoFid).value]).value], s.published))
  {
    var audio := transcode(videos[Parse(job.videoFid).value]).value;
    assert s.files[env.newId := audio] - {env.newId} == s.files;
  }

  /** The mp3 bucket gains at most one net file per call, and no file that was
      there before is removed or changed. */
  lemma Mp3BucketGrowsByAtMostOne(videos: map<ObjectId, Blob>, s: Store, job: Job, transcode: Blob -> Option<Blob>,
                                  mp3Queue: Option<string>, env: ConvertEnv)
    ensures var after := StartEffect(videos, s, job, transcode, mp3Queue, env).after.files;
      && (forall id | id in s.files :: id in after && after[id] == s.files[id])
      && (after.Keys == s.files.Keys || after.Keys == s.files.Keys + {env.newId})
  {
    var e := StartEffect(videos, s, job, transcode, mp3Queue, env);
    if e.outcome == Return(Some(PublishFailed)) {
      var audio := transcode(videos[Parse(job.videoFid).value]).value;
      assert s.files[env.newId := audio] - {env.newId} == s.files;
    }
  }

  /** An attempt that did not succeed leaves no trace, so a redelivered job is
      converted from the same state as the env attempt, unless the clean-up
      after the put failed: then exactly one unpublished mp3 is left behind. */
  lemma RetryStartsFromSameState(videos: map<ObjectId, Blob>, s: Store, job: Job, transcode: Blob -> Option<Blob>,
                                 mp3Queue: Option<string>, env: ConvertEnv)
    requires StartEffect(videos, s, job, transcode, mp3Queue, env).outcome != Return(None)
    ensures var e := StartEffect(videos, s, job, transcode, mp3Queue, env);
      || e.after == s
      || (e.outcome.Raise? && (!env.tempRemoved || !env.deleteSucceeds) && OrphanedBy(s, e.after, env.newId))
  {
    var e := StartEffect(videos, s, job, transcode, mp3Queue, env);
    if e.outcome == Return(Some(PublishFailed)) {
      PublishFailureCompensates(videos, s, job, transcode, mp3Queue, env);
    }
  }

  /** Blob/job atomicity over the mp3 bucket and the mp3 queue (jobs naming
      their mp3 through `mp3_fid`) holds after every call, except when the
      clean-up after the put fails: then the only change is the new mp3. */
  lemma StartKeepsAtomic(videos: map<ObjectId, Blob>, s: Store, job: Job, transcode: Blob -> Option<Blob>,
                         mp3Queue: string, env: ConvertEnv)
    requires Atomic(s.files, s.published, mp3Queue, Mp3Ref)
    ensures var e := StartEffect(videos, s, job, transcode, Some(mp3Queue), env);
      || Atomic(e.after.files, e.after.published, mp3Queue, Mp3Ref)
      || (e.outcome.Raise? && (!env.tempRemoved || !env.deleteSucceeds) && OrphanedBy(s, e.after, env.newId))
  {
    var e := StartEffect(videos, s, job, transcode, Some(mp3Queue), env);
    if e.outcome == Return(None) {
      var audio := transcode(videos[Parse(job.videoFid).value]).value;
      PublishFreshKeepsAtomic(s.files, s.published, mp3Queue, Mp3Ref, env.newId, audio, Mp3Job(job, env.newId, mp3Queue));
    } else if e.outcome == Return(Some(PublishFailed)) {
      PublishFailureCompensates(videos, s, job, transcode, Some(mp3Queue), env);
    }
  }

  /** As written, when `os.remove(tf_path)` (or the close before it) raises,
      or the compensating `fs_mp3s.delete(fid)` raises, the exception escapes
      with the mp3 stored and no job naming it. */
  lemma FailedCleanupOrphansMp3(videos: map<ObjectId, Blob>, s: Store, job: Job, transcode: Blob -> Option<Blob>,
                                mp3Queue: Option<string>, env: ConvertEnv, queue: string)
    requires Parse(job.videoFid).Some? && env.fetchReachable && Parse(job.videoFid).value in videos
    requires transcode(videos[Parse(job.videoFid).value]).Some?
    requires env.storeReachable && env.newId !in s.files
    requires !env.tempRemoved || ((mp3Queue.None? || !env.accepted) && !env.deleteSucceeds)
    requires Committed(s.files, s.published, queue, Mp3Ref)
    ensures var e := StartEffect(videos, s, job, transcode, mp3Queue, env);
      && e.outcome.Raise? && OrphanedBy(s, e.after, env.newId)
      && RefCount(e.after.published, queue, Mp3Ref, Str(env.newId)) == 0
      && !Atomic(e.after.files, e.after.published, queue, Mp3Ref)
  {
    FreshIdUnreferenced(s.files, s.published, queue, Mp3Ref, env.newId);
  }

  /** The converter and the gateway share one broker: a conversion that
      publishes to an mp3 queue other than `video` keeps the atomicity of the
      video bucket (which it only reads) and the `video` queue. */
  lemma StartKeepsVideoQueueAtomic(videos: map<ObjectId, Blob>, s: Store, job: Job, transcode: Blob -> Option<Blob>,
                                   mp3Queue: string, env: ConvertEnv)
    requires mp3Queue != StorageUtil.VideoQueue
    requires Atomic(videos, s.published, StorageUtil.VideoQueue, VideoRef)
    ensures var e := StartEffect(videos, s, job, transcode, Some(mp3Queue), env);
      Atomic(videos, e.after.published, StorageUtil.VideoQueue, VideoRef)
  {
    var e := StartEffect(videos, s, job, transcode, Some(mp3Queue), env);
    if e.outcome == Return(None) {
      OtherQueueKeepsAtomic(videos, s.published, StorageUtil.VideoQueue, VideoRef, Mp3Job(job, env.newId, mp3Queue));
    }
  }

  // The intermediate mp3 file.

  /** `tempfile.gettempdir() + f"{video_fid}.mp3"` as written: no separator. */
  function Mp3TempPath(tempDir: string, videoFid: string): string {
    tempDir + videoFid + ".mp3"
  }

  /** The path starts with the temp dir's name, ends in ".mp3", and is
      determined by `video_fid` alone: two different jobs never share it. */
  lemma TempPathDeterminedByFid(tempDir: string, a: string, b: string)
    ensures Mp3TempPath(tempDir, a)[..|tempDir|] == tempDir
    ensures Mp3TempPath(tempDir, a)[|Mp3TempPath(tempDir, a)| - 4..] == ".mp3"
    ensures Mp3TempPath(tempDir, a) == Mp3TempPath(tempDir, b) ==> a == b
  {
    var pa, pb := Mp3TempPath(tempDir, a), Mp3TempPath(tempDir, b);
    assert pa[|tempDir|..|pa| - 4] == a;
    assert pb[|tempDir|..|pb| - 4] == b;
  }

  /** With the usual temp dir "/tmp" the file lands in "/", not inside "/tmp". */
  lemma TempPathLeavesTempDir()
    ensures Mp3TempPath("/tmp", "abc") == "/tmpabc.mp3"
    ensures Mp3TempPath("/tmp", "abc")[..5] != "/tmp/"
  {
    assert Mp3TempPath("/tmp", "abc")[4] == 'a';
  }

  /** `os.path.join(tempDir, video_fid + ".mp3")`: a separator is added unless
      the directory is empty or already ends in one. */
  function JoinedTempPath(tempDir: string, videoFid: string): string {
    if tempDir == [] || tempDir[|tempDir| - 1] == '/' then tempDir + videoFid + ".mp3"
    else tempDir + "/" + videoFid + ".mp3"
  }

  /** The joined path lies inside the temp dir (the dir followed by a
      separator), names the file `video_fid + ".mp3"`, and is still determined
      by `video_fid` alone. */
  lemma JoinedTempPathInsideDir(tempDir: string, a: string, b: string)
    requires tempDir != []
    ensures var p := JoinedTempPath(tempDir, a);
      var dir := if tempDir[|tempDir| - 1] == '/' then tempDir else tempDir + "/";
      && p[..|dir|] == dir && dir[|dir| - 1] == '/'
      && p[|dir|..] == a + ".mp3"
    ensures JoinedTempPath(tempDir, a) == JoinedTempPath(tempDir, b) ==> a == b
  {
    var dir := if tempDir[|tempDir| - 1] == '/' then tempDir else tempDir + "/";
    var pa, pb := JoinedTempPath(tempDir, a), JoinedTempPath(tempDir, b);
    assert pa == dir + (a + ".mp3");
    assert pb == dir + (b + ".mp3");
    assert pa[|dir|..|pa| - 4] == a;
    assert pb[|dir|..|pb| - 4] == b;
  }
}
