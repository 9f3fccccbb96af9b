/** The gateway: the cached RabbitMQ connection and channel that are replaced
    only when the connection is missing or closed, the `/upload` route (token
    checks, admin check, exactly one file, then `util.upload` per file) and the
    `/download` route. Token validation is the auth service's; its result
    arrives here as the `(access, err)` pair, with `json.loads(access)` given
    as `parsed` (None when it raises). */
module GatewayServer {
  import opened PyRuntime
  import opened ObjectIds
  import opened Jobs
  import opened Services
  import StorageUtil

  // The cached connection.

  datatype Connection = Connection(serial: nat)

  /** The module globals `connection` and `channel`, plus how many connections
      were opened so far (which numbers the next one). */
  datatype ConnCache = ConnCache(connection: Option<Connection>, channel: Option<Channel>, openCount: nat)

  /** Whether the cached connection reports `is_closed`, whether
      `pika.BlockingConnection` succeeds, and whether `connection.channel()`
      succeeds. */
  datatype ConnEnv = ConnEnv(connectionClosed: bool, brokerReachable: bool, channelOpens: bool)

  datatype Acquired = Acquired(outcome: Outcome<Option<Channel>>, cache: ConnCache)

  /** `get_rabbitmq_channel()`. When `connection.channel()` raises, the new
      connection is already assigned and the old channel stays cached. */
  function AcquireChannel(c: ConnCache, env: ConnEnv): Acquired {
    if c.connection.Some? && !env.connectionClosed then Acquired(Return(c.channel), c)
    else if !env.brokerReachable then Acquired(Raise(ConnectionFailed), c)
    else
      var conn := Some(Connection(c.openCount));
      if !env.channelOpens then Acquired(Raise(ChannelFailed), ConnCache(conn, c.channel, c.openCount + 1))
      else Acquired(Return(Some(Channel(c.openCount))), ConnCache(conn, Some(Channel(c.openCount)), c.openCount + 1))
  }

  /** A new connection is opened only when none is cached or the cached one is
      closed; otherwise the cached channel is returned and nothing changes. A
      failed connect leaves the cache as it was. */
  lemma AcquireReusesOpenConnection(c: ConnCache, env: ConnEnv)
    ensures var a := AcquireChannel(c, env);
      var reconnect := c.connection.None? || env.connectionClosed;
      && (!reconnect ==> a == Acquired(Return(c.channel), c))
      && (reconnect && !env.brokerReachable ==> a == Acquired(Raise(ConnectionFailed), c))
      && (a.cache.openCount == if reconnect && env.brokerReachable then c.openCount + 1 else c.openCount)
      && (reconnect && env.brokerReachable ==> a.cache.connection == Some(Connection(c.openCount)))
      && (reconnect && env.brokerReachable && env.channelOpens ==>
            a.outcome == Return(Some(Channel(c.openCount))) && a.cache.channel == Some(Channel(c.openCount)))
  {
  }

  // Responses.

  /** What a Flask view produces: a `(body, status)` tuple, an exception Flask
      turns into a 500 page, or `send_file`. */
  datatype Response = Replied(reply: Reply) | Uncaught(exc: Exc) | FileSent(data: Blob, downloadName: string)

  const NotAuthorized: Reply := Reply("not authorized", 401)
  const InvalidTokenFormat: Reply := Reply("invalid token format", 500)
  const ExactlyOneFile: Reply := Reply("exactly 1 file required", 400)
  const UploadSucceeded: Reply := Reply("success!", 200)
  const FidRequired: Reply := Reply("fid is required", 400)

  // The /upload route.

  /** The checks `/upload` makes before storing anything; `Admit` carries the
      parsed claims. */
  datatype Gate = Reject(response: Response) | Admit(claims: map<string, Json>)

  predicate AdminClaims(parsed: Json) {
    parsed.JDict? && Truthy(GetOr(parsed.fields, "admin", JBool(false)))
  }

  function UploadGate(tokenErr: Option<Reply>, access: Option<string>, parsed: Option<Json>, fileCount: nat): (g: Gate)
    ensures g.Admit? <==>
              && tokenErr.None? && access.Some? && access.value != ""
              && parsed.Some? && AdminClaims(parsed.value) && fileCount == 1
    ensures g.Admit? ==> g.claims == parsed.value.fields
  {
    if tokenErr.Some? then Reject(Replied(tokenErr.value))
    else if access.None? || access.value == "" then Reject(Replied(NotAuthorized))
    else if parsed.None? then Reject(Replied(InvalidTokenFormat))
    else if !parsed.value.JDict? then Reject(Uncaught(AttributeError))
    else if !Truthy(GetOr(parsed.value.fields, "admin", JBool(false))) then Reject(Replied(NotAuthorized))
    else if fileCount != 1 then Reject(Replied(ExactlyOneFile))
    else Admit(parsed.value.fields)
  }

  /** The order of the checks: a token error is returned as it came before
      anything else; then empty access (401), unparsable access (500), a
      missing or false `admin` claim (401), and only then the file count (400). */
  lemma UploadGateOrder(tokenErr: Option<Reply>, access: Option<string>, parsed: Option<Json>, fileCount: nat)
    ensures var g := UploadGate(tokenErr, access, parsed, fileCount);
      && (tokenErr.Some? ==> g == Reject(Replied(tokenErr.value)))
      && (tokenErr.None? && (access.None? || access == Some("")) ==> g == Reject(Replied(NotAuthorized)))
      && (tokenErr.None? && access.Some? && access.value != "" && parsed.None? ==> g == Reject(Replied(InvalidTokenFormat)))
      && ((&& tokenErr.None? && access.Some? && access.value != "" && parsed.Some? && parsed.value.JDict?
           && !Truthy(GetOr(parsed.value.fields, "admin", JBool(false))))
          ==> g == Reject(Replied(NotAuthorized)))
      && ((&& tokenErr.None? && access.Some? && access.value != "" && parsed.Some? && AdminClaims(parsed.value)
           && fileCount != 1)
          ==> g == Reject(Replied(ExactlyOneFile)))
  {
  }

  /** What the outside world does while one file is uploaded. */
  datatype FileEnv = FileEnv(conn: ConnEnv, upload: StorageUtil.UploadEnv)

  /** The gateway's globals together with the video bucket and the broker log. */
  datatype World = World(cache: ConnCache, store: Store)

  datatype Stepped = Stepped(outcome: Outcome<Option<Reply>>, after: World)
  datatype Handled = Handled(response: Response, after: World)

  /** One pass of the loop body: get the channel, then `util.upload`. */
  function UploadStep(w: World, f: Blob, claims: map<string, Json>, env: FileEnv): Stepped {
    var a := AcquireChannel(w.cache, env.conn);
    match a.outcome
    case Raise(e) => Stepped(Raise(e), World(a.cache, w.store))
    case Return(channel) =>
      var e := StorageUtil.UploadEffect(w.store, f, channel, claims, env.upload);
      Stepped(e.outcome, World(a.cache, e.after))
  }

  /** The loop over `request.files`: the first error ends the request. */
  function UploadFiles(w: World, files: seq<Blob>, envs: seq<FileEnv>, claims: map<string, Json>): Handled
    requires |envs| == |files|
    decreases |files|
  {
    if files == [] then Handled(Replied(UploadSucceeded), w)
    else
      var st := UploadStep(w, files[0], claims, envs[0]);
      match st.outcome
      case Raise(e) => Handled(Uncaught(e), st.after)
      case Return(Some(err)) => Handled(Replied(err), st.after)
      case Return(None) => UploadFiles(st.after, files[1..], envs[1..], claims)
  }

  /** The whole `/upload` view. */
  function UploadRoute(w: World, tokenErr: Option<Reply>, access: Option<string>, parsed: Option<Json>,
                       files: seq<Blob>, envs: seq<FileEnv>): Handled
    requires |envs| == |files|
  {
    match UploadGate(tokenErr, access, parsed, |files|)
    case Reject(response) => Handled(response, w)
    case Admit(claims) => UploadFiles(w, files, envs, claims)
  }

  /** The jobs a fully successful loop publishes, one per file in order. */
  function VideoJobs(envs: seq<FileEnv>, username: Json): seq<Message> {
    if envs == [] then []
    else [StorageUtil.VideoJob(envs[0].upload.newId, username)] + VideoJobs(envs[1..], username)
  }

  /** The loop never alters a file that was already stored and only appends
      to the broker log. */
  lemma {:induction false} UploadFilesKeepsExisting(w: World, files: seq<Blob>, envs: seq<FileEnv>, claims: map<string, Json>)
    requires |envs| == |files|
    ensures var after := UploadFiles(w, files, envs, claims).after.store;
      && (forall id | id in w.store.files :: id in after.files && after.files[id] == w.store.files[id])
      && |w.store.published| <= |after.published|
      && after.published[..|w.store.published|] == w.store.published
    decreases |files|
  {
    if files != [] {
      var st := UploadStep(w, files[0], claims, envs[0]);
      var a := AcquireChannel(w.cache, envs[0].conn);
      if a.outcome.Return? {
        StorageUtil.OnlyTheNewFileChanges(w.store, files[0], a.outcome.value, claims, envs[0].upload);
      }
      if st.outcome == Return(None) {
        UploadFilesKeepsExisting(st.after, files[1..], envs[1..], claims);
        var after := UploadFiles(w, files, envs, claims).after.store;
        assert after.published[..|st.after.store.published|] == st.after.store.published;
        assert after.published[..|w.store.published|] == st.after.store.published[..|w.store.published|];
      }
    }
  }

  /** `("success!", 200)` comes back only if every `util.upload` returned None:
      then each file is stored under its freshly generated id and exactly
      the jobs naming them, in order, are appended. */
  lemma {:induction false} UploadFilesSuccess(w: World, files: seq<Blob>, envs: seq<FileEnv>, claims: map<string, Json>)
    requires |envs| == |files|
    ensures var h := UploadFiles(w, files, envs, claims);
      h.response == Replied(UploadSucceeded) ==>
        && (files != [] ==> "username" in claims)
        && h.after.store.published == w.store.published + VideoJobs(envs, GetOr(claims, "username", JNull))
        && forall i | 0 <= i < |files| ::
             && envs[i].upload.newId !in w.store.files
             && envs[i].upload.newId in h.after.store.files
             && h.after.store.files[envs[i].upload.newId] == files[i]
    decreases |files|
  {
    var h := UploadFiles(w, files, envs, claims);
    if files != [] && h.response == Replied(UploadSucceeded) {
      var st := UploadStep(w, files[0], claims, envs[0]);
      assert st.outcome == Return(None);
      var id0 := envs[0].upload.newId;
      assert st.after.store.files == w.store.files[id0 := files[0]];
      assert st.after.store.published == w.store.published + [StorageUtil.VideoJob(id0, claims["username"])];
      UploadFilesSuccess(st.after, files[1..], envs[1..], claims);
      UploadFilesKeepsExisting(st.after, files[1..], envs[1..], claims);
      forall i | 0 <= i < |files|
        ensures envs[i].upload.newId !in w.store.files
        ensures envs[i].upload.newId in h.after.store.files
        ensures h.after.store.files[envs[i].upload.newId] == files[i]
      {
        if i > 0 {
          assert envs[1..][i - 1] == envs[i] && files[1..][i - 1] == files[i];
        }
      }
    }
  }

  /** Blob/job atomicity over the video bucket and the `video` queue survives
      the whole loop, given a username claim, unless a compensating delete
      raised, which ends the request with that exception. */
  lemma {:induction false} UploadFilesKeepsAtomic(w: World, files: seq<Blob>, envs: seq<FileEnv>, claims: map<string, Json>)
    requires |envs| == |files|
    requires "username" in claims
    requires Atomic(w.store.files, w.store.published, StorageUtil.VideoQueue, VideoRef)
    ensures var h := UploadFiles(w, files, envs, claims);
      || Atomic(h.after.store.files, h.after.store.published, StorageUtil.VideoQueue, VideoRef)
      || (&& h.response == Uncaught(StorageUnavailable)
          && exists i | 0 <= i < |envs| :: !envs[i].upload.deleteSucceeds)
    decreases |files|
  {
    if files != [] {
      var st := UploadStep(w, files[0], claims, envs[0]);
      var a := AcquireChannel(w.cache, envs[0].conn);
      if a.outcome.Return? {
        StorageUtil.UploadKeepsAtomic(w.store, files[0], a.outcome.value, claims, envs[0].upload);
      }
      if st.outcome == Return(None) {
        UploadFilesKeepsAtomic(st.after, files[1..], envs[1..], claims);
        var h := UploadFiles(st.after, files[1..], envs[1..], claims);
        if !Atomic(h.after.store.files, h.after.store.published, StorageUtil.VideoQueue, VideoRef) {
          var j :| 0 <= j < |envs[1..]| && !envs[1..][j].upload.deleteSucceeds;
          assert envs[j + 1] == envs[1..][j];
        }
      }
    }
  }

  /** A rejected request stores nothing, publishes nothing and does not touch
      the connection. */
  lemma RejectedUploadChangesNothing(w: World, tokenErr: Option<Reply>, access: Option<string>, parsed: Option<Json>,
                                     files: seq<Blob>, envs: seq<FileEnv>)
    requires |envs| == |files|
    requires UploadGate(tokenErr, access, parsed, |files|).Reject?
    ensures UploadRoute(w, tokenErr, access, parsed, files, envs)
         == Handled(UploadGate(tokenErr, access, parsed, |files|).response, w)
  {
  }

  /** An admitted request carries one file: success means exactly one job for
      it was appended; anything else is the 500 from `util.upload` or an
      exception Flask reports as 500; the route keeps atomicity unless the
      compensating delete raised. */
  lemma UploadRouteOneFile(w: World, tokenErr: Option<Reply>, access: Option<string>, parsed: Option<Json>,
                           files: seq<Blob>, envs: seq<FileEnv>)
    requires |envs| == |files|
    requires UploadGate(tokenErr, access, parsed, |files|).Admit?
    ensures |files| == 1
    ensures var claims := parsed.value.fields;
      var h := UploadRoute(w, tokenErr, access, parsed, files, envs);
      && (h.response == Replied(UploadSucceeded) ==>
            h.after.store.published == w.store.published + [StorageUtil.VideoJob(envs[0].upload.newId, claims["username"])])
      && (h.response != Replied(UploadSucceeded) ==>
            h.response == Replied(StorageUtil.InternalError) || h.response.Uncaught?)
      && ("username" in claims && Atomic(w.store.files, w.store.published, StorageUtil.VideoQueue, VideoRef) ==>
            || Atomic(h.after.store.files, h.after.store.published, StorageUtil.VideoQueue, VideoRef)
            || (h.response == Uncaught(StorageUnavailable) && !envs[0].upload.deleteSucceeds))
  {
    var claims := parsed.value.fields;
    UploadFilesSuccess(w, files, envs, claims);
    assert VideoJobs(envs, GetOr(claims, "username", JNull)) == [StorageUtil.VideoJob(envs[0].upload.newId, GetOr(claims, "username", JNull))];
    if "username" in claims && Atomic(w.store.files, w.store.published, StorageUtil.VideoQueue, VideoRef) {
      UploadFilesKeepsAtomic(w, files, envs, claims);
    }
  }

  // The /download route.

  /** `/download`: everything inside its `try` that raises answers 500; a
      falsy `admin` claim falls through to 401. `mp3Reachable` is whether
      MongoDB answers `fs_mp3s.get`. Since the `try` covers the whole view, no
      exception escapes, and a file is only sent when MongoDB returned the
      blob stored under the requested id. */
  function DownloadResponse(tokenErr: Option<Reply>, access: Option<string>, parsed: Option<Json>,
                            fidArg: Option<string>, mp3Reachable: bool, mp3Files: map<ObjectId, Blob>): (r: Response)
    ensures !r.Uncaught?
    ensures r.Replied? ==>
              || (tokenErr.Some? && r.reply == tokenErr.value)
              || r.reply in {FidRequired, NotAuthorized, StorageUtil.InternalError}
    ensures r.FileSent? ==>
              && mp3Reachable && fidArg.Some? && Parse(fidArg.value).Some?
              && Parse(fidArg.value).value in mp3Files && r.data == mp3Files[Parse(fidArg.value).value]
  {
    if tokenErr.Some? then Replied(tokenErr.value)
    else if access.None? || parsed.None? then Replied(StorageUtil.InternalError)
    else
      match parsed.value
      case JDict(claims) =>
        if "admin" !in claims then Replied(StorageUtil.InternalError)
        else if !Truthy(claims["admin"]) then Replied(NotAuthorized)
        else if fidArg.None? || fidArg.value == "" then Replied(FidRequired)
        else
          (match Parse(fidArg.value)
           case None => Replied(StorageUtil.InternalError)
           case Some(id) =>
             if !mp3Reachable || id !in mp3Files then Replied(StorageUtil.InternalError)
             else FileSent(mp3Files[id], fidArg.value + ".mp3"))
      case _ => Replied(StorageUtil.InternalError)
  }

  /** Admins without a `fid` get 400, non-admins 401, and a file is sent
      exactly when an admin names a stored mp3 by a well-formed id and MongoDB
      answers, under the name `fid + ".mp3"`; when MongoDB does not answer,
      the same request gets 500, as does every other failure. */
  lemma DownloadLadder(tokenErr: Option<Reply>, access: Option<string>, parsed: Option<Json>,
                       fidArg: Option<string>, mp3Reachable: bool, mp3Files: map<ObjectId, Blob>)
    ensures var r := DownloadResponse(tokenErr, access, parsed, fidArg, mp3Reachable, mp3Files);
      var admin := tokenErr.None? && access.Some? && parsed.Some? && parsed.value.JDict?
                   && "admin" in parsed.value.fields && Truthy(parsed.value.fields["admin"]);
      && (tokenErr.Some? ==> r == Replied(tokenErr.value))
      && (admin && (fidArg.None? || fidArg == Some("")) ==> r == Replied(FidRequired))
      && ((&& tokenErr.None? && access.Some? && parsed.Some? && parsed.value.JDict?
           && "admin" in parsed.value.fields && !Truthy(parsed.value.fields["admin"]))
          ==> r == Replied(NotAuthorized))
      && (r.FileSent? <==>
            admin && fidArg.Some? && Parse(fidArg.value).Some? && Parse(fidArg.value).value in mp3Files && mp3Reachable)
      && (r.FileSent? ==> r.data == mp3Files[Parse(fidArg.value).value] && r.downloadName == fidArg.value + ".mp3")
      && (admin && fidArg.Some? && Parse(fidArg.value).Some? && !mp3Reachable ==> r == Replied(StorageUtil.InternalError))
      && (tokenErr.None? ==>
            r.FileSent? || r == Replied(FidRequired) || r == Replied(NotAuthorized) || r == Replied(StorageUtil.InternalError))
  {
  }

  /** A file the converter stored under `fid` is served for `str(fid)` while
      MongoDB answers; when it does not, the request gets 500. */
  lemma DownloadServesStoredMp3(access: string, claims: map<string, Json>, fid: ObjectId, mp3Reachable: bool,
                                mp3Files: map<ObjectId, Blob>)
    requires "admin" in claims && Truthy(claims["admin"])
    requires fid in mp3Files
    ensures mp3Reachable ==>
              DownloadResponse(None, Some(access), Some(JDict(claims)), Some(Str(fid)), mp3Reachable, mp3Files)
                == FileSent(mp3Files[fid], Str(fid) + ".mp3")
    ensures !mp3Reachable ==>
              DownloadResponse(None, Some(access), Some(JDict(claims)), Some(Str(fid)), mp3Reachable, mp3Files)
                == Replied(StorageUtil.InternalError)
  {
    ParseStr(fid);
  }

  /** The gateway process: its connection globals, the video bucket and the
      broker it publishes to. */
  class Gateway {
    var connection: Option<Connection>
    var channel: Option<Channel>
    var openCount: nat
    const videos: GridFs
    const broker: Broker

    function Cache(): ConnCache
      reads this
    {
      ConnCache(connection, channel, openCount)
    }

    function Now(): World
      reads this, videos, broker
    {
      World(Cache(), Store(videos.files, broker.published))
    }

    constructor (videos: GridFs, broker: Broker)
      ensures Cache() == ConnCache(None, None, 0)
      ensures this.videos == videos && this.broker == broker
    {
      connection, channel, openCount := None, None, 0;
      this.videos, this.broker := videos, broker;
    }

    method GetRabbitmqChannel(env: ConnEnv) returns (r: Outcome<Option<Channel>>)
      modifies this
      ensures Acquired(r, Cache()) == AcquireChannel(old(Cache()), env)
    {
      if connection.None? || env.connectionClosed {
        if !env.brokerReachable {
          return Raise(ConnectionFailed);
        }
        connection := Some(Connection(openCount));
        openCount := openCount + 1;
        if !env.channelOpens {
          return Raise(ChannelFailed);
        }
        channel := Some(Channel(openCount - 1));
      }
      return Return(channel);
    }

    method Upload(tokenErr: Option<Reply>, access: Option<string>, parsed: Option<Json>,
                  files: seq<Blob>, envs: seq<FileEnv>) returns (resp: Response)
      requires |envs| == |files|
      modifies this, videos, broker
      ensures Handled(resp, Now()) == UploadRoute(old(Now()), tokenErr, access, parsed, files, envs)
    {
      var gate := UploadGate(tokenErr, access, parsed, |files|);
      if gate.Reject? {
        return gate.response;
      }
      var claims := gate.claims;
      ghost var start := Now();
      var i := 0;
      while i < |files|
        invariant 0 <= i <= |files|
        invariant UploadFiles(Now(), files[i..], envs[i..], claims) == UploadFiles(start, files, envs, claims)
      {
        ghost var before := Now();
        assert files[i..][0] == files[i] && envs[i..][0] == envs[i];
        assert files[i..][1..] == files[i + 1..] && envs[i..][1..] == envs[i + 1..];
        var ch := GetRabbitmqChannel(envs[i].conn);
        if ch.Raise? {
          return Uncaught(ch.exc);
        }
        var err := StorageUtil.Upload(files[i], videos, broker, ch.value, claims, envs[i].upload);
        assert Stepped(err, Now()) == UploadStep(before, files[i], claims, envs[i]);
        if err.Raise? {
          return Uncaught(err.exc);
        }
        if err.value.Some? {
          return Replied(err.value.value);
        }
        i := i + 1;
      }
      return Replied(UploadSucceeded);
    }
  }
}
