/** The job record that travels through the queues, the messages the broker
    accepts, and the blob/job atomicity invariant that both producers (the
    gateway's upload and the converter's start) must keep: every stored blob is
    named by exactly one job on its queue, and every job on the queue names a
    stored blob. */
module Jobs {
  import opened PyRuntime
  import opened ObjectIds

  type Blob = seq<byte>

  /** The message body `{"video_fid", "mp3_fid", "username"}`; `username` is
      whatever value the access claims held. */
  datatype Job = Job(videoFid: string, mp3Fid: Option<string>, username: Json)

  /** pika.spec.PERSISTENT_DELIVERY_MODE */
  const PersistentDeliveryMode: nat := 2

  /** One `basic_publish` the broker accepted. */
  datatype Message = Message(exchange: string, routingKey: string, body: Job, deliveryMode: nat)

  /** The state a producer touches: one GridFS bucket and the log of messages
      the broker accepted. */
  datatype Store = Store(files: map<ObjectId, Blob>, published: seq<Message>)

  /** What a producer call returns (or raises) and the state it leaves. */
  datatype Effect<+T> = Effect(outcome: Outcome<T>, after: Store)

  /** Which field of a job names the blob a queue is responsible for. */
  datatype RefField = VideoRef | Mp3Ref

  function RefOf(job: Job, field: RefField): Option<string> {
    match field
    case VideoRef => Some(job.videoFid)
    case Mp3Ref => job.mp3Fid
  }

  predicate Refers(m: Message, queue: string, field: RefField, fid: string) {
    m.routingKey == queue && RefOf(m.body, field) == Some(fid)
  }

  /** How many published messages on `queue` name the blob `fid`. */
  function RefCount(published: seq<Message>, queue: string, field: RefField, fid: string): nat {
    if published == [] then 0
    else RefCount(published[..|published| - 1], queue, field, fid)
         + (if Refers(published[|published| - 1], queue, field, fid) then 1 else 0)
  }

  /** A job on `queue` names a blob that is present in `files`. */
  predicate NamesStored(files: map<ObjectId, Blob>, job: Job, field: RefField) {
    match RefOf(job, field)
    case None => false
    case Some(fid) => Parse(fid).Some? && Parse(fid).value in files
  }

  /** No job on `queue` names a blob that was not committed. */
  ghost predicate Committed(files: map<ObjectId, Blob>, published: seq<Message>, queue: string, field: RefField) {
    forall i | 0 <= i < |published| && published[i].routingKey == queue :: NamesStored(files, published[i].body, field)
  }

  /** Blob/job atomicity for one bucket and the queue that hands its blobs on. */
  ghost predicate Atomic(files: map<ObjectId, Blob>, published: seq<Message>, queue: string, field: RefField) {
    && (forall id | id in files :: RefCount(published, queue, field, Str(id)) == 1)
    && Committed(files, published, queue, field)
  }

  lemma {:induction false} RefCountAppend(published: seq<Message>, m: Message, queue: string, field: RefField, fid: string)
    ensures RefCount(published + [m], queue, field, fid)
         == RefCount(published, queue, field, fid) + (if Refers(m, queue, field, fid) then 1 else 0)
  {
    assert (published + [m])[..|published + [m]| - 1] == published;
  }

  /** A blob that no job on the queue names has no references. */
  lemma {:induction false} RefCountUnnamed(published: seq<Message>, queue: string, field: RefField, fid: string)
    requires forall i | 0 <= i < |published| :: !Refers(published[i], queue, field, fid)
    ensures RefCount(published, queue, field, fid) == 0
  {
    if published != [] {
      var init := published[..|published| - 1];
      assert forall i | 0 <= i < |init| :: init[i] == published[i];
      RefCountUnnamed(init, queue, field, fid);
    }
  }

  /** `after` differs from `s` only by a blob stored under `id`, which was free
      before; nothing was published. */
  predicate OrphanedBy(s: Store, after: Store, id: ObjectId) {
    id !in s.files && id in after.files && after == Store(s.files[id := after.files[id]], s.published)
  }

  /** On a committed queue no job names an id that is not stored. */
  lemma FreshIdUnreferenced(files: map<ObjectId, Blob>, published: seq<Message>, queue: string, field: RefField, id: ObjectId)
    requires Committed(files, published, queue, field)
    requires id !in files
    ensures RefCount(published, queue, field, Str(id)) == 0
  {
    ParseStr(id);
    forall i | 0 <= i < |published| ensures !Refers(published[i], queue, field, Str(id)) {
      if published[i].routingKey == queue {
        assert NamesStored(files, published[i].body, field);
      }
    }
    RefCountUnnamed(published, queue, field, Str(id));
  }

  /** Storing a fresh blob and publishing one job on its queue that names it
      keeps atomicity. */
  lemma PublishFreshKeepsAtomic(files: map<ObjectId, Blob>, published: seq<Message>, queue: string, field: RefField,
                                id: ObjectId, blob: Blob, m: Message)
    requires Atomic(files, published, queue, field)
    requires id !in files
    requires Refers(m, queue, field, Str(id))
    ensures Atomic(files[id := blob], published + [m], queue, field)
  {
    var files', published' := files[id := blob], published + [m];
    ParseStr(id);
    FreshIdUnreferenced(files, published, queue, field, id);
    forall other | other in files' ensures RefCount(published', queue, field, Str(other)) == 1 {
      RefCountAppend(published, m, queue, field, Str(other));
      StrInjective(id, other);
    }
    forall i | 0 <= i < |published'| && published'[i].routingKey == queue
      ensures NamesStored(files', published'[i].body, field)
    {
      if i < |published| {
        assert published'[i] == published[i];
        assert NamesStored(files, published[i].body, field);
      }
    }
  }

  /** A message on another queue does not disturb atomicity. */
  lemma OtherQueueKeepsAtomic(files: map<ObjectId, Blob>, published: seq<Message>, queue: string, field: RefField, m: Message)
    requires Atomic(files, published, queue, field)
    requires m.routingKey != queue
    ensures Atomic(files, published + [m], queue, field)
  {
    forall id | id in files ensures RefCount(published + [m], queue, field, Str(id)) == 1 {
      RefCountAppend(published, m, queue, field, Str(id));
    }
    forall i | 0 <= i < |published + [m]| && (published + [m])[i].routingKey == queue
      ensures NamesStored(files, (published + [m])[i].body, field)
    {
      assert (published + [m])[i] == published[i];
    }
  }
}
