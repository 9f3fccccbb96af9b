/** The external services as the modelled code sees them: a GridFS bucket that
    assigns ids on `put` and deletes by id, and the RabbitMQ broker, reached
    through a channel, that either accepts a `basic_publish` or raises. Which
    id `ObjectId()` generates, whether a service is reachable and whether the
    broker accepts a message are chosen by the caller. */
module Services {
  import opened PyRuntime
  import opened ObjectIds
  import opened Jobs

  /** A channel handle, tagged with the serial number of its connection. */
  datatype Channel = Channel(connection: nat)

  class GridFs {
    var files: map<ObjectId, Blob>

    constructor ()
      ensures files == map[]
    {
      files := map[];
    }

    /** `fs.put(data)`: stores under the freshly generated `newId`; raises when
        the database is unreachable or the id is already taken. */
    method Put(data: Blob, newId: ObjectId, reachable: bool) returns (r: Outcome<ObjectId>)
      modifies this
      ensures !reachable ==> r == Raise(StorageUnavailable) && files == old(files)
      ensures reachable && newId in old(files) ==> r == Raise(FileExists) && files == old(files)
      ensures reachable && newId !in old(files) ==> r == Return(newId) && files == old(files)[newId := data]
    {
      if !reachable {
        r := Raise(StorageUnavailable);
      } else if newId in files {
        r := Raise(FileExists);
      } else {
        files := files[newId := data];
        r := Return(newId);
      }
    }

    /** `fs.get(id)`: raises when the database is unreachable, and NoFile
        when nothing is stored under `id`; it never changes the bucket. */
    method Get(id: ObjectId, reachable: bool) returns (r: Outcome<Blob>)
      ensures !reachable ==> r == Raise(StorageUnavailable)
      ensures reachable && id in files ==> r == Return(files[id])
      ensures reachable && id !in files ==> r == Raise(NoFile)
    {
      if !reachable {
        r := Raise(StorageUnavailable);
      } else if id in files {
        r := Return(files[id]);
      } else {
        r := Raise(NoFile);
      }
    }

    /** `fs.delete(id)`: removes `id` and nothing else; raises, removing
        nothing, when the database is unreachable. */
    method Delete(id: ObjectId, reachable: bool) returns (r: Outcome<()>)
      modifies this
      ensures !reachable ==> r == Raise(StorageUnavailable) && files == old(files)
      ensures reachable ==> r == Return(()) && files == old(files) - {id}
    {
      if !reachable {
        r := Raise(StorageUnavailable);
      } else {
        files := files - {id};
        r := Return(());
      }
    }
  }

  class Broker {
    var published: seq<Message>

    constructor ()
      ensures published == []
    {
      published := [];
    }

    /** `channel.basic_publish(...)`: appends the message when there is a
        channel and the broker accepts it; raises otherwise (on `None`,
        Python's AttributeError). */
    method BasicPublish(channel: Option<Channel>, exchange: string, routingKey: string, body: Job,
                        deliveryMode: nat, accepted: bool) returns (r: Outcome<()>)
      modifies this
      ensures channel.None? ==> r == Raise(AttributeError) && published == old(published)
      ensures channel.Some? && !accepted ==> r == Raise(PublishRejected) && published == old(published)
      ensures channel.Some? && accepted ==>
                r == Return(()) && published == old(published) + [Message(exchange, routingKey, body, deliveryMode)]
    {
      if channel.None? {
        r := Raise(AttributeError);
      } else if !accepted {
        r := Raise(PublishRejected);
      } else {
        published := published + [Message(exchange, routingKey, body, deliveryMode)];
        r := Return(());
      }
    }
  }
}
