/** The object store the processed images are uploaded to, keyed by object key. */
module Storage {
  import opened Wrappers
  import opened Web

  datatype StoredObject = StoredObject(body: seq<byte>, contentType: string)

  /** One entry of an object listing; the store may omit its size. */
  datatype ListedObject = ListedObject(key: string, size: Option<nat>)

  class ObjectStore {
    var objects: map<string, StoredObject>

    constructor ()
      ensures objects == map[]
    {
      objects := map[];
    }

    /** `PutObjectCommand`: stores (or overwrites) the object under `key`. Whether the
        call throws is not visible to the model: `failure` is the message it throws, if it
        does, and it is passed back; a failed put stores nothing. */
    method Put(key: string, body: seq<byte>, contentType: string, failure: Option<string>)
      returns (thrown: Option<string>)
      modifies this
      ensures thrown == failure
      ensures thrown.None? ==> objects == old(objects)[key := StoredObject(body, contentType)]
      ensures thrown.Some? ==> objects == old(objects)
    {
      if failure.Some? {
        return failure;
      }
      objects := objects[key := StoredObject(body, contentType)];
      thrown := None;
    }

    /** `DeleteObjectCommand`: removes `key` (an absent key is not an error). Whether the
        call fails is not visible to the model and is given by `fails`. */
    method Delete(key: string, fails: bool) returns (ok: bool)
      modifies this
      ensures ok == !fails
      ensures ok ==> objects == old(objects) - {key}
      ensures !ok ==> objects == old(objects)
    {
      if fails {
        return false;
      }
      objects := objects - {key};
      ok := true;
    }
  }
}
