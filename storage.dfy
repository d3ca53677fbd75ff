/** The on-disk lists, as abstract in-memory stores. A slot is `None` while its JSON file
    does not exist; saving replaces the whole slot. Encoding, decoding and file I/O are not
    modelled: whether reading an existing file or writing a file fails is decided by the
    fault flags, which the environment may set at any time. */
module Storage {
  import opened Common
  import opened Records
  import opened Lists

  /** The description of the `generalError` case of `PersistenceErrors` and `BucketErrors`:
      the message shown for any error thrown by a store. */
  const UnknownError: string := "An unknown error occurred"

  /** What `load()` returns for a slot: `[]` when the file is absent, the stored list when it
      can be read, a thrown error otherwise. */
  function ReadSlot(file: Option<seq<Manga>>, unreadable: bool): (r: Result<seq<Manga>>)
    ensures file.None? ==> r == Ok([])
    ensures file.Some? ==> r == if unreadable then Failure else Ok(file.value)
  {
    match file
    case None => Ok([])
    case Some(items) => if unreadable then Failure else Ok(items)
  }

  /** The contents of a slot as a list (an absent file holds nothing). */
  function SlotContents(file: Option<seq<Manga>>): seq<Manga>
  {
    match file
    case None => []
    case Some(items) => items
  }

  /** A successful read always returns the slot's contents. */
  lemma ReadSlotContents(file: Option<seq<Manga>>, unreadable: bool)
    ensures ReadSlot(file, unreadable).Ok? ==> ReadSlot(file, unreadable).value == SlotContents(file)
    ensures ReadSlot(file, unreadable).Failure? <==> file.Some? && unreadable
  {
  }

  /** One file of a store together with its fault flags. */
  datatype Slot = Slot(file: Option<seq<Manga>>, unreadable: bool, unwritable: bool)

  /** MangaTracker's `LocalInteractor`: `MyMangas.json` holds the collection and
      `BucketMangas.json` the bucket list. */
  class LocalStore {
    var collectionFile: Option<seq<Manga>>
    var bucketFile: Option<seq<Manga>>
    var collectionUnreadable: bool
    var collectionUnwritable: bool
    var bucketUnreadable: bool
    var bucketUnwritable: bool

    /** A fresh device: no files, no faults. */
    constructor ()
      ensures collectionFile.None? && bucketFile.None?
      ensures !collectionUnreadable && !collectionUnwritable
      ensures !bucketUnreadable && !bucketUnwritable
    {
      collectionFile, bucketFile := None, None;
      collectionUnreadable, collectionUnwritable := false, false;
      bucketUnreadable, bucketUnwritable := false, false;
    }

    function CollectionRead(): Result<seq<Manga>>
      reads this
    {
      ReadSlot(collectionFile, collectionUnreadable)
    }

    function BucketRead(): Result<seq<Manga>>
      reads this
    {
      ReadSlot(bucketFile, bucketUnreadable)
    }

    function CollectionSlot(): Slot
      reads this
    {
      Slot(collectionFile, collectionUnreadable, collectionUnwritable)
    }

    function BucketSlot(): Slot
      reads this
    {
      Slot(bucketFile, bucketUnreadable, bucketUnwritable)
    }

    function Collection(): seq<Manga>
      reads this
    {
      SlotContents(collectionFile)
    }

    function Bucket(): seq<Manga>
      reads this
    {
      SlotContents(bucketFile)
    }

    /** `load()`. */
    method Load() returns (r: Result<seq<Manga>>)
      ensures r == CollectionRead()
      ensures collectionFile.None? ==> r == Ok([])
    {
      r := ReadSlot(collectionFile, collectionUnreadable);
    }

    /** `save(array:)`: replaces the collection file, or fails and leaves it as it was. */
    method Save(items: seq<Manga>) returns (ok: bool)
      modifies this`collectionFile
      ensures ok == !collectionUnwritable
      ensures collectionFile == if ok then Some(items) else old(collectionFile)
      ensures ok ==> Collection() == items
    {
      ok := !collectionUnwritable;
      if ok {
        collectionFile := Some(items);
      }
    }

    /** `loadBucketMangas()`. */
    method LoadBucket() returns (r: Result<seq<Manga>>)
      ensures r == BucketRead()
      ensures bucketFile.None? ==> r == Ok([])
    {
      r := ReadSlot(bucketFile, bucketUnreadable);
    }

    /** `saveBucketMangas(array:)`. */
    method SaveBucket(items: seq<Manga>) returns (ok: bool)
      modifies this`bucketFile
      ensures ok == !bucketUnwritable
      ensures bucketFile == if ok then Some(items) else old(bucketFile)
      ensures ok ==> Bucket() == items
    {
      ok := !bucketUnwritable;
      if ok {
        bucketFile := Some(items);
      }
    }
  }

  /** MangaHub's `LocalInteractor`: a single file, `MyMangas.json`, read by `cargar()` and
      written by `guardar(array:)`. */
  class HubStore {
    var file: Option<seq<Manga>>
    var unreadable: bool
    var unwritable: bool

    constructor ()
      ensures file.None? && !unreadable && !unwritable
    {
      file, unreadable, unwritable := None, false, false;
    }

    function Read(): Result<seq<Manga>>
      reads this
    {
      ReadSlot(file, unreadable)
    }

    function Contents(): seq<Manga>
      reads this
    {
      SlotContents(file)
    }

    /** `cargar()`. */
    method Load() returns (r: Result<seq<Manga>>)
      ensures r == Read()
      ensures file.None? ==> r == Ok([])
    {
      r := ReadSlot(file, unreadable);
    }

    /** `guardar(array:)`. */
    method Save(items: seq<Manga>) returns (ok: bool)
      modifies this`file
      ensures ok == !unwritable
      ensures file == if ok then Some(items) else old(file)
      ensures ok ==> Contents() == items
    {
      ok := !unwritable;
      if ok {
        file := Some(items);
      }
    }
  }
}
