/** MangaTracker's `DetailViewModel`: the detail screen of a catalogue title, which adds the
    title to the collection or to the bucket list (moving it out of the other list) and
    disables the buttons of the lists that already hold it. */
module Detail {
  import opened Common
  import opened Records
  import opened Lists
  import opened Storage

  datatype DetailViewError = SaveToMyCollection | CheckMyCollection | SaveToBucket | CheckBucket

  /** `DetailViewErrors.errorDescription`. */
  function ErrorDescription(e: DetailViewError): string
  {
    match e
    case SaveToMyCollection => "Error saving manga into your collection"
    case CheckMyCollection => "Error loading your collection"
    case SaveToBucket => "Error saving manga to your bucket list"
    case CheckBucket => "Error loading your bucket"
  }

  /** What a move of `m` into a target list leaves behind: the view model's copies of the
      two lists, the two files, and whether an error was thrown. Both `addToMyCollection()`
      (target: the collection, source: the bucket list) and `addToMyBucket()` (the other way
      round) load the target, then the source; remove the first source entry with `m`'s id
      and save the source if there was one; append `m` to the target unless its id is there;
      save the target. The first failure stops the sequence, keeping what was done. */
  datatype Transfer = Transfer(savedTarget: seq<Manga>, savedSource: seq<Manga>,
                               targetFile: Option<seq<Manga>>, sourceFile: Option<seq<Manga>>,
                               failed: bool)

  function TransferOutcome(m: Manga, savedTarget: seq<Manga>, savedSource: seq<Manga>,
                           target: Slot, source: Slot): Transfer
  {
    match ReadSlot(target.file, target.unreadable)
    case Failure => Transfer(savedTarget, savedSource, target.file, source.file, true)
    case Ok(t) =>
      match ReadSlot(source.file, source.unreadable)
      case Failure => Transfer(t, savedSource, target.file, source.file, true)
      case Ok(s) => MoveLoaded(m, t, s, target, source)
  }

  /** The steps of a move once the target list `t` and the source list `s` are loaded. */
  function MoveLoaded(m: Manga, t: seq<Manga>, s: seq<Manga>, target: Slot, source: Slot): Transfer
  {
    var src := RemoveFirstWithId(s, m.id);
    var hit := FirstIndexOfId(s, m.id).Some?;
    if hit && source.unwritable then Transfer(t, src, target.file, source.file, true)
    else
      var srcFile := if hit then Some(src) else source.file;
      var tgt := AppendIfAbsent(t, m);
      if target.unwritable then Transfer(tgt, src, target.file, srcFile, true)
      else Transfer(tgt, src, Some(tgt), srcFile, false)
  }

  /** What a move does to the two files, and when it fails. */
  lemma TransferOutcomeEffect(m: Manga, savedTarget: seq<Manga>, savedSource: seq<Manga>,
                              target: Slot, source: Slot)
    ensures var r := TransferOutcome(m, savedTarget, savedSource, target, source);
      // the target file is written last, so only a move that succeeds changes it
      && (r.failed ==> r.targetFile == target.file)
      && (!r.failed ==> r.targetFile == Some(AppendIfAbsent(SlotContents(target.file), m)))
      // the source file can only lose the title's first entry
      && (r.sourceFile == source.file ||
          r.sourceFile == Some(RemoveFirstWithId(SlotContents(source.file), m.id)))
      // the move fails exactly when one of its four steps meets a fault
      && (r.failed <==>
            (target.file.Some? && target.unreadable) || (source.file.Some? && source.unreadable) ||
            (source.unwritable && HasId(SlotContents(source.file), m.id)) || target.unwritable)
  {
    ReadSlotContents(target.file, target.unreadable);
    ReadSlotContents(source.file, source.unreadable);
  }

  /** A move keeps the on-disk invariant: neither list repeats an id and no id is in both. */
  lemma TransferKeepsExclusive(m: Manga, savedTarget: seq<Manga>, savedSource: seq<Manga>,
                               target: Slot, source: Slot)
    requires var t, s := SlotContents(target.file), SlotContents(source.file);
      UniqueIds(t) && UniqueIds(s) && DisjointIds(t, s)
    ensures var r := TransferOutcome(m, savedTarget, savedSource, target, source);
      var t, s := SlotContents(r.targetFile), SlotContents(r.sourceFile);
      UniqueIds(t) && UniqueIds(s) && DisjointIds(t, s) && DisjointIds(s, t)
  {
    var t, s := SlotContents(target.file), SlotContents(source.file);
    SymmetricDisjoint(t, s);
    ReadSlotContents(target.file, target.unreadable);
    ReadSlotContents(source.file, source.unreadable);
    if ReadSlot(target.file, target.unreadable).Ok? && ReadSlot(source.file, source.unreadable).Ok? {
      MoveLoadedKeepsExclusive(m, target, source);
    }
  }

  /** The same once both lists are loaded. */
  lemma MoveLoadedKeepsExclusive(m: Manga, target: Slot, source: Slot)
    requires var t, s := SlotContents(target.file), SlotContents(source.file);
      UniqueIds(t) && UniqueIds(s) && DisjointIds(t, s)
    ensures var r := MoveLoaded(m, SlotContents(target.file), SlotContents(source.file), target, source);
      var t, s := SlotContents(r.targetFile), SlotContents(r.sourceFile);
      UniqueIds(t) && UniqueIds(s) && DisjointIds(t, s) && DisjointIds(s, t)
  {
    var t, s := SlotContents(target.file), SlotContents(source.file);
    var r := MoveLoaded(m, t, s, target, source);
    SymmetricDisjoint(t, s);
    RemoveFirstWithIdUnique(s, m.id);
    RemoveKeepsDisjoint(t, s, m.id);
    SymmetricDisjoint(t, RemoveFirstWithId(s, m.id));
    MoveKeepsExclusive(t, s, m);
    if !r.failed && r.sourceFile == source.file {
      SymmetricDisjoint(AppendIfAbsent(t, m), s);
    }
  }

  /** Without faults a move succeeds: the title ends up in the target list and, when the
      source list had no duplicate ids, no longer in the source list. */
  lemma TransferWithoutFaults(m: Manga, savedTarget: seq<Manga>, savedSource: seq<Manga>,
                              target: Slot, source: Slot)
    requires !target.unreadable && !target.unwritable && !source.unreadable && !source.unwritable
    ensures var r := TransferOutcome(m, savedTarget, savedSource, target, source);
      && !r.failed
      && HasId(SlotContents(r.targetFile), m.id)
      && (UniqueIds(SlotContents(source.file)) ==> !HasId(SlotContents(r.sourceFile), m.id))
  {
    if UniqueIds(SlotContents(source.file)) {
      RemoveFirstWithIdUnique(SlotContents(source.file), m.id);
    }
  }

  /** Pressing the button twice has the effect of pressing it once. */
  lemma TransferIdempotent(m: Manga, savedTarget: seq<Manga>, savedSource: seq<Manga>,
                           target: Slot, source: Slot)
    requires !target.unreadable && !target.unwritable && !source.unreadable && !source.unwritable
    requires UniqueIds(SlotContents(source.file))
    ensures var r := TransferOutcome(m, savedTarget, savedSource, target, source);
      var r2 := TransferOutcome(m, r.savedTarget, r.savedSource,
                                Slot(r.targetFile, false, false), Slot(r.sourceFile, false, false));
      r2.targetFile == r.targetFile && r2.sourceFile == r.sourceFile && !r2.failed
  {
    var r := TransferOutcome(m, savedTarget, savedSource, target, source);
    TransferWithoutFaults(m, savedTarget, savedSource, target, source);
    AppendIfAbsentIdempotent(SlotContents(target.file), m);
    var s1 := SlotContents(r.sourceFile);
    assert FirstIndexOfId(s1, m.id).None?;
  }

  class DetailViewModel {
    var manga: Manga
    var savedMyCollectionMangas: seq<Manga>
    var savedBucketMangas: seq<Manga>
    var isMyCollectionButtonDisable: bool
    var isMyBucketButtonDisable: bool
    var showAlert: bool
    var myError: Option<DetailViewError>
    const interactor: LocalStore

    /** `init(interactor:manga:)`: remembers the title and tries to load the collection,
        ignoring a failure (`try?`). */
    constructor (interactor: LocalStore, manga: Manga)
      ensures this.interactor == interactor && this.manga == manga
      ensures savedMyCollectionMangas ==
                (if interactor.CollectionRead().Ok? then interactor.CollectionRead().value else [])
      ensures savedBucketMangas == []
      ensures !isMyCollectionButtonDisable && !isMyBucketButtonDisable
      ensures !showAlert && myError.None?
    {
      var loaded := interactor.Load();
      this.interactor := interactor;
      this.manga := manga;
      savedMyCollectionMangas := if loaded.Ok? then loaded.value else [];
      savedBucketMangas := [];
      isMyCollectionButtonDisable, isMyBucketButtonDisable := false, false;
      showAlert, myError := false, None;
    }

    /** `loadDataCollection()`: the collection from the store, or a thrown error that leaves
        the view model's copy as it was. */
    method LoadDataCollection() returns (ok: bool)
      modifies this`savedMyCollectionMangas
      ensures ok == interactor.CollectionRead().Ok?
      ensures savedMyCollectionMangas ==
                if ok then SlotContents(interactor.collectionFile) else old(savedMyCollectionMangas)
    {
      var loaded := interactor.Load();
      ReadSlotContents(interactor.collectionFile, interactor.collectionUnreadable);
      ok := loaded.Ok?;
      if ok {
        savedMyCollectionMangas := loaded.value;
      }
    }

    /** `loadDataBucket()`: the same for the bucket list. */
    method LoadDataBucket() returns (ok: bool)
      modifies this`savedBucketMangas
      ensures ok == interactor.BucketRead().Ok?
      ensures savedBucketMangas == if ok then SlotContents(interactor.bucketFile) else old(savedBucketMangas)
    {
      var loaded := interactor.LoadBucket();
      ReadSlotContents(interactor.bucketFile, interactor.bucketUnreadable);
      ok := loaded.Ok?;
      if ok {
        savedBucketMangas := loaded.value;
      }
    }

    /** `addToMyCollection()`: moves the title into the collection (see `TransferOutcome`);
        a failure raises the alert and records `.saveToMyCollection`. */
    method AddToMyCollection()
      modifies this`savedMyCollectionMangas, this`savedBucketMangas, this`showAlert, this`myError
      modifies interactor`collectionFile, interactor`bucketFile
      ensures var r := TransferOutcome(manga, old(savedMyCollectionMangas), old(savedBucketMangas),
                                       old(Slot(interactor.collectionFile, interactor.collectionUnreadable, interactor.collectionUnwritable)),
                                       old(Slot(interactor.bucketFile, interactor.bucketUnreadable, interactor.bucketUnwritable)));
        && savedMyCollectionMangas == r.savedTarget && savedBucketMangas == r.savedSource
        && interactor.collectionFile == r.targetFile && interactor.bucketFile == r.sourceFile
        && showAlert == (old(showAlert) || r.failed)
        && myError == (if r.failed then Some(SaveToMyCollection) else old(myError))
    {
      // the `do` block; `ok` turns false where a call throws
      var ok := LoadDataCollection();
      if ok {
        ok := LoadDataBucket();
      }
      if ok {
        ok := MoveIntoCollection();
      }
      // the `catch` block
      if !ok {
        showAlert, myError := true, Some(SaveToMyCollection);
      }
    }

    /** The body of `addToMyCollection()` after both loads: drop the title from the bucket
        list and save it, then append it to the collection and save that. */
    method MoveIntoCollection() returns (ok: bool)
      modifies this`savedMyCollectionMangas, this`savedBucketMangas
      modifies interactor`collectionFile, interactor`bucketFile
      ensures var r := MoveLoaded(manga, old(savedMyCollectionMangas), old(savedBucketMangas),
                                  old(Slot(interactor.collectionFile, interactor.collectionUnreadable, interactor.collectionUnwritable)),
                                  old(Slot(interactor.bucketFile, interactor.bucketUnreadable, interactor.bucketUnwritable)));
        && savedMyCollectionMangas == r.savedTarget && savedBucketMangas == r.savedSource
        && interactor.collectionFile == r.targetFile && interactor.bucketFile == r.sourceFile
        && ok == !r.failed
    {
      var index := FirstIndexOfId(savedBucketMangas, manga.id);
      ok := true;
      if index.Some? {
        savedBucketMangas := RemoveAt(savedBucketMangas, index.value);
        ok := interactor.SaveBucket(savedBucketMangas);
      }
      if ok {
        if !HasId(savedMyCollectionMangas, manga.id) {
          savedMyCollectionMangas := savedMyCollectionMangas + [manga];
        }
        ok := interactor.Save(savedMyCollectionMangas);
      }
    }

    /** `addToMyBucket()`: moves the title into the bucket list, the mirror image of
        `addToMyCollection()`; a failure records `.saveToBucket`. */
    method AddToMyBucket()
      modifies this`savedMyCollectionMangas, this`savedBucketMangas, this`showAlert, this`myError
      modifies interactor`collectionFile, interactor`bucketFile
      ensures var r := TransferOutcome(manga, old(savedBucketMangas), old(savedMyCollectionMangas),
                                       old(Slot(interactor.bucketFile, interactor.bucketUnreadable, interactor.bucketUnwritable)),
                                       old(Slot(interactor.collectionFile, interactor.collectionUnreadable, interactor.collectionUnwritable)));
        && savedBucketMangas == r.savedTarget && savedMyCollectionMangas == r.savedSource
        && interactor.bucketFile == r.targetFile && interactor.collectionFile == r.sourceFile
        && showAlert == (old(showAlert) || r.failed)
        && myError == (if r.failed then Some(SaveToBucket) else old(myError))
    {
      // the `do` block; `ok` turns false where a call throws
      var ok := LoadDataBucket();
      if ok {
        ok := LoadDataCollection();
      }
      if ok {
        ok := MoveIntoBucket();
      }
      // the `catch` block
      if !ok {
        showAlert, myError := true, Some(SaveToBucket);
      }
    }

    /** The body of `addToMyBucket()` after both loads. */
    method MoveIntoBucket() returns (ok: bool)
      modifies this`savedMyCollectionMangas, this`savedBucketMangas
      modifies interactor`collectionFile, interactor`bucketFile
      ensures var r := MoveLoaded(manga, old(savedBucketMangas), old(savedMyCollectionMangas),
                                  old(Slot(interactor.bucketFile, interactor.bucketUnreadable, interactor.bucketUnwritable)),
                                  old(Slot(interactor.collectionFile, interactor.collectionUnreadable, interactor.collectionUnwritable)));
        && savedBucketMangas == r.savedTarget && savedMyCollectionMangas == r.savedSource
        && interactor.bucketFile == r.targetFile && interactor.collectionFile == r.sourceFile
        && ok == !r.failed
    {
      var index := FirstIndexOfId(savedMyCollectionMangas, manga.id);
      ok := true;
      if index.Some? {
        savedMyCollectionMangas := RemoveAt(savedMyCollectionMangas, index.value);
        ok := interactor.Save(savedMyCollectionMangas);
      }
      if ok {
        if !HasId(savedBucketMangas, manga.id) {
          savedBucketMangas := savedBucketMangas + [manga];
        }
        ok := interactor.SaveBucket(savedBucketMangas);
      }
    }

    /** `checkMyBucket()`: disables the bucket button when the bucket list holds the title;
        never enables it again. */
    method CheckMyBucket()
      modifies this`savedBucketMangas, this`isMyBucketButtonDisable, this`showAlert, this`myError
      ensures var b := interactor.BucketRead();
        && savedBucketMangas == (if b.Ok? then b.value else old(savedBucketMangas))
        && isMyBucketButtonDisable == (old(isMyBucketButtonDisable) || (b.Ok? && HasId(b.value, manga.id)))
        && showAlert == (old(showAlert) || b.Failure?)
        && myError == (if b.Failure? then Some(CheckBucket) else old(myError))
    {
      var bucket := interactor.LoadBucket();
      if bucket.Failure? {
        showAlert, myError := true, Some(CheckBucket);
      } else {
        savedBucketMangas := bucket.value;
        if HasId(savedBucketMangas, manga.id) {
          isMyBucketButtonDisable := true;
        }
      }
    }

    /** `checkMyCollection()`: disables the collection button when the collection holds the
        title; never enables it again. */
    method CheckMyCollection()
      modifies this`savedMyCollectionMangas, this`isMyCollectionButtonDisable, this`showAlert, this`myError
      ensures var c := interactor.CollectionRead();
        && savedMyCollectionMangas == (if c.Ok? then c.value else old(savedMyCollectionMangas))
        && isMyCollectionButtonDisable == (old(isMyCollectionButtonDisable) || (c.Ok? && HasId(c.value, manga.id)))
        && showAlert == (old(showAlert) || c.Failure?)
        && myError == (if c.Failure? then Some(DetailViewError.CheckMyCollection) else old(myError))
    {
      var collection := interactor.Load();
      if collection.Failure? {
        showAlert, myError := true, Some(DetailViewError.CheckMyCollection);
      } else {
        savedMyCollectionMangas := collection.value;
        if HasId(savedMyCollectionMangas, manga.id) {
          isMyCollectionButtonDisable := true;
        }
      }
    }

    /** `formatMangaDetails()`. */
    function FormatMangaDetails(format: Date -> string): string
      reads this
    {
      MangaDetails(manga, format)
    }
  }
}
