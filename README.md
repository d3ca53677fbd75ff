# MangaTracker / MangaHub view models in Dafny

This project models the view-model layer of two related SwiftUI apps for tracking a manga
collection: MangaTracker and its earlier variant MangaHub. A user browses a remote catalogue of
titles. They add titles to a *collection* (titles they own) or to a *bucket list* (titles they
want), and they record which volumes they own and up to which volume they have read.

The model covers these parts:

- **Records.** The catalogue record (`MangaModel`, with its three progress fields), the decoded
  catalogue item (`MangaDTO`) and their small computed properties: mapping, date labels, quote
  trimming, the author's full name and the details line.
- **Lists.** The operations on lists of records used by every screen: lookup by id,
  remove-first-by-id, append-if-absent, write-back over the first entry with an id, volume
  toggling, title filtering and removal by offsets. Each comes with lemmas about it.
- **Stores.** The two on-disk stores as in-memory classes. MangaTracker's `LocalInteractor` has
  a collection slot and a bucket slot; MangaHub's has one favourites slot. An absent file reads
  as an empty list. Fault flags decide whether a read or a write fails.
- **View models.** One class per Swift view-model, with its fields. Each method states its whole
  new state. A catalogue call is split in two: a *fetch* method appends the `Catalog.Query` it
  issues to a `requests` log, and an *apply* method performs the `MainActor.run` body for a
  given `Catalog.Response`.

Modules follow the Swift files:

| Dafny module | Swift file(s) |
|---|---|
| `Records` | `MangaTracker/MangaModel.swift`, `MangaHub/MangaModelDTO.swift` |
| `Storage` | `MangaTracker/LocalInteractor.swift`, `MangaHub/LocalInteractor.swift` |
| `Detail` | `MangaTracker/DetailViewModel.swift` |
| `CollectionDetail` | `MangaTracker/MyCollectionDetailViewModel.swift` |
| `Explore` | `MangaTracker/ExploreViewModel.swift` |
| `Categories` | `MangaTracker/CategoriesViewModel.swift` |
| `MangaCategories` | `MangaTracker/MangaCategoriesViewModel.swift` |
| `BucketList` | `MangaTracker/BucketListViewModel.swift` |
| `CollectionList` | `MangaTracker/MyCollectionListViewModel.swift` |
| `MyCollection` | `MangaTracker/MyCollectionViewModel.swift` |
| `FavouriteList` | `MangaTracker/MangaListFavouriteViewModel.swift` |
| `HubList` | `MangaHub/MangaListViewModel.swift` |
| `HubData` | `MangaHub/MangaDataViewModel.swift` |
| `HubDetailFavourite` | `MangaHub/MangaDetailFavouriteViewModel.swift` |
| `Lists`, `Text`, `Catalog`, `Common` | shared list, text, request and result types |

Notes on what the code does in a few places worth knowing:

- **Completion flag.** `checkCompletedCollection` only ever sets `isCompleted`, when the owned
  count equals the volume count; nothing clears it, not even un-owning a volume.
  `CollectionDetail.CompletionSurvivesRemoval` states the consequence.
- **Store error messages.** The Swift stores only throw Foundation errors. So the
  `catch let e as PersistenceErrors` and `catch let e as BucketErrors` branches never run, and
  the generic branch shows the `generalError` text, "An unknown error occurred". The model uses
  that text (`Storage.UnknownError`). For the bucket list it comes from `BucketErrors`
  (`MangaTracker/BucketListViewModel.swift:106-107`). MangaTracker's own `PersistenceErrors`
  enum is not part of this model, so for the collection list, the collection screen and the
  favourites list the text is taken from MangaHub's identical definition
  (`MangaHub/PersistenceErrors.swift:21`).
- **Explore carousel.** `MangaTracker/ExploreViewModel.swift` fetches the all-titles carousel
  from `randomPageAllMangas` on every scroll, not from `page`, so it fetches the same page again.
  The model keeps this (`Explore.Issuable`).
- **Two MangaTracker files use MangaHub definitions.** `MangaTracker/MangaListFavouriteViewModel.swift`
  calls MangaHub's store interface (`cargar` and `guardar`), so it is modelled over the
  single-slot `Storage.HubStore`. `MangaTracker/MangaCategoriesViewModel.swift` has no store
  (its only interactor is the catalogue); from MangaHub it takes only the `NetworkError` texts
  `genresError`, `demographicsError` and `themesErrors` (`MangaHub/NetworkErrors.swift:49-54`),
  which become `MangaCategories.TaxonomyMessage`.

## Model

| member | source | states |
|---|---|---|
| Records.MapToModel | MangaHub/MangaModelDTO.swift:44-68 | every catalogue field is copied unchanged; the progress fields start as no volumes bought, volume 0 read, not completed |
| Records.MapToModelOfCatalogue | MangaHub/MangaModelDTO.swift:44-68 | mapping the catalogue part of a record and restoring its progress fields gives the record back |
| Records.ProgressUpdateKeepsCatalogue | MangaTracker/MangaModel.swift:4-26 | changing only `boughtVolumes`, `readingVolume` and `isCompleted` never changes a catalogue (`let`) field, `id` included |
| Records.AuthorCompleteName | MangaHub/MangaModelDTO.swift:91-93 | the full name is the first name, one space, then the last name, with length first + last + 1 |
| Records.FormattedStartDate | MangaTracker/MangaModel.swift:28-30 | "No Date Registered" when no start date exists, the formatter's text otherwise |
| Records.FormattedEndDate | MangaTracker/MangaModel.swift:32-34 | "Currently Active" when no end date exists, the formatter's text otherwise |
| Records.SkipLeadingQuotes | MangaTracker/MangaModel.swift:36-39 | the position returned is the first one from `i` on that holds no `"` (or the end), and everything skipped is `"` |
| Records.SkipTrailingQuotes | MangaTracker/MangaModel.swift:36-39 | the end returned is the last one back from `e` whose preceding character is no `"` (or `lo`), and everything skipped is `"` |
| Records.TrimQuotes | MangaTracker/MangaModel.swift:36-44 | `trimmingCharacters(in: "\"")`: the result is no longer than the input and neither starts nor ends with `"` |
| Records.TrimQuotesShape | MangaTracker/MangaModel.swift:36-39 | the trimmed picture string is a slice of the original with only quotes around it, and it neither starts nor ends with a quote |
| Records.TrimQuotesIdempotent | MangaTracker/MangaModel.swift:41-44 | trimming an already trimmed URL string changes nothing |
| Records.TrimQuotesUnquoted | MangaTracker/MangaModel.swift:41-44 | a string that neither starts nor ends with a quote is left unchanged |
| Records.MainPictureURLString | MangaTracker/MangaModel.swift:36-39 | the string behind `mainPictureURL` has no outer quote and trimming it again changes nothing |
| Records.ValidURLString | MangaTracker/MangaModel.swift:41-44 | the string behind `validURL` has no outer quote and trimming it again changes nothing |
| Records.MangaDetailsStartWithDates | MangaTracker/DetailViewModel.swift:128-130 | the details line always starts with "start-end" |
| Records.MangaDetails | MangaTracker/DetailViewModel.swift:127-145 | the definition of `formatMangaDetails`: dates, optional volumes, then the first genre, theme and demographic when non-empty; its properties are the `Records.MangaDetails…` lemmas below |
| Records.MangaDetailsDatesOnly | MangaTracker/DetailViewModel.swift:128-146 | with no volume count and no non-empty first genre, theme or demographic, the line is exactly "start-end" |
| Records.MangaDetailsVolumes | MangaTracker/DetailViewModel.swift:131-133 | a known volume count N appears right after the dates as " • N volumes" |
| Records.MangaDetailsNoVolumes | MangaTracker/DetailViewModel.swift:130-132 | without a volume count no volumes segment appears and the tag segments follow the dates directly |
| Records.MangaDetailsGenre | MangaTracker/DetailViewModel.swift:134-136 | a non-empty first genre g appears right after the dates and volumes as " • g" |
| Records.MangaDetailsTheme | MangaTracker/DetailViewModel.swift:137-139 | a non-empty first theme t appears right after the genre segment as ", t" |
| Records.MangaDetailsDemographic | MangaTracker/DetailViewModel.swift:140-142 | a non-empty first demographic d ends the line as ", d" |
| Records.MangaDetailsAllTags | MangaTracker/DetailViewModel.swift:127-145 | with no volume count and all three first tags non-empty, the line is the dates followed by " • genre, theme, demographic" |
| Records.MangaDetailsIgnoreProgress | MangaTracker/MyCollectionDetailViewModel.swift:68-75 | tracking progress never changes the details line |
| Text.Lower | MangaTracker/BucketListViewModel.swift:69-73 | lower-casing keeps the length, maps each character and leaves no upper-case ASCII letter |
| Text.LowerIdempotent | MangaTracker/BucketListViewModel.swift:69-73 | lower-casing twice is lower-casing once |
| Lists.FirstIndexOfId | MangaTracker/MyCollectionDetailViewModel.swift:101-103 | `firstIndex(where:)` finds nothing exactly when no entry has the id; otherwise the index holds the id and no earlier entry does |
| Lists.CountIdPositive | MangaTracker/DetailViewModel.swift:101-124 | an id occurs a positive number of times exactly when some entry has it |
| Lists.CountIdAppend | MangaTracker/DetailViewModel.swift:67-70 | occurrence counts add up over concatenation |
| Lists.RemoveAt | MangaTracker/DetailViewModel.swift:61-64 | `remove(at:)` shortens the list by one and shifts the later entries down, keeping their order |
| Lists.RemoveFirstWithId | MangaTracker/DetailViewModel.swift:61-64 | `firstIndex` then `remove(at:)`: the list loses at most one entry |
| Lists.RemoveFirstWithIdCount | MangaTracker/DetailViewModel.swift:61-64 | removing by id removes exactly one occurrence when the id is present and nothing otherwise |
| Lists.RemoveFirstWithIdKeepsOthers | MangaTracker/DetailViewModel.swift:61-64 | entries with other ids are all kept, in order |
| Lists.RemoveFirstWithIdUnique | MangaTracker/DetailViewModel.swift:61-64 | in a list without duplicate ids, removing by id leaves no entry with that id and keeps the ids unique |
| Lists.AppendIfAbsent | MangaTracker/DetailViewModel.swift:67-70 | the result holds the id, keeps the old list as its prefix and grows by at most one |
| Lists.AppendIfAbsentIdempotent | MangaHub/MangaDataViewModel.swift:39-41 | adding the same title twice has the effect of adding it once |
| Lists.AppendIfAbsentSingle | MangaTracker/DetailViewModel.swift:67-70 | with at most one entry for the id before, one or two adds leave exactly one |
| Lists.AppendIfAbsentUnique | MangaHub/MangaDataViewModel.swift:39-41 | appending if absent keeps the ids unique |
| Lists.MoveKeepsExclusive | MangaTracker/DetailViewModel.swift:55-98 | appending to one list and removing from the other keeps both unique and disjoint |
| Lists.RemoveKeepsDisjoint | MangaTracker/DetailViewModel.swift:61-64 | removing from one of two disjoint lists keeps them disjoint |
| Lists.ReplaceFirstWithId | MangaTracker/MyCollectionDetailViewModel.swift:125-129 | writing back keeps the length and every id, and changes nothing when the id is absent |
| Lists.ReplaceFirstWithIdEffect | MangaTracker/MyCollectionDetailViewModel.swift:125-129 | only the first entry with the id is replaced; all others stay |
| Lists.RemoveAll | MangaTracker/MyCollectionDetailViewModel.swift:120-122 | `removeAll { $0 == v }` leaves no `v` and keeps every other volume, with its multiplicity |
| Lists.ToggleVolume | MangaTracker/MyCollectionDetailViewModel.swift:120-124 | the definition of the toggle (`removeAll` when owned, `append` otherwise); its properties are the `Lists.ToggleVolume…` lemmas |
| Lists.ToggleVolumeFlips | MangaTracker/MyCollectionDetailViewModel.swift:120-124 | toggling flips the membership of the volume and keeps every other volume |
| Lists.RemoveAllAbsent | MangaTracker/MyCollectionDetailViewModel.swift:120-124 | removing an absent volume changes nothing |
| Lists.RemoveAllAppend | MangaTracker/MyCollectionDetailViewModel.swift:120-124 | removal distributes over concatenation |
| Lists.RemoveAllShrinks | MangaTracker/MyCollectionDetailViewModel.swift:120-122 | removing a present volume makes the list strictly shorter |
| Lists.ToggleVolumeTwiceAbsent | MangaTracker/MyCollectionDetailViewModel.swift:120-124 | toggling an absent volume twice restores the volumes exactly |
| Lists.ToggleVolumeTwicePresent | MangaHub/MangaDetailFavouriteViewModel.swift:65-69 | toggling a present volume twice removes its duplicates and moves it to the end |
| Lists.SubsequenceRefl | MangaTracker/BucketListViewModel.swift:69-71 | a list is an order-preserving subsequence of itself |
| Lists.SubsequenceDropOne | MangaTracker/BucketListViewModel.swift:49-52 | dropping one entry leaves an order-preserving subsequence |
| Lists.TitleMatchesIgnoresQueryCase | MangaTracker/BucketListViewModel.swift:71-73 | the query's case never matters to the match |
| Lists.FilterByTitle | MangaTracker/BucketListViewModel.swift:69-75 | exactly the entries whose lower-cased title contains the lower-cased query are kept, each with its multiplicity |
| Lists.FilterByTitleOrdered | MangaTracker/BucketListViewModel.swift:69-75 | filtering keeps the order of the list |
| Lists.SearchFilter | MangaTracker/MyCollectionListViewModel.swift:57-64 | the listed entries are a sub-multiset of the stored ones; `Lists.SearchFilterMeaning` states which |
| Lists.SearchFilterMeaning | MangaTracker/MyCollectionListViewModel.swift:57-64 | an empty query keeps the whole list; otherwise the result is the title filter |
| Lists.RemoveOffsets | MangaTracker/BucketListViewModel.swift:49-52 | the definition of `remove(atOffsets:)` for in-range offsets: the entries at the offsets are dropped; its properties are the `Lists.RemoveOffsets…` lemmas |
| Lists.RemoveOffsetsLength | MangaTracker/BucketListViewModel.swift:49-52 | for in-range offsets, `remove(atOffsets:)` removes one entry per offset |
| Lists.RemoveOffsetsEffect | MangaTracker/MyCollectionListViewModel.swift:43-55 | every entry not at a removed offset survives, in its relative order |
| Lists.RemoveOffsetsCount | MangaTracker/MyCollectionViewModel.swift:38-50 | with valid offsets, the list shrinks by exactly their number |
| Storage.ReadSlot | MangaTracker/LocalInteractor.swift:27-36 | an absent file reads as `[]`; an existing file reads as its list unless reading fails |
| Storage.ReadSlotContents | MangaHub/LocalInteractor.swift:30-39 | a successful read returns the slot's contents; a read fails only for an existing, unreadable file |
| Storage.LocalStore.Load | MangaTracker/LocalInteractor.swift:27-36 | loading the collection returns the slot's read result, and `[]` for an absent file |
| Storage.LocalStore.Save | MangaTracker/LocalInteractor.swift:20-24 | a save that succeeds replaces the whole collection file; a failed save leaves it |
| Storage.LocalStore.LoadBucket | MangaTracker/LocalInteractor.swift:45-53 | loading the bucket list returns the slot's read result, and `[]` for an absent file |
| Storage.LocalStore.SaveBucket | MangaTracker/LocalInteractor.swift:39-42 | a save that succeeds replaces the whole bucket file; a failed save leaves it |
| Storage.HubStore.Load | MangaHub/LocalInteractor.swift:30-39 | `cargar` returns the slot's read result, and `[]` for an absent file |
| Storage.HubStore.Save | MangaHub/LocalInteractor.swift:22-27 | `guardar` replaces the whole file or fails and leaves it |
| Detail.TransferOutcome | MangaTracker/DetailViewModel.swift:55-98 | the definition of a move (load target, load source, then `Detail.MoveLoaded`), stopping at the first thrown error; its properties are the `Detail.Transfer…` lemmas |
| Detail.MoveLoaded | MangaTracker/DetailViewModel.swift:59-69 | the definition of the steps after both loads: remove and save the source if it held the title, append if absent and save the target |
| Detail.TransferOutcomeEffect | MangaTracker/DetailViewModel.swift:55-98 | a move changes the target file only when it succeeds, and then to the target list with the title appended if absent; the source only loses the title's first entry; the move fails exactly when one of its four store steps meets a fault |
| Detail.TransferKeepsExclusive | MangaTracker/DetailViewModel.swift:55-98 | whether it succeeds or fails, a move keeps both lists free of duplicate ids and disjoint |
| Detail.TransferWithoutFaults | MangaTracker/DetailViewModel.swift:55-98 | without store faults a move succeeds, the title is in the target list and, when the source has unique ids, no longer in the source |
| Detail.TransferIdempotent | MangaTracker/DetailViewModel.swift:55-98 | pressing the add button twice has the effect of pressing it once |
| Detail.DetailViewModel.constructor | MangaTracker/DetailViewModel.swift:36-40 | the saved collection is the stored one, or `[]` when loading fails (`try?`); both buttons start enabled |
| Detail.MoveLoadedKeepsExclusive | MangaTracker/DetailViewModel.swift:59-69 | once both lists are loaded, the remove, save, append and save steps keep both lists free of duplicate ids and disjoint |
| Detail.DetailViewModel.LoadDataCollection | MangaTracker/DetailViewModel.swift:44-46 | reports whether the collection could be read; on success the saved collection is the stored one, on failure it is left as it was |
| Detail.DetailViewModel.LoadDataBucket | MangaTracker/DetailViewModel.swift:50-52 | the same for the bucket list |
| Detail.DetailViewModel.MoveIntoCollection | MangaTracker/DetailViewModel.swift:59-69 | after both loads: the saved lists and the two files become `Detail.MoveLoaded` with the bucket as source; it reports success exactly when no save threw |
| Detail.DetailViewModel.MoveIntoBucket | MangaTracker/DetailViewModel.swift:82-92 | the mirror image, with the collection as source |
| Detail.DetailViewModel.AddToMyCollection | MangaTracker/DetailViewModel.swift:55-75 | the stores and saved lists become the move's outcome with the bucket as source; any failure sets `showAlert` and `.saveToMyCollection` |
| Detail.DetailViewModel.AddToMyBucket | MangaTracker/DetailViewModel.swift:78-98 | the mirror image, with the collection as source; any failure sets `showAlert` and `.saveToBucket` |
| Detail.DetailViewModel.CheckMyBucket | MangaTracker/DetailViewModel.swift:101-111 | the bucket button is disabled when the id is stored, and never re-enabled; a failed load sets `.checkBucket` |
| Detail.DetailViewModel.CheckMyCollection | MangaTracker/DetailViewModel.swift:114-124 | the collection button is disabled when the id is stored, and never re-enabled; a failed load sets `.checkMyCollection` |
| Detail.DetailViewModel.FormatMangaDetails | MangaTracker/DetailViewModel.swift:127-146 | the details line of the screen's title, `Records.MangaDetails(manga, format)`, whose segments the `Records.MangaDetails…` lemmas state |
| CollectionDetail.CompletionChecked | MangaTracker/MyCollectionDetailViewModel.swift:68-75 | the title is marked complete when it was already marked or its owned count equals its volume count; nothing else changes |
| CollectionDetail.CompletionSurvivesRemoval | MangaTracker/MyCollectionDetailViewModel.swift:68-75 | un-owning a volume of a complete collection leaves the title marked complete, though it no longer is |
| CollectionDetail.WriteBackEffect | MangaTracker/MyCollectionDetailViewModel.swift:125-129 | in a collection without duplicates, the entry with the title's id becomes the tracked title and every other entry stays |
| CollectionDetail.TrackVolumeEffect | MangaTracker/MyCollectionDetailViewModel.swift:117-129 | after toggling and writing back, the stored entry has exactly that volume flipped and its catalogue data unchanged |
| CollectionDetail.MyCollectionDetailViewModel.constructor | MangaTracker/MyCollectionDetailViewModel.swift:36-43 | `reading` and `volumes` start as the title's reading volume and bought volumes |
| CollectionDetail.MyCollectionDetailViewModel.CheckCompletedCollection | MangaTracker/MyCollectionDetailViewModel.swift:68-75 | `collectionCompleted` holds exactly when the owned count equals the known volume count; the title's flag is only ever set |
| CollectionDetail.MyCollectionDetailViewModel.PersistReadingVolume | MangaTracker/MyCollectionDetailViewModel.swift:98-113 | on a good load the reading volume is written back over the first entry with the id and saved; a load failure changes nothing but the alert and shows "Failed to load your collection."; a save failure shows the `saveDataError` text |
| CollectionDetail.MyCollectionDetailViewModel.PersistBoughtVolumes | MangaTracker/MyCollectionDetailViewModel.swift:117-137 | on a good load the volume is toggled, written back and saved; a load failure happens before any change; a save failure keeps the toggle and shows the `volumeTrackingError` text |
| CollectionDetail.MyCollectionDetailViewModel.FormatMangaDetails | MangaTracker/MyCollectionDetailViewModel.swift:46-64 | the details line of the screen's title, `Records.MangaDetails(manga, format)`, whose segments the `Records.MangaDetails…` lemmas state |
| Explore.ExploreViewModel.constructor | MangaTracker/ExploreViewModel.swift:49-53 | issues the all-titles fetch of the random page and the first best-titles fetch, with empty lists and page 1 |
| Explore.ExploreViewModel.FetchAllMangas | MangaTracker/ExploreViewModel.swift:57-75 | issues the all-titles query for the random page, ten per page |
| Explore.ExploreViewModel.ApplyAllMangas | MangaTracker/ExploreViewModel.swift:60-73 | fetched titles are appended after the old ones; a catalogue error keeps the list and sets the alert, `.carrouselMangasError` and its description; any other error sets only the alert and the general message |
| Explore.ExploreViewModel.FetchBestMangas | MangaTracker/ExploreViewModel.swift:79-97 | issues the best-titles query for page 1 |
| Explore.ExploreViewModel.ApplyBestMangas | MangaTracker/ExploreViewModel.swift:82-95 | fetched best titles are appended; a catalogue error keeps the list and sets `.bestMangasError` and its description; any other error sets only the alert and the general message |
| Explore.ExploreViewModel.CheckForMoreMangas | MangaTracker/ExploreViewModel.swift:101-124 | a no-op unless the item is the last loaded one; then `page` grows by one, the item is remembered and exactly one fetch is issued, a search when searching and the random-page fetch otherwise |
| Explore.ExploreViewModel.ApplyMoreSearch | MangaTracker/ExploreViewModel.swift:108-121 | another search page is appended with the old list as prefix; a failure keeps the list and sets `.checkForMoreMangasError` |
| Explore.ExploreViewModel.CheckForMoreMangasAuthor | MangaTracker/ExploreViewModel.swift:129-134 | `pageAuthor` grows by one and the next author page is fetched only for the last author item |
| Explore.ExploreViewModel.FetchMangasByAuthor | MangaTracker/ExploreViewModel.swift:193-207 | issues the by-author page query with the current author page |
| Explore.ExploreViewModel.ApplyMangasByAuthor | MangaTracker/ExploreViewModel.swift:196-205 | author results are appended; a failure keeps them and shows "Error loading mangas by this author" |
| Explore.ExploreViewModel.Search | MangaTracker/ExploreViewModel.swift:140-149 | issues the contains-search query for the current page |
| Explore.ExploreViewModel.ApplySearch | MangaTracker/ExploreViewModel.swift:150-163 | a result replaces the list and an empty one toggles `successSearch`; a failure forces `successSearch` false and sets `.searchError` |
| Explore.ExploreViewModel.OnChangeText | MangaTracker/ExploreViewModel.swift:173-189 | clears the list, resets `page` to 1 and `successSearch` to true; `isSearched` and `listNeeded` become "the text is not empty"; empty text fetches the carousel page again, other text issues a search from page 1 |
| Categories.KindNamed | MangaTracker/CategoriesViewModel.swift:62-71 | "Demographics", "Themes" and "Genres" name their taxonomy; any other string names none |
| Categories.PageOf | MangaTracker/CategoriesViewModel.swift:108 | a subcategory's page defaults to 1 |
| Categories.BumpPage | MangaTracker/CategoriesViewModel.swift:58-59 | only that subcategory's page changes, from its value (default 1) to value + 1 |
| Categories.AppendResult | MangaTracker/CategoriesViewModel.swift:113-117 | the subcategory's entry is created, or extended with the old entry as prefix; other subcategories are untouched |
| Categories.SubQueries | MangaTracker/CategoriesViewModel.swift:99-103 | one query per subcategory, in order, each with that subcategory's page |
| Categories.CategoriesViewModel.constructor | MangaTracker/CategoriesViewModel.swift:46-48 | empty dictionaries and lists, loading |
| Categories.CategoriesViewModel.CheckForMoreMangasCat | MangaTracker/CategoriesViewModel.swift:55-73 | a no-op unless a list exists for the subcategory and the item is its last; then the page is bumped and a fetch is issued only for the three known category names |
| Categories.CategoriesViewModel.FetchTaxonomy | MangaTracker/CategoriesViewModel.swift:76-96 | empties the results dictionary but keeps the page counters, and issues the taxonomy query |
| Categories.CategoriesViewModel.ApplyTaxonomy | MangaTracker/CategoriesViewModel.swift:80-94 | a result becomes the subcategories and issues one fetch per subcategory; a failure sets the matching list error; loading ends |
| Categories.CategoriesViewModel.FetchMangasForAllSubs | MangaTracker/CategoriesViewModel.swift:99-103 | issues exactly the per-subcategory queries, in order |
| Categories.CategoriesViewModel.FetchMangasBy | MangaTracker/CategoriesViewModel.swift:107-111 | issues the subcategory's query with its page read when it starts |
| Categories.CategoriesViewModel.ApplyMangasBy | MangaTracker/CategoriesViewModel.swift:111-125 | a result is appended under the subcategory only; a failure keeps the results and shows "We could not load mangas from" + the subcategory |
| HubList.ScrollFetchFor | MangaHub/MangaListViewModel.swift:76-95 | a search when searching, whatever the best flag; best titles when only the best flag is set; all titles otherwise |
| HubList.MangaListViewModel.constructor | MangaHub/MangaListViewModel.swift:32-35 | issues the first all-titles fetch, page 1, empty lists |
| HubList.MangaListViewModel.FetchAllMangas | MangaHub/MangaListViewModel.swift:37-52 | issues the all-titles query for the current page |
| HubList.MangaListViewModel.ApplyAllMangas | MangaHub/MangaListViewModel.swift:40-50 | results are appended; a failure sets `.allMangasError` and "No Mangas" |
| HubList.MangaListViewModel.FetchBestMangas | MangaHub/MangaListViewModel.swift:55-70 | issues the best-titles query for the current page |
| HubList.MangaListViewModel.ApplyBestMangas | MangaHub/MangaListViewModel.swift:58-68 | results are appended; a failure sets `.bestMangasError` and "No Best Mangas" |
| HubList.MangaListViewModel.IsLastItem | MangaHub/MangaListViewModel.swift:74-97 | a no-op unless the item is the last loaded one; then `page` grows by one and exactly the fetch `ScrollFetchFor` picks is issued |
| HubList.MangaListViewModel.ApplyScrollSearch | MangaHub/MangaListViewModel.swift:80-92 | another search page is appended; a failure sets the "Scroll Error" alert |
| HubList.MangaListViewModel.Search | MangaHub/MangaListViewModel.swift:100-112 | issues the contains-search query for the current page |
| HubList.MangaListViewModel.ApplySearch | MangaHub/MangaListViewModel.swift:112-125 | a result replaces the list and an empty one toggles `successSearch`; a failure keeps the list and shows "No Found" |
| HubList.MangaListViewModel.OnChangeText | MangaHub/MangaListViewModel.swift:132-147 | clears, `page` 1, `successSearch` true; empty text clears both flags, other text sets `isSearched`, keeps the best flag and issues a search |
| HubList.MangaListViewModel.ShowBestMangas | MangaHub/MangaListViewModel.swift:149-154 | clears, `page` 1, best flag set, `isSearched` kept, and the first best page issued |
| HubList.MangaListViewModel.ResetAllMangas | MangaHub/MangaListViewModel.swift:156-162 | clears, `page` 1, both flags cleared, and the first all-titles page issued |
| HubList.MangaListViewModel.FetchMangasByAuthor | MangaHub/MangaListViewModel.swift:171-185 | issues the by-author query for the current author page |
| HubList.MangaListViewModel.ApplyMangasByAuthor | MangaHub/MangaListViewModel.swift:174-183 | author results are appended; a failure shows "Error loading mangas by author" |
| HubList.MangaListViewModel.IsLastItemAuthor | MangaHub/MangaListViewModel.swift:187-192 | `pageAuthor` grows by one and the next author page is issued only for the last author item |
| MangaCategories.MangaCategoriesViewModel.constructor | MangaTracker/MangaCategoriesViewModel.swift:16-18 | empty lists, shared page 1 |
| MangaCategories.Dispatch | MangaTracker/MangaCategoriesViewModel.swift:19-30 | at most one query, and none exactly when the stored category type names no taxonomy |
| MangaCategories.MangaCategoriesViewModel.CategoryTypeSelected | MangaTracker/MangaCategoriesViewModel.swift:20-31 | dispatches on the stored category type, not on the argument; unknown types fetch nothing |
| MangaCategories.MangaCategoriesViewModel.CategorySelected | MangaTracker/MangaCategoriesViewModel.swift:34-36 | the same dispatch on the stored type |
| MangaCategories.MangaCategoriesViewModel.IsLastItemCategories | MangaTracker/MangaCategoriesViewModel.swift:38-43 | a no-op unless the item is the last result; then the shared page grows by one and the category is fetched again |
| MangaCategories.MangaCategoriesViewModel.FetchTaxonomy | MangaTracker/MangaCategoriesViewModel.swift:46-50 | clears the results without resetting the page, and issues the taxonomy query |
| MangaCategories.MangaCategoriesViewModel.ApplyTaxonomy | MangaTracker/MangaCategoriesViewModel.swift:50-60 | a result becomes the categories; a failure keeps them and sets `myError` and the "No … Found" alert |
| MangaCategories.MangaCategoriesViewModel.ApplyMangasBy | MangaTracker/MangaCategoriesViewModel.swift:65-80 | results are appended with the old ones as prefix; a failure keeps them and sets `myErrorSpecific` |
| BucketList.BucketListViewModel.constructor | MangaTracker/BucketListViewModel.swift:30-32 | an empty list, no search, `successSearch` true |
| BucketList.BucketListViewModel.LoadMyBucketFromJson | MangaTracker/BucketListViewModel.swift:35-45 | a good load replaces the list; a failed one keeps it and shows the alert |
| BucketList.BucketListViewModel.DeleteBucketMangas | MangaTracker/BucketListViewModel.swift:49-52 | removes exactly the offsets, keeps the rest in order, then saves the whole list; the removal is kept when saving fails |
| BucketList.BucketListViewModel.SaveBucketMangas | MangaTracker/BucketListViewModel.swift:55-65 | saves the whole list; a failure shows the alert |
| BucketList.BucketListViewModel.FilteredBucketMangas | MangaTracker/BucketListViewModel.swift:69-75 | an empty query gives the whole list; otherwise the matching titles, in order |
| BucketList.BucketListViewModel.Search | MangaTracker/BucketListViewModel.swift:79-90 | records the text; `successSearch` holds exactly when the text is empty or some title matches; the list is untouched |
| CollectionList.MyCollectionListViewModel.constructor | MangaTracker/MyCollectionListViewModel.swift:27-29 | an empty list, no search |
| CollectionList.MyCollectionListViewModel.LoadMyCollectionFromJson | MangaTracker/MyCollectionListViewModel.swift:33-41 | a good load replaces the list; a failed one keeps it and shows "Error loading your collection from disk" |
| CollectionList.MyCollectionListViewModel.DeleteMangas | MangaTracker/MyCollectionListViewModel.swift:43-55 | removes exactly the offsets, then saves; the removal is kept when saving fails |
| CollectionList.MyCollectionListViewModel.FilteredMangas | MangaTracker/MyCollectionListViewModel.swift:57-64 | an empty query gives the whole list; otherwise the matching titles, in order |
| CollectionList.MyCollectionListViewModel.Search | MangaTracker/MyCollectionListViewModel.swift:68-91 | records the text; `successSearch` becomes false when nothing matches, true for empty text, and is kept otherwise |
| MyCollection.MyCollectionViewModel.constructor | MangaTracker/MyCollectionViewModel.swift:20-22 | an empty list, no search |
| MyCollection.MyCollectionViewModel.LoadMyCollectionFromJson | MangaTracker/MyCollectionViewModel.swift:24-36 | a good load replaces the list; a failed one keeps it and shows the alert |
| MyCollection.MyCollectionViewModel.DeleteMangas | MangaTracker/MyCollectionViewModel.swift:38-50 | removes exactly the offsets, then saves; the removal is kept when saving fails |
| MyCollection.MyCollectionViewModel.FilteredMangas | MangaTracker/MyCollectionViewModel.swift:52-59 | an empty query gives the whole list; otherwise the matching titles, in order |
| FavouriteList.MangaListFavouriteViewModel.constructor | MangaTracker/MangaListFavouriteViewModel.swift:19-21 | an empty list, no search |
| FavouriteList.MangaListFavouriteViewModel.ShowFavourites | MangaTracker/MangaListFavouriteViewModel.swift:23-35 | a good load replaces the list; a failed one keeps it and shows the alert |
| FavouriteList.MangaListFavouriteViewModel.DeleteMangas | MangaTracker/MangaListFavouriteViewModel.swift:37-49 | removes exactly the offsets, then saves; the removal is kept when saving fails |
| FavouriteList.MangaListFavouriteViewModel.FilteredMangas | MangaTracker/MangaListFavouriteViewModel.swift:51-58 | an empty query gives the whole list; otherwise the matching titles, in order |
| HubData.MangaDataViewModel.constructor | MangaHub/MangaDataViewModel.swift:24-28 | the saved favourites are the stored ones, or `[]` when loading fails (`try?`) |
| HubData.MangaDataViewModel.SaveFavouriteManga | MangaHub/MangaDataViewModel.swift:34-50 | appends the title only if its id is absent and rewrites the whole list; without faults the title's id is stored; a failure sets `.saveFavourite` |
| HubData.MangaDataViewModel.CheckFavouriteManga | MangaHub/MangaDataViewModel.swift:52-62 | disables the button when the id is stored and never re-enables it; a failure sets `.checkFavourite` |
| HubDetailFavourite.MangaDetailFavouriteViewModel.constructor | MangaHub/MangaDetailFavouriteViewModel.swift:26-31 | `reading` and `volumes` start as the title's reading volume and bought volumes |
| HubDetailFavourite.MangaDetailFavouriteViewModel.PersistReadingVolume | MangaHub/MangaDetailFavouriteViewModel.swift:47-59 | on a good load the reading volume is written back over the first entry with the id and saved; any failure shows "Error persisting your reading volume" |
| HubDetailFavourite.MangaDetailFavouriteViewModel.PersistBoughtVolumes | MangaHub/MangaDetailFavouriteViewModel.swift:62-79 | on a good load the volume is toggled, written back and saved; any failure shows "Error persisting your volumes"; a load failure happens before any change |

## Left out

- SwiftUI views, navigation, alerts as UI, colours and layout are not modelled. Only the view models' state is.
- Concurrency is not modelled: `Task`, `MainActor.run`, cancellation of a pending search and the 800 ms / 400 ms debounce delays. Each fetch is a start step (logging the query) and an apply step; interleavings are not modelled.
- The two-second `Task.sleep` before `isLoading` turns false in `MangaTracker/CategoriesViewModel.swift` is folded into `Categories.CategoriesViewModel.ApplyTaxonomy`.
- A fetch in the model reads the page counter when it starts. The Explore, HubList and MangaCategories fetches read it inside the `Task`, which can differ only under interleavings. The Categories fetches read `pageCategories[…, default: 1]` before the `Task` starts (`MangaTracker/CategoriesViewModel.swift:108`, `162`, `216`), as the model does.
- The catalogue client is not modelled: URL building, the HTTP call and JSON decoding. The apply methods take the response as a parameter.
- File I/O and JSON encoding in both `LocalInteractor`s are not modelled. The stores keep lists in memory, and fault flags stand for failing reads and writes.
- `Int.random(in: 1...6473)` for the explore carousel page is a constructor parameter (`Explore.ExploreViewModel.constructor`).
- Foundation `URL` construction and its force-unwrap in `mainPictureURL` / `validURL` are not modelled. Only the trimmed strings are (`Records.MainPictureURLString`, `Records.ValidURLString`).
- `score` (a `Double`) is carried unchanged as a `real`. No floating-point arithmetic is modelled.
- Date formatting is not modelled. `Date.formatted` is an abstract formatter function passed in, and only the nil defaults are fixed.
- Text.Lower: Swift's Unicode `lowercased()` is modelled on ASCII letters only.
- Text.Contains: it is true for an empty needle. The `filtered…` properties never reach it, because they return the whole list for an empty query first. `search(text:)` filters without that guard (`MangaTracker/BucketListViewModel.swift:84-89`, `MangaTracker/MyCollectionListViewModel.swift:78-90`), but there an empty text forces a success: `|| searchedText.isEmpty` in the bucket list and `if searchedText.isEmpty { successSearch = true }` in the collection list. `BucketList.BucketListViewModel.Search` and `CollectionList.MyCollectionListViewModel.Search` state that result.
- The `errorDescription` tables of the error enums are constant strings. They appear as functions without contracts.
- Categories.CategoriesViewModel.FetchTaxonomy, ApplyTaxonomy, FetchMangasBy and ApplyMangasBy: the three Swift copies for genres, themes and demographics are one method each, parameterised by `SubKind`. The queries and error cases differ per kind as in the source.
- MangaCategories.MangaCategoriesViewModel.FetchTaxonomy, ApplyTaxonomy and ApplyMangasBy: the same merging of the three per-taxonomy copies.
- Detail.DetailViewModel.AddToMyCollection and AddToMyBucket: the ensures tie the new state to `Detail.TransferOutcome`, whose tail after the two loads is `Detail.MoveLoaded`, the specification of `MoveIntoCollection` and `MoveIntoBucket`. These two helper methods hold the part of the `do` block after the loads, so each proof stays small. Preservation of exclusivity (no id repeated in a list, no id in both) is the separate lemma `Detail.TransferKeepsExclusive` over `Detail.TransferOutcome`, not an ensures of the methods.
- Lists.RemoveOffsets: an offset outside the list is skipped, where Swift's `remove(atOffsets:)` traps. Every `Delete…` method requires in-range offsets, so this case is never reached.
- The `reading` stepper bound `0...(volumes ?? 0)` belongs to the views. It is not a precondition here.
