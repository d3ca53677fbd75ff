/** The remote catalogue, seen only through the requests the view-models issue and the
    responses handed back to them. Building URLs, the HTTP call and JSON decoding are not
    part of this model. */
module Catalog {

  /** How a catalogue call failed: a `NetworkError` of the catalogue client (with its
      `errorDescription`), or any other thrown error. */
  datatype FetchError = NetworkError(description: string) | OtherError

  /** What an awaited catalogue call produced. */
  datatype Response<T> = Fetched(value: T) | Failed(error: FetchError)

  /** One catalogue request, with the page it asks for. */
  datatype Query =
    | AllMangas(page: int, per: int)
    | BestMangas(page: int, per: int)
    | SearchContains(text: string, page: int)
    | MangasByAuthor(idAuthor: string, page: int, per: int)
    | MangasByGenre(genre: string, page: int)
    | MangasByTheme(theme: string, page: int)
    | MangasByDemographic(demographic: string, page: int)
    | Genres
    | Themes
    | Demographics
}
