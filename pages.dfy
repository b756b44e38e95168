/**
 * `PaginatedResponse<T>`: one page of a list endpoint, with the server's
 * links to the neighbouring pages when they exist.
 */
module Pages {
  import opened KotlinLang

  datatype PaginatedResponse<+T> = PaginatedResponse(
    data: seq<T>,
    page: Int32,
    perPage: Int32,
    totalResults: Int32,
    nextPage: Option<string> := None,
    prevPage: Option<string> := None)
  {
    /** `hasNextPage`: the server sent a next-page link. */
    predicate HasNextPage()
      ensures HasNextPage() <==> nextPage != None
    {
      nextPage.Some?
    }

    /** `hasPrevPage`: the server sent a previous-page link. */
    predicate HasPrevPage()
      ensures HasPrevPage() <==> prevPage != None
    {
      prevPage.Some?
    }
  }

  /** A page built without links has neither neighbour. */
  lemma DefaultLinksMeanNoNeighbours<T>(data: seq<T>, page: Int32, perPage: Int32, total: Int32)
    ensures !PaginatedResponse(data, page, perPage, total).HasNextPage()
    ensures !PaginatedResponse(data, page, perPage, total).HasPrevPage()
  {
  }
}
