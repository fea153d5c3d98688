/**
 * `JsonApiResponse`: the envelope of the inventory API, and the page of
 * results it can be built from.
 */
module JsonApi {
  import opened Wrappers
  import opened JavaLang

  /** A page as the repository returns it: the content and its 0-based position. */
  datatype Page<T> = Page(
    content: seq<T>,
    number: Int32,
    size: Int32,
    totalElements: int,
    totalPages: Int32,
    first: bool,
    last: bool)

  /** `Page.map`: the same page with every element converted by `f`. */
  function MapPage<T, U>(page: Page<T>, f: (nat, T) -> U): (r: Page<U>)
    ensures |r.content| == |page.content|
    ensures forall i :: 0 <= i < |page.content| ==> r.content[i] == f(i, page.content[i])
    ensures r.number == page.number && r.size == page.size
    ensures r.totalElements == page.totalElements && r.totalPages == page.totalPages
    ensures r.first == page.first && r.last == page.last
  {
    var content := seq(|page.content|, i requires 0 <= i < |page.content| => f(i, page.content[i]));
    Page(content, page.number, page.size, page.totalElements, page.totalPages, page.first, page.last)
  }

  datatype MetaPaginacion = MetaPaginacion(
    page: Int32,
    size: Int32,
    totalElements: int,
    totalPages: Int32,
    first: bool,
    last: bool)

  datatype JsonApiResponse<T> = JsonApiResponse(data: seq<T>, message: Option<string>, meta: Option<MetaPaginacion>)

  /** The list constructor: no paging metadata. */
  function FromList<T>(data: seq<T>, message: Option<string>): (r: JsonApiResponse<T>)
    ensures r.data == data && r.message == message && r.meta.None?
  {
    JsonApiResponse(data, message, None)
  }

  /**
   * The page constructor. The page number becomes 1-based with Java `int`
   * addition; every other metadata field is copied.
   */
  function FromPage<T>(page: Page<T>, message: Option<string>): (r: JsonApiResponse<T>)
    ensures r.data == page.content && r.message == message
    ensures r.meta.Some?
    ensures page.number < INT_MAX ==> r.meta.value.page == page.number + 1
    ensures page.number == INT_MAX ==> r.meta.value.page == INT_MIN
    ensures r.meta.value.size == page.size && r.meta.value.totalElements == page.totalElements
    ensures r.meta.value.totalPages == page.totalPages
    ensures r.meta.value.first == page.first && r.meta.value.last == page.last
  {
    var meta := MetaPaginacion(Wrap32(page.number + 1), page.size, page.totalElements, page.totalPages,
                               page.first, page.last);
    JsonApiResponse(page.content, message, Some(meta))
  }

  /** The single-item constructor: a one-element list. */
  function FromItem<T>(item: T, message: Option<string>): (r: JsonApiResponse<T>)
    ensures |r.data| == 1 && r.data[0] == item
    ensures r.message == message && r.meta.None?
  {
    JsonApiResponse([item], message, None)
  }
}
