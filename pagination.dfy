/** The shared offset-based pagination schema and its defaults. */
module Pagination {
  import opened Wrappers

  datatype Pagination = Pagination(offset: int, limit: int, total: int)

  const DefaultOffset: int := 0
  const DefaultLimit: int := 100
  const DefaultTotal: int := 0

  /** The pagination object: each missing number takes its default,
      supplied numbers are kept. */
  function ParsePagination(offset: Option<int>, limit: Option<int>, total: Option<int>): (p: Pagination)
    ensures offset.Some? ==> p.offset == offset.value
    ensures limit.Some? ==> p.limit == limit.value
    ensures total.Some? ==> p.total == total.value
    ensures offset.None? ==> p.offset == 0
    ensures limit.None? ==> p.limit == 100
    ensures total.None? ==> p.total == 0
  {
    Pagination(offset.GetOr(DefaultOffset), limit.GetOr(DefaultLimit), total.GetOr(DefaultTotal))
  }

  /** The fields of a supplied pagination object, each possibly missing. */
  datatype PaginationInput = PaginationInput(offset: Option<int>, limit: Option<int>, total: Option<int>)

  /** A schema that embeds `pagination`: a missing object takes the
      default `{limit: 100, offset: 0, total: 0}`. */
  function ParseEmbedded(pagination: Option<PaginationInput>): (p: Pagination)
    ensures pagination.None? ==> p == Pagination(0, 100, 0)
    ensures pagination.Some? ==> p == ParsePagination(pagination.value.offset, pagination.value.limit, pagination.value.total)
  {
    match pagination
    case None => Pagination(0, 100, 0)
    case Some(i) => ParsePagination(i.offset, i.limit, i.total)
  }

  /** The object default and the field defaults agree: a missing object
      reads like an empty one. */
  lemma MissingObjectIsEmptyObject()
    ensures ParseEmbedded(None) == ParseEmbedded(Some(PaginationInput(None, None, None)))
  {
  }

  /** Parsing a parsed object again gives it back. */
  lemma ParseStable(p: Pagination)
    ensures ParsePagination(Some(p.offset), Some(p.limit), Some(p.total)) == p
  {
  }
}
