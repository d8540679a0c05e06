/** The shared request and response schemas: pagination parameters with their bounds and
    offset, and the generic success response. */
module Schemas {
  import opened Wrappers
  import opened PyValue

  const DefaultPage: int := 1
  const DefaultLimit: int := 20
  const MaxLimit: int := 100

  /** Validated `PaginationParams`. */
  datatype Pagination = Pagination(page: int, limit: int)

  predicate InBounds(p: Pagination) {
    p.page >= 1 && 1 <= p.limit <= MaxLimit
  }

  /** Validation of `PaginationParams(page=…, limit=…)`: an omitted field takes its default;
      every field outside its bounds is reported, `page` before `limit`. */
  function ValidatePagination(page: Option<int>, limit: Option<int>): (r: Result<Pagination, seq<string>>)
    ensures r.Ok? <==> (page.None? || page.value >= 1) && (limit.None? || 1 <= limit.value <= MaxLimit)
    ensures r.Ok? ==> InBounds(r.value) && r.value.page == page.GetOr(DefaultPage) && r.value.limit == limit.GetOr(DefaultLimit)
    ensures r.Err? ==> r.error != []
                       && ("page" in r.error <==> page.Some? && page.value < 1)
                       && ("limit" in r.error <==> limit.Some? && !(1 <= limit.value <= MaxLimit))
  {
    var p := page.GetOr(DefaultPage);
    var l := limit.GetOr(DefaultLimit);
    var issues := (if p >= 1 then [] else ["page"]) + (if 1 <= l <= MaxLimit then [] else ["limit"]);
    if issues == [] then Ok(Pagination(p, l)) else Err(issues)
  }

  /** `offset`. */
  function Offset(p: Pagination): (o: int)
    requires InBounds(p)
    ensures o >= 0
  {
    (p.page - 1) * p.limit
  }

  /** A page ends where the next one starts, and the first page starts at zero. */
  lemma PagesTile(p: Pagination)
    requires InBounds(p)
    ensures Offset(p) + p.limit == p.page * p.limit
    ensures Offset(p) + p.limit == Offset(Pagination(p.page + 1, p.limit))
    ensures p.page == 1 ==> Offset(p) == 0
  {
  }

  /** Every item position lies on exactly one page. */
  lemma {:induction false} EachItemOnOnePage(limit: int, item: nat)
    requires 1 <= limit <= MaxLimit
    ensures var p := Pagination(item / limit + 1, limit);
            InBounds(p) && Offset(p) <= item < Offset(p) + limit
    ensures forall page :: page >= 1 && Offset(Pagination(page, limit)) <= item < Offset(Pagination(page, limit)) + limit
                           ==> page == item / limit + 1
  {
    var q := item / limit;
    assert q * limit <= item < q * limit + limit;
    forall page | page >= 1 && Offset(Pagination(page, limit)) <= item < Offset(Pagination(page, limit)) + limit
      ensures page == q + 1
    {
      OnePageHolds(limit, item, page, q);
    }
  }

  /** Two pages that both hold an item are the same page. */
  lemma OnePageHolds(limit: int, item: nat, page: int, q: int)
    requires 1 <= limit && page >= 1 && q >= 0
    requires (page - 1) * limit <= item < (page - 1) * limit + limit
    requires q * limit <= item < q * limit + limit
    ensures page == q + 1
  {
    MulGap(page - 1, q, limit);
    MulGap(q, page - 1, limit);
  }

  /** A smaller multiple of `c` is at least `c` below a larger one. */
  lemma MulGap(a: int, b: int, c: int)
    requires c >= 1
    ensures a < b ==> a * c + c <= b * c
  {
    if a < b {
      var d := b - a;
      assert d * c == b * c - a * c;
      assert (d - 1) * c >= 0;
    }
  }

  /** The generic success response. */
  datatype SuccessResponse = SuccessResponse(success: bool, message: string, data: Option<Dict>)

  /** `SuccessResponse(message=…, success=…, data=…)` with the omitted fields defaulted. */
  function NewSuccessResponse(message: string, success: Option<bool>, data: Option<Dict>): (r: SuccessResponse)
    ensures r.message == message && r.data == data
    ensures success.None? ==> r.success
  {
    SuccessResponse(success.GetOr(true), message, data)
  }

  /** With only a message, the response reports success and carries no data. */
  lemma SuccessByDefault(message: string)
    ensures NewSuccessResponse(message, None, None) == SuccessResponse(true, message, None)
  {
  }
}
