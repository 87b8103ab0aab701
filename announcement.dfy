/** The announcement list request: the page and page size are clamped with
    `Math.max`/`Math.min` before the caller's params are sent on. The same
    clamp guards the feedback list request. */
module Announcement {
  import opened Js

  /** `Math.trunc(v || d)`: a falsy value gives the default; a non-zero
      finite number is cut toward zero to an integer; the infinities pass
      through. */
  function TruncOr(v: Value, d: int): (n: Number)
    requires d >= 1
    ensures v.Undefined? || (v.Num? && !Truthy(v)) ==> n == Finite(d as real)
    ensures v.Num? && v.n.Finite? && v.n.r >= 1.0 ==> n.Finite? && n.r <= v.n.r < n.r + 1.0
    ensures v.Num? && v.n.Finite? && v.n.r < 1.0 && v.n.r != 0.0 ==> n.Finite? && n.r <= 0.0
    ensures v.Num? && (v.n.PosInf? || v.n.NegInf?) ==> n == v.n
    ensures n.Finite? ==> IsInteger(n.r)
  {
    var n := Trunc(ToNumber(Or(v, Num(Finite(d as real)))));
    assert n.Finite? ==> IsInteger(n.r) by {
      if n.Finite? {
        var t := TruncReal(ToNumber(Or(v, Num(Finite(d as real)))).r);
        assert (t as real).Floor == t;
      }
    }
    n
  }

  /** `Math.max(1, Math.trunc(page || 1))`: a missing, zero or NaN page is
      1; a finite page of at least 1 is cut to its integer part; any other
      finite page and -Infinity give 1; +Infinity passes through. */
  function ClampPage(page: Value): (r: Number)
    ensures page.Undefined? || (page.Num? && !Truthy(page)) ==> r == Finite(1.0)
    ensures page.Num? && page.n.Finite? && page.n.r >= 1.0 ==>
      r.Finite? && IsInteger(r.r) && r.r <= page.n.r < r.r + 1.0
    ensures page.Num? && ((page.n.Finite? && page.n.r < 1.0) || page.n.NegInf?) ==> r == Finite(1.0)
    ensures page.Num? && page.n.PosInf? ==> r == PosInf
  {
    Max(Finite(1.0), TruncOr(page, 1))
  }

  /** `Math.min(50, Math.max(1, Math.trunc(pageSize || 10)))`: a missing,
      zero or NaN size is 10; a finite size from 1 up to (not including) 51
      is cut to its integer part; a larger size and +Infinity give 50; any
      other non-zero finite size and -Infinity give 1. */
  function ClampPageSize(pageSize: Value): (r: Number)
    ensures pageSize.Undefined? || (pageSize.Num? && !Truthy(pageSize)) ==> r == Finite(10.0)
    ensures pageSize.Num? && pageSize.n.Finite? && 1.0 <= pageSize.n.r < 51.0 ==>
      r.Finite? && IsInteger(r.r) && r.r <= pageSize.n.r < r.r + 1.0
    ensures pageSize.Num? && ((pageSize.n.Finite? && pageSize.n.r >= 50.0) || pageSize.n.PosInf?) ==>
      r == Finite(50.0)
    ensures pageSize.Num? && ((pageSize.n.Finite? && pageSize.n.r < 1.0 && pageSize.n.r != 0.0) || pageSize.n.NegInf?) ==>
      r == Finite(1.0)
    ensures (pageSize.Undefined? || pageSize.Num?) ==>
      r.Finite? && 1.0 <= r.r <= 50.0 && IsInteger(r.r)
  {
    Min(Finite(50.0), Max(Finite(1.0), TruncOr(pageSize, 10)))
  }

  /** Absent values take the defaults 1 and 10. */
  lemma ClampDefaults()
    ensures ClampPage(Undefined) == Finite(1.0)
    ensures ClampPageSize(Undefined) == Finite(10.0)
  {
    assert TruncReal(1.0) == 1;
    assert TruncReal(10.0) == 10;
  }

  /** An integer page of at least 1 and an integer page size from 1 to 50
      are sent as given. */
  lemma ClampKeepsValidIntegers(page: int, pageSize: int)
    ensures page >= 1 ==> ClampPage(Num(Finite(page as real))) == Finite(page as real)
    ensures 1 <= pageSize <= 50 ==> ClampPageSize(Num(Finite(pageSize as real))) == Finite(pageSize as real)
  {
    assert (page as real).Floor == page;
    assert (pageSize as real).Floor == pageSize;
  }

  /** The params of `getAnnouncementList` (and of `getFeedbackRecords`):
      the caller's params with page and page size overridden by their
      clamped values. */
  function PagedQuery(params: map<string, Value>): (q: map<string, Value>)
    ensures q.Keys == params.Keys + {"page", "page_size"}
    ensures forall k :: k in params && k != "page" && k != "page_size" ==> q[k] == params[k]
    ensures q["page"] == Num(ClampPage(Field(Obj(params), "page")))
    ensures q["page_size"] == Num(ClampPageSize(Field(Obj(params), "page_size")))
  {
    var p := Obj(params);
    params + map["page" := Num(ClampPage(Field(p, "page"))), "page_size" := Num(ClampPageSize(Field(p, "page_size")))]
  }
}
