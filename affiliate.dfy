/**
 * The booking.com deep link of src/tbw/core/affiliate.js. The build-time
 * setting `VITE_BOOKING_AFFILIATE_ID` is the parameter `affiliateId` ("" when unset).
 */
module Affiliate {
  import opened Wrappers
  import opened Text
  import opened Urls

  const BookingBase: string := "https://www.booking.com/searchresults.html"

  /** `dates`: `from`/`to` are "" when absent. */
  datatype StayDates = StayDates(from: string, to: string)

  /** The position of each key in the order the builder sets them. */
  function Rank(key: string): int {
    if key == "ss" then 0
    else if key == "checkin" then 1
    else if key == "checkout" then 2
    else if key == "group_adults" then 3
    else if key == "aid" then 4
    else 5
  }

  predicate InOrder(params: seq<(string, string)>) {
    forall i, j :: 0 <= i < j < |params| ==> Rank(params[i].0) < Rank(params[j].0)
  }

  predicate RanksIn(params: seq<(string, string)>, lo: int, hi: int) {
    forall i :: 0 <= i < |params| ==> lo <= Rank(params[i].0) < hi
  }

  lemma InOrderConcat(a: seq<(string, string)>, b: seq<(string, string)>, lo: int, mid: int, hi: int)
    requires lo <= mid <= hi
    requires InOrder(a) && InOrder(b) && RanksIn(a, lo, mid) && RanksIn(b, mid, hi)
    ensures InOrder(a + b) && RanksIn(a + b, lo, hi)
  {
    forall i | 0 <= i < |a + b| ensures lo <= Rank((a + b)[i].0) < hi {
      if i < |a| {
        assert (a + b)[i] == a[i];
      } else {
        assert (a + b)[i] == b[i - |a|];
      }
    }
    forall i, j | 0 <= i < j < |a + b| ensures Rank((a + b)[i].0) < Rank((a + b)[j].0) {
      if j < |a| {
        assert (a + b)[i] == a[i] && (a + b)[j] == a[j];
      } else if i < |a| {
        assert (a + b)[i] == a[i] && (a + b)[j] == b[j - |a|];
        assert Rank(a[i].0) < mid && mid <= Rank(b[j - |a|].0);
      } else {
        assert (a + b)[i] == b[i - |a|] && (a + b)[j] == b[j - |a|];
      }
    }
  }

  /** The parameters in the order the builder sets them, each present when its value is truthy. */
  function AffiliateParams(city: string, dates: Option<StayDates>, persons: int, affiliateId: string)
    : seq<(string, string)>
  {
    Optional(city != "", "ss", city)
    + Optional(dates.Some? && dates.value.from != "", "checkin", if dates.Some? then dates.value.from else "")
    + Optional(dates.Some? && dates.value.to != "", "checkout", if dates.Some? then dates.value.to else "")
    + Optional(persons != 0, "group_adults", IntToString(persons))
    + Optional(affiliateId != "", "aid", affiliateId)
  }

  /** A lookup in five consecutive segments finds the first segment that has the key. */
  lemma Lookup5(a: seq<(string, string)>, b: seq<(string, string)>, c: seq<(string, string)>,
                d: seq<(string, string)>, e: seq<(string, string)>, k: string)
    ensures Param(a + b + c + d + e, k) ==
      if Param(a, k).Some? then Param(a, k) else if Param(b, k).Some? then Param(b, k)
      else if Param(c, k).Some? then Param(c, k) else if Param(d, k).Some? then Param(d, k) else Param(e, k)
  {
    ParamConcat(a + b + c + d, e, k);
    ParamConcat(a + b + c, d, k);
    ParamConcat(a + b, c, k);
    ParamConcat(a, b, k);
  }

  lemma OptionalRanks(present: bool, k: string, v: string)
    ensures InOrder(Optional(present, k, v)) && RanksIn(Optional(present, k, v), Rank(k), Rank(k) + 1)
  {
  }

  lemma OptionalsInOrder(pa: bool, va: string, pb: bool, vb: string, pc: bool, vc: string,
                         pd: bool, vd: string, pe: bool, ve: string)
    ensures InOrder(Optional(pa, "ss", va) + Optional(pb, "checkin", vb) + Optional(pc, "checkout", vc)
                    + Optional(pd, "group_adults", vd) + Optional(pe, "aid", ve))
  {
    OptionalRanks(pa, "ss", va);
    OptionalRanks(pb, "checkin", vb);
    OptionalRanks(pc, "checkout", vc);
    OptionalRanks(pd, "group_adults", vd);
    OptionalRanks(pe, "aid", ve);
    InOrder5(Optional(pa, "ss", va), Optional(pb, "checkin", vb), Optional(pc, "checkout", vc),
             Optional(pd, "group_adults", vd), Optional(pe, "aid", ve));
  }

  /** The keys come in the order ss, checkin, checkout, group_adults, aid. */
  lemma AffiliateParamsOrdered(city: string, dates: Option<StayDates>, persons: int, affiliateId: string)
    ensures InOrder(AffiliateParams(city, dates, persons, affiliateId))
  {
    var from := if dates.Some? then dates.value.from else "";
    var to := if dates.Some? then dates.value.to else "";
    OptionalsInOrder(city != "", city, dates.Some? && from != "", from, dates.Some? && to != "", to,
                     persons != 0, IntToString(persons), affiliateId != "", affiliateId);
  }

  lemma InOrder5(a: seq<(string, string)>, b: seq<(string, string)>, c: seq<(string, string)>,
                 d: seq<(string, string)>, e: seq<(string, string)>)
    requires InOrder(a) && InOrder(b) && InOrder(c) && InOrder(d) && InOrder(e)
    requires RanksIn(a, 0, 1) && RanksIn(b, 1, 2) && RanksIn(c, 2, 3) && RanksIn(d, 3, 4) && RanksIn(e, 4, 5)
    ensures InOrder(a + b + c + d + e)
  {
    InOrderConcat(a, b, 0, 1, 2);
    InOrderConcat(a + b, c, 0, 2, 3);
    InOrderConcat(a + b + c, d, 0, 3, 4);
    InOrderConcat(a + b + c + d, e, 0, 4, 5);
  }

  /**
   * What `params.get(key)` returns on the built URL, key by key: each of the
   * five parameters is present exactly when its source value is truthy (so
   * zero persons is omitted), and no other key is present.
   */
  function ExpectedParam(city: string, dates: Option<StayDates>, persons: int, affiliateId: string, key: string)
    : Option<string>
  {
    if key == "ss" then (if city != "" then Some(city) else None)
    else if key == "checkin" then (if dates.Some? && dates.value.from != "" then Some(dates.value.from) else None)
    else if key == "checkout" then (if dates.Some? && dates.value.to != "" then Some(dates.value.to) else None)
    else if key == "group_adults" then (if persons != 0 then Some(IntToString(persons)) else None)
    else if key == "aid" then (if affiliateId != "" then Some(affiliateId) else None)
    else None
  }

  lemma {:induction false} AffiliateParamsLookup(city: string, dates: Option<StayDates>, persons: int, affiliateId: string)
    ensures forall key :: Param(AffiliateParams(city, dates, persons, affiliateId), key)
                          == ExpectedParam(city, dates, persons, affiliateId, key)
  {
    var from := if dates.Some? then dates.value.from else "";
    var to := if dates.Some? then dates.value.to else "";
    var a := Optional(city != "", "ss", city);
    var b := Optional(dates.Some? && from != "", "checkin", from);
    var c := Optional(dates.Some? && to != "", "checkout", to);
    var d := Optional(persons != 0, "group_adults", IntToString(persons));
    var e := Optional(affiliateId != "", "aid", affiliateId);
    forall key ensures Param(a + b + c + d + e, key) == ExpectedParam(city, dates, persons, affiliateId, key) {
      Lookup5(a, b, c, d, e, key);
      ParamOptional(city != "", "ss", city, key);
      ParamOptional(dates.Some? && from != "", "checkin", from, key);
      ParamOptional(dates.Some? && to != "", "checkout", to, key);
      ParamOptional(persons != 0, "group_adults", IntToString(persons), key);
      ParamOptional(affiliateId != "", "aid", affiliateId, key);
    }
  }

  /**
   * `buildAffiliateUrl({ city, dates, persons })`: each parameter is present
   * exactly when its source value is truthy, in the order ss, checkin,
   * checkout, group_adults, aid.
   */
  method BuildAffiliateUrl(city: string, dates: Option<StayDates>, persons: int, affiliateId: string)
    returns (u: Url)
    ensures u.base == BookingBase
    ensures u.params == AffiliateParams(city, dates, persons, affiliateId)
    ensures InOrder(u.params)
    ensures forall key :: Param(u.params, key) == ExpectedParam(city, dates, persons, affiliateId, key)
  {
    var p: seq<(string, string)> := [];
    if city != "" {
      p := p + [("ss", city)];
    }
    assert p == Optional(city != "", "ss", city);
    ghost var done := p;
    if dates.Some? && dates.value.from != "" {
      p := p + [("checkin", dates.value.from)];
    }
    assert p == done + Optional(dates.Some? && dates.value.from != "", "checkin", if dates.Some? then dates.value.from else "");
    done := p;
    if dates.Some? && dates.value.to != "" {
      p := p + [("checkout", dates.value.to)];
    }
    assert p == done + Optional(dates.Some? && dates.value.to != "", "checkout", if dates.Some? then dates.value.to else "");
    done := p;
    if persons != 0 {
      p := p + [("group_adults", IntToString(persons))];
    }
    assert p == done + Optional(persons != 0, "group_adults", IntToString(persons));
    done := p;
    if affiliateId != "" {
      p := p + [("aid", affiliateId)];
    }
    assert p == done + Optional(affiliateId != "", "aid", affiliateId);
    u := Url(BookingBase, p);
    AffiliateParamsOrdered(city, dates, persons, affiliateId);
    AffiliateParamsLookup(city, dates, persons, affiliateId);
  }
}
