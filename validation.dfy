/**
 * The sort-field whitelist: the only check between a client's `orderBy`
 * query value and the ORDER BY clause of the positions query.
 */
module Validation {
  import opened Wrappers

  /** The keys of `validFieldsToOrderBy`; "" selects the repository's default column. */
  const ValidFieldsToOrderBy: set<string> :=
    {"", "volume", "results", "updated", "cpc", "url", "position", "keyword"}

  const RejectionPrefix: string := "positions can't be ordered by '"
  const RejectionSuffix: string := "' field"

  /** `validateOrderByField`: no error for a whitelisted key, otherwise an error naming the input. */
  function ValidateOrderByField(orderBy: string): (r: Option<Error>)
    ensures r.None? <==>
      orderBy == "" || orderBy == "volume" || orderBy == "results" || orderBy == "updated"
      || orderBy == "cpc" || orderBy == "url" || orderBy == "position" || orderBy == "keyword"
    ensures r.None? <==> orderBy in ValidFieldsToOrderBy
    ensures r.Some? ==> r.value.msg == RejectionPrefix + orderBy + RejectionSuffix
  {
    if orderBy !in ValidFieldsToOrderBy then
      Some(Error(RejectionPrefix + orderBy + RejectionSuffix))
    else
      None
  }

  /** The rejection text quotes the input verbatim: it can be read back out of the message. */
  lemma RejectionQuotesInput(orderBy: string)
    requires ValidateOrderByField(orderBy).Some?
    ensures var m := ValidateOrderByField(orderBy).value.msg;
      |m| == |RejectionPrefix| + |orderBy| + |RejectionSuffix|
      && m[|RejectionPrefix|..|m| - |RejectionSuffix|] == orderBy
  {
    var m := ValidateOrderByField(orderBy).value.msg;
    assert m == (RejectionPrefix + orderBy) + RejectionSuffix;
    assert m[..|m| - |RejectionSuffix|] == RejectionPrefix + orderBy;
  }

  /** Two different rejected inputs never produce the same message. */
  lemma RejectionIsInjective(a: string, b: string)
    requires ValidateOrderByField(a).Some? && ValidateOrderByField(b).Some?
    requires ValidateOrderByField(a) == ValidateOrderByField(b)
    ensures a == b
  {
    RejectionQuotesInput(a);
    RejectionQuotesInput(b);
  }

  /** Matching is exact: no case folding and no trimming, while the empty key is accepted. */
  lemma ExactMatching()
    ensures ValidateOrderByField("").None?
    ensures ValidateOrderByField("volume").None?
    ensures ValidateOrderByField("Volume").Some?
    ensures ValidateOrderByField(" volume").Some?
    ensures ValidateOrderByField("volume ").Some?
    ensures ValidateOrderByField("domain").Some?
  {
  }

  /** The messages the API reports for two unknown fields. */
  lemma RejectionExamples()
    ensures ValidateOrderByField("bogus") == Some(Error("positions can't be ordered by 'bogus' field"))
    ensures ValidateOrderByField("wwwwat") == Some(Error("positions can't be ordered by 'wwwwat' field"))
  {
    assert RejectionPrefix + "bogus" + RejectionSuffix == "positions can't be ordered by 'bogus' field";
    assert RejectionPrefix + "wwwwat" + RejectionSuffix == "positions can't be ordered by 'wwwwat' field";
  }

  /** The whitelist has exactly eight keys. */
  lemma WhitelistSize()
    ensures |ValidFieldsToOrderBy| == 8
  {
  }
}
