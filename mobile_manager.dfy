/**
 * `AiScriptlessMobileManager` (tools/ai_scriptless_mobile_manager.py): the
 * same paging arithmetic and key selection as the web manager, over the
 * mobile test-tree formatter, and an `execute_test` that posts without
 * checking the device id.
 */
module MobileManager {
  import opened Wrappers
  import opened Json
  import opened Results
  import opened MobileFormat
  import opened ScriptlessManager

  /**
   * `list_tests` (tools/ai_scriptless_mobile_manager.py:23-42) over a
   * fetched tree, with the formatter as written. The request arguments
   * double as the filters.
   */
  function ListMobileTests(groups: seq<VisibilityGroup>, filters: Filters, pageIndex: int): Pagination<string> {
    ListTestsPage(FormatTestsAsWritten(groups, filters, PageSize, Skip(pageIndex)), pageIndex)
  }

  /** `list_tests` over the formatter with the corrected slice end. */
  function ListMobileTestsCorrected(groups: seq<VisibilityGroup>, filters: Filters, pageIndex: int): Pagination<string> {
    ListTestsPage(FormatTests(groups, filters, PageSize, Skip(pageIndex)), pageIndex)
  }

  /**
   * With the corrected slice, page `p` holds the matching tests
   * `50 * (p - 1)` up to `50 * p` of the reference listing, and `has_more`
   * holds exactly when the listing reaches the end of the page.
   */
  lemma MobilePageWindow(groups: seq<VisibilityGroup>, filters: Filters, pageIndex: int)
    requires pageIndex >= 1
    ensures var r, all := ListMobileTestsCorrected(groups, filters, pageIndex), AllMatches(groups, filters);
      r.items == PySlice(all, PageSize * (pageIndex - 1), PageSize * pageIndex) &&
      r.count <= PageSize &&
      r.offset == PageSize * (pageIndex - 1) &&
      (r.hasMore <==> |all| >= PageSize * pageIndex)
  {
    FormatTestsWindow(groups, filters, PageSize, Skip(pageIndex));
  }

  /**
   * As written, a listing that ends before page `p` does gives the corrected
   * page: the requested window, with no further page.
   */
  lemma MobileShortListing(groups: seq<VisibilityGroup>, filters: Filters, pageIndex: int)
    requires pageIndex >= 1
    requires |AllMatches(groups, filters)| < PageSize * pageIndex
    ensures ListMobileTests(groups, filters, pageIndex) == ListMobileTestsCorrected(groups, filters, pageIndex)
    ensures !ListMobileTests(groups, filters, pageIndex).hasMore
  {
    ShortListingAsWritten(groups, filters, PageSize, Skip(pageIndex));
    MobilePageWindow(groups, filters, pageIndex);
  }

  /**
   * With the slice as written, a listing of exactly `50 * p` matching tests
   * shows 49 of them on page `p` and reports no further page, so its last
   * test is never listed.
   */
  lemma MobileExactFillHidesLastTest(groups: seq<VisibilityGroup>, filters: Filters, pageIndex: int)
    requires pageIndex >= 1
    requires |AllMatches(groups, filters)| == PageSize * pageIndex
    ensures var r := ListMobileTests(groups, filters, pageIndex);
      r.count == PageSize - 1 && !r.hasMore
    ensures ListMobileTestsCorrected(groups, filters, pageIndex).count == PageSize
  {
    ExactFillDropsLast(groups, filters, PageSize, Skip(pageIndex));
  }

  /**
   * As written, a listing that goes past page `p` shows at least 50 tests
   * and reports a further page; the first 50 are the requested window, and
   * any more are shown again on the next page.
   */
  lemma MobileLongListing(groups: seq<VisibilityGroup>, filters: Filters, pageIndex: int)
    requires pageIndex >= 1
    requires |AllMatches(groups, filters)| > PageSize * pageIndex
    ensures var r := ListMobileTests(groups, filters, pageIndex);
      r.count >= PageSize && r.hasMore &&
      r.items[..PageSize] == PySlice(AllMatches(groups, filters), PageSize * (pageIndex - 1), PageSize * pageIndex)
  {
    LongListingAsWritten(groups, filters, PageSize, Skip(pageIndex));
  }

  /** `execute_test` (tools/ai_scriptless_mobile_manager.py:66-76): the body, built for any device id. */
  function MobileExecuteBody(testId: string, deviceId: string): (r: Value)
    ensures r.Object? && r.fields.Keys == {"params", "testKey", "triggerType"}
    ensures r.fields["params"] == Object(map["DUT" := Str(deviceId)])
    ensures r.fields["testKey"] == Str(testId) && r.fields["triggerType"] == Str("Manual")
  {
    RequestBody(Str(deviceId), testId)
  }

  /**
   * An empty device id is posted by the mobile manager, while the web
   * manager refuses the same id for a real device.
   */
  lemma EmptyDeviceIdPostedOnlyByMobile(testId: string, dumps: map<string, Value> -> string)
    ensures MobileExecuteBody(testId, "").fields["params"].fields["DUT"] == Str("")
    ensures ExecuteTest(testId, "real", map["device_id" := Str("")], dumps) == Invalid(InvalidDeviceMessage)
  {
  }

  /** The formatter's result as the dict the manager indexes. */
  function FilterValuesMap(fv: FilterValues): map<string, seq<string>> {
    map["test_name" := fv.testName, "owner_list" := fv.ownerList]
  }

  /**
   * `list_filter_values` (tools/ai_scriptless_mobile_manager.py:52-63) over
   * the fetched tree (`None` when the request gave no result): the
   * requested names, each mapped to the collector's list; any other name
   * raises.
   */
  method ListFilterValues(fetched: Option<seq<VisibilityGroup>>, filterNames: seq<string>)
    returns (r: Option<map<string, seq<string>>>)
    ensures r.Some? <==>
      (filterNames == [] ||
       (fetched.Some? && forall i :: 0 <= i < |filterNames| ==> filterNames[i] == "test_name" || filterNames[i] == "owner_list"))
    ensures r.Some? ==> r.value.Keys == set i | 0 <= i < |filterNames| :: filterNames[i]
    ensures r.Some? && "test_name" in r.value ==> r.value["test_name"] == FilterValuesOf(fetched.value).testName
    ensures r.Some? && "owner_list" in r.value ==> r.value["owner_list"] == FilterValuesOf(fetched.value).ownerList
  {
    var source: Option<map<string, seq<string>>> := None;
    if fetched.Some? {
      var fv := FormatFilterValues(fetched.value);
      source := Some(FilterValuesMap(fv));
    }
    r := SelectFilterValues(source, filterNames);
  }
}
