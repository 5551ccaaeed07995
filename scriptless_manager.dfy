/**
 * The request-independent logic of `AiScriptlessManager`
 * (tools/ai_scriptless_manager.py): the paging arithmetic of `list_tests`,
 * the device-under-test rule and request body of `execute_test`, and the
 * key selection of `list_filter_values`. The remote calls are inputs.
 */
module ScriptlessManager {
  import opened Wrappers
  import opened Json
  import opened Results

  /** Both managers list tests 50 at a time. */
  const PageSize := 50

  /** `args.get("page_index", 1)`. */
  function PageIndex(arg: Option<int>): int {
    arg.GetOr(1)
  }

  /** `(page_size * page_index) - page_size`: the number of tests before the page. */
  function Skip(pageIndex: int): (r: int)
    ensures r == PageSize * (pageIndex - 1)
  {
    (PageSize * pageIndex) - PageSize
  }

  /** The `PaginationResult` `list_tests` builds around the formatter's items; `total` keeps its default 0. */
  function ListTestsPage<T>(items: seq<T>, pageIndex: int): (r: Pagination<T>)
    ensures r.items == items && Counted(r)
    ensures r.page == pageIndex && r.total == Some(0)
    ensures r.offset == PageSize * (pageIndex - 1) && r.nextOffset == PageSize * pageIndex
    ensures r.hasMore <==> |items| >= PageSize
  {
    var skip := Skip(pageIndex);
    Pagination(items, |items|, Some(0), pageIndex, skip, skip + PageSize, PageSize - |items| <= 0)
  }

  /** Without a page index the first page is listed, from offset 0 up to 50. */
  lemma FirstPageByDefault<T>(items: seq<T>)
    ensures var r := ListTestsPage(items, PageIndex(None));
      r.page == 1 && r.offset == 0 && r.nextOffset == PageSize
  {
  }

  /** One page's next offset is the following page's offset. */
  lemma PagesAreContiguous<T>(a: seq<T>, b: seq<T>, pageIndex: int)
    ensures ListTestsPage(a, pageIndex).nextOffset == ListTestsPage(b, pageIndex + 1).offset
  {
  }

  /**
   * `list_tests` (tools/ai_scriptless_manager.py:24-50): the page wraps the
   * formatter's items and passes the request's messages through. A
   * formatter result of `None` makes `len` raise, shown as `None`.
   */
  method ListTests<T>(fetched: BaseResult<seq<T>>, pageIndexArg: Option<int>) returns (r: Option<BaseResult<Pagination<T>>>)
    ensures r.Some? <==> fetched.result.Some?
    ensures r.Some? ==> fresh(r.value)
    ensures r.Some? ==> r.value.result == Some(ListTestsPage(fetched.result.value, PageIndex(pageIndexArg)))
    ensures r.Some? ==> r.value.error == fetched.error && r.value.warning == fetched.warning && r.value.info == fetched.info
  {
    if fetched.result.None? {
      return None;
    }
    var page := ListTestsPage(fetched.result.value, PageIndex(pageIndexArg));
    var br := new BaseResult(Some(page), fetched.error, fetched.info, fetched.warning);
    r := Some(br);
  }

  // ---------------------------------------------------------------------
  // execute_test

  const InvalidDeviceMessage := "Invalid device_type or device_under_test value."

  /** The POST body `{"params": {"DUT": dut}, "testKey": test_id, "triggerType": "Manual"}`. */
  function RequestBody(dut: Value, testId: string): (r: Value)
    ensures r.Object? && r.fields.Keys == {"params", "testKey", "triggerType"}
    ensures r.fields["params"] == Object(map["DUT" := dut])
    ensures r.fields["testKey"] == Str(testId) && r.fields["triggerType"] == Str("Manual")
  {
    Object(map["params" := Object(map["DUT" := dut]), "testKey" := Str(testId), "triggerType" := Str("Manual")])
  }

  /** What `execute_test` does: post a body, report the invalid device, or raise inside `len`. */
  datatype ExecuteOutcome = Post(body: Value) | Invalid(message: string) | Raises

  /**
   * The DUT for a device type: the dict's "device_id" for "real", its
   * compact JSON text (`dumps`, an uninterpreted serialiser) for "virtual"
   * and "desktop", and `None` for anything else.
   */
  function DutOf(deviceType: string, deviceUnderTest: map<string, Value>, dumps: map<string, Value> -> string): Value {
    if deviceType == "real" then Get(deviceUnderTest, "device_id")
    else if deviceType == "virtual" || deviceType == "desktop" then Str(dumps(deviceUnderTest))
    else Null
  }

  /** `execute_test` (tools/ai_scriptless_manager.py:67-87) up to the POST. */
  function ExecuteTest(testId: string, deviceType: string, deviceUnderTest: map<string, Value>,
                       dumps: map<string, Value> -> string): ExecuteOutcome
  {
    var dut := DutOf(deviceType, deviceUnderTest, dumps);
    if dut == Null then Invalid(InvalidDeviceMessage)
    else match NonEmpty(dut)
      case None => Raises
      case Some(nonEmpty) => if nonEmpty then Post(RequestBody(dut, testId)) else Invalid(InvalidDeviceMessage)
  }

  predicate KnownDeviceType(deviceType: string) {
    deviceType == "real" || deviceType == "virtual" || deviceType == "desktop"
  }

  /**
   * The request is posted exactly when the device type is known and its
   * DUT is a non-empty string, list or dict, and then carries that DUT and
   * the test key; an unknown device type never reaches the request.
   */
  lemma ExecuteTestPosts(testId: string, deviceType: string, deviceUnderTest: map<string, Value>,
                         dumps: map<string, Value> -> string)
    ensures var dut, r := DutOf(deviceType, deviceUnderTest, dumps), ExecuteTest(testId, deviceType, deviceUnderTest, dumps);
      (r.Post? <==> KnownDeviceType(deviceType) && NonEmpty(dut) == Some(true)) &&
      (r.Post? ==> r.body == RequestBody(dut, testId)) &&
      (!KnownDeviceType(deviceType) ==> r == Invalid(InvalidDeviceMessage))
  {
  }

  /** A real device is posted with its id when the id is a non-empty string and refused when it is missing or empty. */
  lemma ExecuteOnRealDevice(testId: string, deviceUnderTest: map<string, Value>, dumps: map<string, Value> -> string)
    ensures var r := ExecuteTest(testId, "real", deviceUnderTest, dumps);
      ("device_id" !in deviceUnderTest ==> r == Invalid(InvalidDeviceMessage)) &&
      (forall id :: "device_id" in deviceUnderTest && deviceUnderTest["device_id"] == Str(id) ==>
         r == if id == "" then Invalid(InvalidDeviceMessage) else Post(RequestBody(Str(id), testId)))
  {
  }

  /** Virtual and desktop devices are posted with the serialised dict whenever the text is not empty. */
  lemma ExecuteOnVirtualDevice(testId: string, deviceType: string, deviceUnderTest: map<string, Value>,
                               dumps: map<string, Value> -> string)
    requires deviceType == "virtual" || deviceType == "desktop"
    requires dumps(deviceUnderTest) != ""
    ensures ExecuteTest(testId, deviceType, deviceUnderTest, dumps) == Post(RequestBody(Str(dumps(deviceUnderTest)), testId))
  {
  }

  // ---------------------------------------------------------------------
  // list_filter_values

  /**
   * The loop of `list_filter_values` (tools/ai_scriptless_manager.py:58-60):
   * `filter_values[name] = source[name]` for each requested name. It raises
   * (`None`) when a name is missing or the source is `None`; with no names
   * it never reads the source.
   */
  method SelectFilterValues<V>(source: Option<map<string, V>>, filterNames: seq<string>) returns (r: Option<map<string, V>>)
    ensures r.Some? <==> filterNames == [] || (source.Some? && forall i :: 0 <= i < |filterNames| ==> filterNames[i] in source.value)
    ensures r.Some? ==> r.value.Keys == set i | 0 <= i < |filterNames| :: filterNames[i]
    ensures r.Some? ==> forall k :: k in r.value ==> r.value[k] == source.value[k]
  {
    var selected: map<string, V> := map[];
    for i := 0 to |filterNames|
      invariant i > 0 ==> source.Some? && forall j :: 0 <= j < i ==> filterNames[j] in source.value
      invariant selected.Keys == set j | 0 <= j < i :: filterNames[j]
      invariant forall k :: k in selected ==> source.Some? && k in source.value && selected[k] == source.value[k]
    {
      if source.None? || filterNames[i] !in source.value {
        return None;
      }
      selected := selected[filterNames[i] := source.value[filterNames[i]]];
    }
    r := Some(selected);
  }
}
