/** The execution formatter of formatters/execution.py, without the two timestamps. */
module ExecutionFormat {
  import opened Wrappers
  import opened Json

  /** Why the formatter raises. */
  datatype FormatError =
    | NotAMapping    // `.get` on a value that is not a dict
    | NotIterable    // `for ... in` over `None` or a number
    | NotAString     // `test_id: str` rejects a non-string id

  datatype ExecutionPlatform = ExecutionPlatform(
    deviceId: Value, model: Value, platformName: Value, os: Value, osVersion: Value, browser: Value)

  datatype Execution = Execution(
    testId: string, testName: Value, executionId: Value, executionUrl: string, status: Value,
    jobId: Value, jobName: Value, tags: Value, framework: Value,
    platforms: seq<ExecutionPlatform>, failureReason: Value, errorAnalysis: Value)

  const EmptyObject: Value := Object(map[])

  /**
   * The elements a `for` loop over `v` sees, when each of them is then read
   * with `.get`: the elements of a list; nothing for an empty dict or
   * string; a non-empty dict or string yields strings, whose `.get` raises.
   */
  function Iterate(v: Value): Result<seq<Value>, FormatError> {
    match v
    case Array(a) => Ok(a)
    case Object(m) => if m == map[] then Ok([]) else Fail(NotAMapping)
    case Str(s) => if s == "" then Ok([]) else Fail(NotAMapping)
    case _ => Fail(NotIterable)
  }

  /** One `ExecutionPlatform` (formatters/execution.py:13-26). */
  function PlatformOf(plat: Value): Result<ExecutionPlatform, FormatError> {
    match plat
    case Object(p) =>
      var model :=
        if "mobileInfo" in p then
          match p["mobileInfo"]
          case Object(mi) => Ok(GetOr(mi, "model", Str("")))
          case _ => Fail(NotAMapping)
        else Ok(Str(""));
      (match model
       case Fail(e) => Fail(e)
       case Ok(m) => Ok(ExecutionPlatform(Get(p, "deviceId"), m, Get(p, "deviceType"), Get(p, "os"), Get(p, "osVersion"),
                                          GetOr(p, "browserInfo", EmptyObject))))
    case _ => Fail(NotAMapping)
  }

  /** The platforms of one item, in order. */
  function PlatformsOf(plats: seq<Value>): Result<seq<ExecutionPlatform>, FormatError> {
    if plats == [] then Ok([])
    else match PlatformOf(plats[0])
      case Fail(e) => Fail(e)
      case Ok(p) => PrependOk([p], PlatformsOf(plats[1..]))
  }

  const ReportUrlHost := ".app.perfectomobile.com/reporting/test/"

  /** `f"https://{cloud_name}.app.perfectomobile.com/reporting/test/{id}"`. */
  function ExecutionUrl(cloudName: string, id: string): string {
    "https://" + cloudName + ReportUrlHost + id
  }

  /** The id is the URL's tail after the fixed prefix, so distinct ids give distinct URLs. */
  lemma ExecutionUrlId(cloudName: string, id: string)
    ensures var prefix := "https://" + cloudName + ReportUrlHost;
      |ExecutionUrl(cloudName, id)| == |prefix| + |id| && ExecutionUrl(cloudName, id)[|prefix|..] == id
  {
  }

  /** One `Execution` (formatters/execution.py:11-49). */
  function ExecutionOf(item: Value, cloudName: string): Result<Execution, FormatError> {
    if !item.Object? then Fail(NotAMapping)
    else
      var it := item.fields;
      var plats := Iterate(Get(it, "platforms"));
      if plats.Fail? then Fail(plats.error)
      else
        var platforms := PlatformsOf(plats.value);
        var job := GetOr(it, "job", EmptyObject);
        var id := Get(it, "id");
        if platforms.Fail? then Fail(platforms.error)
        else if !job.Object? then Fail(NotAMapping)
        else if !id.Str? then Fail(NotAString)
        else
          Ok(Execution(id.s, Get(it, "name"), Get(it, "testExecutionId"), ExecutionUrl(cloudName, id.s), Get(it, "status"),
                       Get(job.fields, "number"), Get(job.fields, "name"), GetOr(it, "tags", Array([])), Get(it, "automationFramework"),
                       platforms.value, GetOr(it, "failureReason", EmptyObject), GetOr(it, "errorAnalysis", EmptyObject)))
  }

  /** The executions of `items`, in order; the first raising item aborts. */
  function ExecutionsOf(items: seq<Value>, cloudName: string): Result<seq<Execution>, FormatError> {
    if items == [] then Ok([])
    else match ExecutionOf(items[0], cloudName)
      case Fail(e) => Fail(e)
      case Ok(x) => PrependOk([x], ExecutionsOf(items[1..], cloudName))
  }

  /** `params.get("cloud_name", "unknown")`. */
  function CloudName(params: map<string, string>): string {
    if "cloud_name" in params then params["cloud_name"] else "unknown"
  }

  /** The whole `format_executions`: `[]` when there is no "items" key. */
  function FormatSpec(executions: map<string, Value>, params: map<string, string>): Result<seq<Execution>, FormatError> {
    if "items" in executions then
      match Iterate(executions["items"])
      case Fail(e) => Fail(e)
      case Ok(items) => ExecutionsOf(items, CloudName(params))
    else Ok([])
  }

  /** The inner loop (formatters/execution.py:13-26). */
  method FormatPlatforms(plats: seq<Value>) returns (r: Result<seq<ExecutionPlatform>, FormatError>)
    ensures r == PlatformsOf(plats)
  {
    var platforms: seq<ExecutionPlatform> := [];
    assert plats[0..] == plats;
    PrependOkNil(PlatformsOf(plats));
    for i := 0 to |plats|
      invariant PlatformsOf(plats) == PrependOk(platforms, PlatformsOf(plats[i..]))
    {
      assert plats[i..][0] == plats[i] && plats[i..][1..] == plats[i + 1..];
      var p := PlatformOf(plats[i]);
      if p.Fail? {
        return Fail(p.error);
      }
      PrependOkAssoc(platforms, [p.value], PlatformsOf(plats[i + 1..]));
      platforms := platforms + [p.value];
    }
    assert plats[|plats|..] == [];
    assert platforms + [] == platforms;
    r := Ok(platforms);
  }

  /** The body of the outer loop for one item (formatters/execution.py:12-49). */
  method FormatExecution(item: Value, cloudName: string) returns (r: Result<Execution, FormatError>)
    ensures r == ExecutionOf(item, cloudName)
  {
    if !item.Object? {
      return Fail(NotAMapping);
    }
    var it := item.fields;
    var plats := Iterate(Get(it, "platforms"));
    if plats.Fail? {
      return Fail(plats.error);
    }
    var platforms := FormatPlatforms(plats.value);
    if platforms.Fail? {
      return Fail(platforms.error);
    }
    var job := GetOr(it, "job", EmptyObject);
    if !job.Object? {
      return Fail(NotAMapping);
    }
    var id := Get(it, "id");
    if !id.Str? {
      return Fail(NotAString);
    }
    r := Ok(Execution(id.s, Get(it, "name"), Get(it, "testExecutionId"), ExecutionUrl(cloudName, id.s), Get(it, "status"),
                      Get(job.fields, "number"), Get(job.fields, "name"), GetOr(it, "tags", Array([])), Get(it, "automationFramework"),
                      platforms.value, GetOr(it, "failureReason", EmptyObject), GetOr(it, "errorAnalysis", EmptyObject)));
  }

  /** `format_executions`: the outer loop over the items (formatters/execution.py:6-50). */
  method FormatExecutions(executions: map<string, Value>, params: map<string, string>) returns (r: Result<seq<Execution>, FormatError>)
    ensures r == FormatSpec(executions, params)
  {
    var cloudName := CloudName(params);
    var formatted: seq<Execution> := [];
    if "items" in executions {
      var it := Iterate(executions["items"]);
      if it.Fail? {
        return Fail(it.error);
      }
      var items := it.value;
      assert items[0..] == items;
      PrependOkNil(ExecutionsOf(items, cloudName));
      for i := 0 to |items|
        invariant ExecutionsOf(items, cloudName) == PrependOk(formatted, ExecutionsOf(items[i..], cloudName))
      {
        assert items[i..][0] == items[i] && items[i..][1..] == items[i + 1..];
        var x := FormatExecution(items[i], cloudName);
        if x.Fail? {
          return Fail(x.error);
        }
        PrependOkAssoc(formatted, [x.value], ExecutionsOf(items[i + 1..], cloudName));
        formatted := formatted + [x.value];
      }
      assert items[|items|..] == [];
      assert formatted + [] == formatted;
    }
    r := Ok(formatted);
  }

  // =====================================================================
  // Properties

  /** The executions of a list: one per item, in order, when no item raises. */
  lemma {:induction false} ExecutionsOfSpec(items: seq<Value>, cloudName: string)
    ensures ExecutionsOf(items, cloudName).Ok? <==> forall i :: 0 <= i < |items| ==> ExecutionOf(items[i], cloudName).Ok?
    ensures ExecutionsOf(items, cloudName).Ok? ==>
      |ExecutionsOf(items, cloudName).value| == |items| &&
      forall i :: 0 <= i < |items| ==> ExecutionsOf(items, cloudName).value[i] == ExecutionOf(items[i], cloudName).value
  {
    if items != [] {
      ExecutionsOfSpec(items[1..], cloudName);
      assert forall i :: 1 <= i < |items| ==> items[i] == items[1..][i - 1];
    }
  }

  /** The platforms of an item: one per input platform, in order, when none raises. */
  lemma {:induction false} PlatformsOfSpec(plats: seq<Value>)
    ensures PlatformsOf(plats).Ok? <==> forall i :: 0 <= i < |plats| ==> PlatformOf(plats[i]).Ok?
    ensures PlatformsOf(plats).Ok? ==>
      |PlatformsOf(plats).value| == |plats| &&
      forall i :: 0 <= i < |plats| ==> PlatformsOf(plats).value[i] == PlatformOf(plats[i]).value
  {
    if plats != [] {
      PlatformsOfSpec(plats[1..]);
      assert forall i :: 1 <= i < |plats| ==> plats[i] == plats[1..][i - 1];
    }
  }

  /** Without an "items" key the result is empty; with a list of items it has one execution per item. */
  lemma FormatItems(executions: map<string, Value>, params: map<string, string>)
    ensures "items" !in executions ==> FormatSpec(executions, params) == Ok([])
    ensures "items" in executions && executions["items"].Array? && FormatSpec(executions, params).Ok? ==>
      |FormatSpec(executions, params).value| == |executions["items"].elems|
  {
    if "items" in executions && executions["items"].Array? {
      ExecutionsOfSpec(executions["items"].elems, CloudName(params));
    }
  }

  /** The model is mobileInfo's "model" (default "") when there is mobileInfo, else "". */
  lemma PlatformModel(p: map<string, Value>)
    ensures "mobileInfo" !in p ==> PlatformOf(Object(p)).Ok? && PlatformOf(Object(p)).value.model == Str("")
    ensures "mobileInfo" in p && p["mobileInfo"].Object? ==>
      PlatformOf(Object(p)).Ok? && PlatformOf(Object(p)).value.model == GetOr(p["mobileInfo"].fields, "model", Str(""))
    ensures "mobileInfo" in p && !p["mobileInfo"].Object? ==> PlatformOf(Object(p)).Fail?
    ensures PlatformOf(Object(p)).Ok? ==> PlatformOf(Object(p)).value.browser == GetOr(p, "browserInfo", EmptyObject)
  {
  }

  /**
   * An item whose platforms form a list and whose id is a string gives an
   * execution with the report URL for that id, `None` job fields when it
   * has no job, and `{}`/`[]` defaults for the failure reason, the error
   * analysis and the tags.
   */
  lemma ExecutionDefaults(it: map<string, Value>, cloudName: string)
    requires ExecutionOf(Object(it), cloudName).Ok?
    ensures var x := ExecutionOf(Object(it), cloudName).value;
      it["id"] == Str(x.testId) && x.executionUrl == ExecutionUrl(cloudName, x.testId) &&
      ("job" !in it ==> x.jobId == Null && x.jobName == Null) &&
      ("failureReason" !in it ==> x.failureReason == EmptyObject) &&
      ("errorAnalysis" !in it ==> x.errorAnalysis == EmptyObject) &&
      ("tags" !in it ==> x.tags == Array([])) &&
      |x.platforms| == |Iterate(Get(it, "platforms")).value|
  {
    var plats := Iterate(Get(it, "platforms")).value;
    PlatformsOfSpec(plats);
  }

  /** An item without "platforms" raises: the loop runs over `None`. */
  lemma MissingPlatformsRaises(it: map<string, Value>, cloudName: string)
    requires "platforms" !in it
    ensures ExecutionOf(Object(it), cloudName) == Fail(NotIterable)
  {
  }
}
