/** The result envelope of models/result.py. */
module Results {
  import opened Wrappers

  /**
   * The message list after `if not field: field = []` and
   * `field.extend(messages)`: `None` and the empty list both restart
   * from an empty list.
   */
  function Extended(field: Option<seq<string>>, messages: seq<string>): (r: Option<seq<string>>)
    ensures r.Some?
    ensures r.value == field.GetOr([]) + messages
  {
    var start := if field.None? || field.value == [] then [] else field.value;
    Some(start + messages)
  }

  /** Two extensions are one extension by the concatenated messages. */
  lemma ExtendedTwice(field: Option<seq<string>>, a: seq<string>, b: seq<string>)
    ensures Extended(Extended(field, a), b) == Extended(field, a + b)
  {
    assert field.GetOr([]) + a + b == field.GetOr([]) + (a + b);
  }

  /** Extending keeps the old messages as a prefix and adds exactly the new ones after it. */
  lemma ExtendedKeepsOld(field: Option<seq<string>>, messages: seq<string>)
    ensures var r := Extended(field, messages).value;
      |r| == |field.GetOr([])| + |messages| &&
      r[..|field.GetOr([])|] == field.GetOr([]) && r[|field.GetOr([])|..] == messages
  {
  }

  /** `BaseResult`: a result with optional error, info and warning lists. */
  class BaseResult<T> {
    var result: Option<T>
    var error: Option<string>
    var info: Option<seq<string>>
    var warning: Option<seq<string>>

    constructor(result: Option<T>, error: Option<string>, info: Option<seq<string>>, warning: Option<seq<string>>)
      ensures this.result == result && this.error == error && this.info == info && this.warning == warning
    {
      this.result := result;
      this.error := error;
      this.info := info;
      this.warning := warning;
    }

    /** `append_warnings` (models/result.py:12-15). */
    method AppendWarnings(messages: seq<string>)
      modifies this
      ensures warning == Extended(old(warning), messages)
      ensures result == old(result) && error == old(error) && info == old(info)
    {
      if warning.None? || warning.value == [] {
        warning := Some([]);
      }
      warning := Some(warning.value + messages);
    }

    /** `append_info` (models/result.py:17-20). */
    method AppendInfo(messages: seq<string>)
      modifies this
      ensures info == Extended(old(info), messages)
      ensures result == old(result) && error == old(error) && warning == old(warning)
    {
      if info.None? || info.value == [] {
        info := Some([]);
      }
      info := Some(info.value + messages);
    }
  }

  /** `PaginationResult`'s own fields (the inherited ones default to `None`). */
  datatype Pagination<T> = Pagination(
    items: seq<T>,
    count: int,
    total: Option<int>,
    page: int,
    offset: int,
    nextOffset: int,
    hasMore: bool)

  /** The declared defaults (models/result.py:29-35); the `has_more` default `0` is falsy. */
  function DefaultPagination<T>(): Pagination<T> {
    Pagination([], 0, Some(0), 0, 0, 0, false)
  }

  /** The count is the number of items. */
  predicate Counted<T>(p: Pagination<T>) {
    p.count == |p.items|
  }

  /** A fresh page is empty, counted and all zero. */
  lemma DefaultPaginationEmpty<T>()
    ensures var p := DefaultPagination<T>();
      Counted(p) && p.items == [] && p.total == Some(0) && p.page == 0 && p.offset == 0 && p.nextOffset == 0 && !p.hasMore
  {
  }
}
