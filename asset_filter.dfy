/**
 * The generic asset filter component: the list of selected values of one field,
 * the page of distinct field values loaded so far, and the request parameters
 * of the field-values service.
 */
module AssetFilter {
  import opened Wrappers

  /** `requestParams`: page, field, page size, group flag and optional search text. */
  datatype RequestParams = RequestParams(page: int, prop: string, size: int, forGroups: bool, value: Option<string>)

  /** One distinct field value and its count. */
  datatype FieldValue = FieldValue(name: string, count: int)

  /** The sort order chosen in the value list. */
  datatype SortOrder = SortOrder(orderByCount: bool, sortAsc: bool)

  /** One entry of the asset-filter object: a key and its list of values, or null. */
  datatype FilterEntry = FilterEntry(key: string, values: Option<seq<string>>)

  /** The page size the component asks for. */
  const PageSize := 6

  /** No value occurs twice. */
  predicate NoDuplicates(s: seq<string>) {
    forall i, j :: 0 <= i < j < |s| ==> s[i] != s[j]
  }

  /** The index of the first occurrence of `v` in `s`. */
  function FirstIndexOf(s: seq<string>, v: string): (i: nat)
    requires v in s
    ensures i < |s| && s[i] == v && v !in s[..i]
  {
    if s[0] == v then 0
    else
      var i := 1 + FirstIndexOf(s[1..], v);
      assert s[..i] == [s[0]] + s[1..][..i - 1];
      i
  }

  /** `findIndex(val => val === v)`: the first index holding `v`, or -1 when there is none. */
  method FindIndex(s: seq<string>, v: string) returns (index: int)
    ensures index == -1 <==> v !in s
    ensures index != -1 ==> 0 <= index < |s| && index == FirstIndexOf(s, v)
  {
    index := 0;
    while index < |s|
      invariant 0 <= index <= |s|
      invariant v !in s[..index]
    {
      if s[index] == v {
        FirstIndexUnique(s, v, index);
        return;
      }
      assert s[..index + 1] == s[..index] + [s[index]];
      index := index + 1;
    }
    assert s[..index] == s;
    index := -1;
  }

  /** The first occurrence is the only index holding `v` with no earlier `v`. */
  lemma FirstIndexUnique(s: seq<string>, v: string, i: int)
    requires 0 <= i < |s| && s[i] == v && v !in s[..i]
    ensures FirstIndexOf(s, v) == i
  {
    var f := FirstIndexOf(s, v);
    assert s[..i + 1][i] == v && s[..f + 1][f] == v;
  }

  /** `selectValue`'s list toggle: append an absent value, otherwise splice out its first occurrence. */
  function Toggle(s: seq<string>, v: string): seq<string> {
    if v in s then s[..FirstIndexOf(s, v)] + s[FirstIndexOf(s, v) + 1..] else s + [v]
  }

  /**
   * Toggling adds exactly one `v` when it is absent, after the old values, and
   * removes exactly one when it is present. That the other values keep their
   * relative order there follows from `Toggle`'s splice, not from this lemma.
   */
  lemma ToggleMultiset(s: seq<string>, v: string)
    ensures v !in s ==> multiset(Toggle(s, v)) == multiset(s) + multiset{v} && Toggle(s, v)[..|s|] == s
    ensures v in s ==> multiset(Toggle(s, v)) == multiset(s) - multiset{v} && |Toggle(s, v)| == |s| - 1
  {
    if v in s {
      var i := FirstIndexOf(s, v);
      assert s == s[..i] + [v] + s[i + 1..];
    } else {
      assert (s + [v])[..|s|] == s;
    }
  }

  /** Splicing out index `i` shifts every later element down by one. */
  lemma SpliceAt(s: seq<string>, i: int, k: int)
    requires 0 <= i < |s| && 0 <= k < |s| - 1
    ensures (s[..i] + s[i + 1..])[k] == s[if k < i then k else k + 1]
  {
  }

  /** Toggling never introduces a duplicate, and on a duplicate-free list it flips membership. */
  lemma ToggleKeepsNoDuplicates(s: seq<string>, v: string)
    requires NoDuplicates(s)
    ensures NoDuplicates(Toggle(s, v))
    ensures v in Toggle(s, v) <==> v !in s
  {
    if v in s {
      var i := FirstIndexOf(s, v);
      var t := s[..i] + s[i + 1..];
      assert Toggle(s, v) == t;
      forall a, b | 0 <= a < b < |t|
        ensures t[a] != t[b]
      {
        SpliceAt(s, i, a);
        SpliceAt(s, i, b);
      }
      forall k | 0 <= k < |t|
        ensures t[k] != v
      {
        SpliceAt(s, i, k);
      }
    }
  }

  /**
   * Toggling a value twice gives back a duplicate-free list when the value was absent
   * or was its last element; when it was elsewhere the same values come back, with
   * the toggled one moved to the end.
   */
  lemma ToggleTwice(s: seq<string>, v: string)
    requires NoDuplicates(s)
    ensures multiset(Toggle(Toggle(s, v), v)) == multiset(s)
    ensures Toggle(Toggle(s, v), v) == s <==> v !in s || s[|s| - 1] == v
  {
    var t := Toggle(s, v);
    ToggleMultiset(s, v);
    ToggleKeepsNoDuplicates(s, v);
    ToggleMultiset(t, v);
    if v !in s {
      FirstIndexUnique(t, v, |s|);
      assert t[..|s|] == s;
    } else {
      var i := FirstIndexOf(s, v);
      assert Toggle(t, v) == t + [v];
      if s[|s| - 1] == v {
        assert t + [v] == s;
      } else {
        assert (t + [v])[|s| - 1] == v;
      }
    }
  }

  /** The selection after the entries of a filter object, in key order: each matching key overrides it. */
  function SelectionAfter(selected: seq<string>, entries: seq<FilterEntry>, isOwnKey: string -> bool): seq<string> {
    if entries == [] then selected
    else
      var last := entries[|entries| - 1];
      if isOwnKey(last.key) then last.values.GetOr([])
      else SelectionAfter(selected, entries[..|entries| - 1], isOwnKey)
  }

  /** A filter object with no key of this component leaves the selection as it was. */
  lemma {:induction false} SelectionAfterNoMatch(selected: seq<string>, entries: seq<FilterEntry>, isOwnKey: string -> bool)
    requires forall k :: 0 <= k < |entries| ==> !isOwnKey(entries[k].key)
    ensures SelectionAfter(selected, entries, isOwnKey) == selected
  {
    if entries != [] {
      var n := |entries| - 1;
      assert forall k :: 0 <= k < n ==> entries[..n][k] == entries[k];
      SelectionAfterNoMatch(selected, entries[..n], isOwnKey);
    }
  }

  /**
   * Otherwise the selection is the value list of the last entry whose key is this
   * component's, or [] when that list is null.
   */
  lemma {:induction false} SelectionAfterLastMatch(selected: seq<string>, entries: seq<FilterEntry>, isOwnKey: string -> bool, k: int)
    requires 0 <= k < |entries| && isOwnKey(entries[k].key)
    requires forall j :: k < j < |entries| ==> !isOwnKey(entries[j].key)
    ensures SelectionAfter(selected, entries, isOwnKey) == entries[k].values.GetOr([])
  {
    var n := |entries| - 1;
    if k < n {
      assert entries[..n][k] == entries[k];
      assert forall j :: k < j < n ==> entries[..n][j] == entries[j];
      SelectionAfterLastMatch(selected, entries[..n], isOwnKey, k);
    }
  }

  /** The component's state. */
  class AssetGenericFilter {
    /** `fieldFilter.field`, the field whose values this component lists. */
    const field: string
    const forGroups: bool
    var fieldValues: seq<FieldValue>
    var loading: bool
    var selected: seq<string>
    var loadingMore: bool
    var searching: bool
    var requestParams: RequestParams
    var sort: SortOrder
    /** The requests sent to the field-values service, in order. */
    ghost var requests: seq<RequestParams>

    /** The page is never negative, and the last request sent carries the current parameters. */
    ghost predicate Valid()
      reads this
    {
      && requestParams.page >= 0
      && requestParams.prop == field && requestParams.size == PageSize && requestParams.forGroups == forGroups
      && |requests| > 0 && requests[|requests| - 1] == requestParams
    }

    /** Field initialisers and `ngOnInit`'s first request, for page 0. */
    constructor (field: string, forGroups: bool)
      ensures Valid()
      ensures this.field == field && this.forGroups == forGroups
      ensures requestParams == RequestParams(0, field, PageSize, forGroups, None)
      ensures fieldValues == [] && selected == [] && loading && !loadingMore && !searching
      ensures sort == SortOrder(true, false) && requests == [requestParams]
    {
      this.field := field;
      this.forGroups := forGroups;
      fieldValues := [];
      loading := true;
      selected := [];
      loadingMore := false;
      searching := false;
      sort := SortOrder(true, false);
      requestParams := RequestParams(0, field, PageSize, forGroups, None);
      requests := [RequestParams(0, field, PageSize, forGroups, None)];
    }

    /** The response callback of `getPropertyValues`: append the body, clear the three loading flags. */
    method OnResponse(body: seq<FieldValue>)
      requires Valid()
      modifies this
      ensures Valid()
      ensures fieldValues == old(fieldValues) + body
      ensures !loading && !searching && !loadingMore
      ensures selected == old(selected) && requestParams == old(requestParams) && requests == old(requests) && sort == old(sort)
    {
      fieldValues := fieldValues + body;
      loading := false;
      searching := false;
      loadingMore := false;
    }

    /** `onSortValuesChange`: store the sort order and request the values again. */
    method OnSortValuesChange(order: SortOrder)
      requires Valid()
      modifies this
      ensures Valid()
      ensures sort == order && requests == old(requests) + [requestParams]
      ensures requestParams == old(requestParams) && fieldValues == old(fieldValues) && selected == old(selected)
      ensures loading == old(loading) && loadingMore == old(loadingMore) && searching == old(searching)
    {
      sort := order;
      requests := requests + [requestParams];
    }

    /** `onScroll`: ask for the next page, exactly one further. */
    method OnScroll()
      requires Valid()
      modifies this
      ensures Valid()
      ensures requestParams == old(requestParams).(page := old(requestParams.page) + 1)
      ensures loadingMore && requests == old(requests) + [requestParams]
      ensures fieldValues == old(fieldValues) && selected == old(selected) && sort == old(sort)
      ensures loading == old(loading) && searching == old(searching)
    {
      requestParams := requestParams.(page := requestParams.page + 1);
      loadingMore := true;
      requests := requests + [requestParams];
    }

    /**
     * `selectValue`: toggle `value` in the selection and emit the new selection.
     * An absent value is appended; a present one loses its first occurrence.
     */
    method SelectValue(value: string) returns (emitted: seq<string>)
      requires Valid()
      modifies this
      ensures Valid()
      ensures selected == Toggle(old(selected), value) && emitted == selected
      ensures fieldValues == old(fieldValues) && requestParams == old(requestParams) && requests == old(requests)
      ensures loading == old(loading) && loadingMore == old(loadingMore) && searching == old(searching) && sort == old(sort)
    {
      var index := FindIndex(selected, value);
      assert index != -1 ==> Toggle(selected, value) == selected[..index] + selected[index + 1..];
      if index == -1 {
        selected := selected + [value];
      } else {
        selected := selected[..index] + selected[index + 1..];
      }
      emitted := selected;
    }

    /** `searchInValues`: search from page 0 for `text`, dropping the values loaded so far. */
    method SearchInValues(text: string)
      requires Valid()
      modifies this
      ensures Valid()
      ensures requestParams == old(requestParams).(value := Some(text), page := 0)
      ensures searching && fieldValues == [] && requests == old(requests) + [requestParams]
      ensures selected == old(selected) && sort == old(sort) && loading == old(loading) && loadingMore == old(loadingMore)
    {
      requestParams := requestParams.(value := Some(text));
      requestParams := requestParams.(page := 0);
      searching := true;
      fieldValues := [];
      requests := requests + [requestParams];
    }

    /**
     * The reload subscription of `ngOnInit`: a non-empty change naming this field
     * reloads from page 0 with no values; any other change does nothing.
     */
    method OnReloadFilter(change: Option<string>)
      requires Valid()
      modifies this
      ensures Valid()
      ensures change.Some? && change.value != "" && change.value == field ==>
                && requestParams == old(requestParams).(page := 0)
                && fieldValues == [] && loading && requests == old(requests) + [requestParams]
      ensures !(change.Some? && change.value != "" && change.value == field) ==>
                requestParams == old(requestParams) && fieldValues == old(fieldValues) &&
                loading == old(loading) && requests == old(requests)
      ensures selected == old(selected) && sort == old(sort) && loadingMore == old(loadingMore) && searching == old(searching)
    {
      if change.Some? && change.value != "" && field == change.value {
        requestParams := requestParams.(page := 0);
        fieldValues := [];
        loading := true;
        requests := requests + [requestParams];
      }
    }

    /**
     * `setValueOfFilter`: walks the filter object's keys in order; every key that is
     * this component's replaces the selection by its values, or by [] when they are null.
     */
    method SetValueOfFilter(filters: seq<FilterEntry>, isOwnKey: string -> bool)
      requires Valid()
      modifies this
      ensures Valid()
      ensures selected == SelectionAfter(old(selected), filters, isOwnKey)
      ensures fieldValues == old(fieldValues) && requestParams == old(requestParams) && requests == old(requests)
      ensures loading == old(loading) && loadingMore == old(loadingMore) && searching == old(searching) && sort == old(sort)
    {
      var i := 0;
      while i < |filters|
        invariant 0 <= i <= |filters|
        invariant selected == SelectionAfter(old(selected), filters[..i], isOwnKey)
        invariant fieldValues == old(fieldValues) && requestParams == old(requestParams) && requests == old(requests)
        invariant loading == old(loading) && loadingMore == old(loadingMore) && searching == old(searching) && sort == old(sort)
      {
        assert filters[..i + 1][..i] == filters[..i];
        var entry := filters[i];
        if isOwnKey(entry.key) {
          selected := if entry.values.None? then [] else entry.values.value;
        }
        i := i + 1;
      }
      assert filters[..i] == filters;
    }
  }
}
