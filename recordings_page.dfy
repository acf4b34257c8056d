// The recordings page: the listed items with their id and name fallbacks, the mock item shown
// when listing fails, the search filter (case-insensitive substring of the name) and the
// newest-first order, and which names play as video. Creation times are the parsed
// `Date` values, in milliseconds.

module RecordingsPage {
  import opened JsCommon
  import opened JsText
  import opened Seqs

  /** An entry of the listing as the server sends it; any field may be missing. */
  datatype RawItem = RawItem(id: Option<string>, name: Option<string>, path: Option<string>, createdAt: int)

  /** A listed recording; `None` stands for `undefined`. */
  datatype Item = Item(id: Option<string>, name: Option<string>, path: Option<string>, createdAt: int)

  /** `a || b` on optional strings. */
  function FirstTruthy(a: Option<string>, b: Option<string>): (r: Option<string>)
    ensures a.Some? && a.value != "" ==> r == a
    ensures a.None? || a.value == "" ==> r == b
  {
    if a.Some? && a.value != "" then a else b
  }

  /** The item mapping: the id falls back to the name and the name to the id. */
  function ItemOf(raw: RawItem): (it: Item)
    ensures it.path == raw.path && it.createdAt == raw.createdAt
    ensures (raw.id.Some? && raw.id.value != "") || (raw.name.Some? && raw.name.value != "") ==>
              it.id.Some? && it.id.value != "" && it.name.Some? && it.name.value != ""
    ensures raw.id.None? && raw.name.None? ==> it.id.None? && it.name.None?
  {
    Item(FirstTruthy(raw.id, raw.name), FirstTruthy(raw.name, raw.id), raw.path, raw.createdAt)
  }

  /** An entry known only by its name is listed under that name as its id too. */
  lemma NameOnlyEntry(name: string, path: Option<string>, at: int)
    requires name != ""
    ensures ItemOf(RawItem(None, Some(name), path, at)) == Item(Some(name), Some(name), path, at)
  {
  }

  const MockName := "mock1.webm"
  const MockPath := "recordings/mock1.webm"

  /** The one item shown when listing fails, created now. */
  function MockItem(now: int): Item
  {
    Item(Some(MockName), Some(MockName), Some(MockPath), now)
  }

  // ------------------------------------------------------------ the search filter

  /** The filter test, for an item that has a name: the lower-cased query occurs in the lower-cased name. */
  function Matches(query: string): Item -> bool
  {
    (it: Item) => it.name.Some? && Contains(Lower(it.name.value), Lower(query))
  }

  /** An empty query matches every named item. */
  lemma EmptyQueryMatches(it: Item)
    requires it.name.Some?
    ensures Matches("")(it)
  {
    assert OccursAt(Lower(it.name.value), Lower(""), 0);
  }

  /** The filter ignores case: a name matches the query in any letter case of the query. */
  lemma QueryCaseIgnored(it: Item, query: string)
    ensures Matches(query)(it) == Matches(Lower(query))(it)
  {
    LowerIdempotent(query);
  }

  lemma LowerIdempotent(s: string)
    ensures Lower(Lower(s)) == Lower(s)
  {
  }

  // ------------------------------------------------------------ newest first

  function CreatedAt(it: Item): int
  {
    it.createdAt
  }

  /**
   * The list sorted newest first, as `sort` with the comparator `b - a` does: a stable sort,
   * so items created at the same moment keep their order.
   */
  function NewestFirst(s: seq<Item>): (r: seq<Item>)
    ensures forall i, j :: 0 <= i < j < |r| ==> r[i].createdAt >= r[j].createdAt
    ensures multiset(r) == multiset(s)
  {
    SortDesc(s, CreatedAt)
  }

  /** The sort is stable: for every creation time, those items come out in their original order. */
  lemma NewestFirstStable(s: seq<Item>, t: int)
    ensures WithKey(NewestFirst(s), CreatedAt, t) == WithKey(s, CreatedAt, t)
  {
    SortDescStable(s, CreatedAt, t);
  }

  // ------------------------------------------------------------ the shown list

  predicate AllNamed(items: seq<Item>)
  {
    forall k :: 0 <= k < |items| ==> items[k].name.Some?
  }

  /**
   * The `filtered` memo: the matching items, newest first. An item without a name makes the
   * lower-casing throw, which is `None` here.
   */
  function Visible(items: seq<Item>, query: string): (r: Option<seq<Item>>)
    ensures r.None? <==> !AllNamed(items)
    ensures r.Some? ==> (forall i, j :: 0 <= i < j < |r.value| ==> r.value[i].createdAt >= r.value[j].createdAt) &&
                        multiset(r.value) == multiset(Filter(items, Matches(query)))
  {
    if AllNamed(items) then Some(NewestFirst(Filter(items, Matches(query)))) else None
  }

  /** With an empty search box every item is shown. */
  lemma EmptyQueryShowsAll(items: seq<Item>)
    requires AllNamed(items)
    ensures Visible(items, "") == Some(NewestFirst(items))
  {
    forall k | 0 <= k < |items|
      ensures Matches("")(items[k])
    {
      EmptyQueryMatches(items[k]);
    }
    FilterAll(items, Matches(""));
  }

  // ------------------------------------------------------------ video or audio

  /** `/\.(webm|mp4|mov|mkv)$/i`: the name ends in one of the four video extensions, in any case. */
  predicate IsVideo(name: string)
  {
    var n := Lower(name);
    EndsWith(n, ".webm") || EndsWith(n, ".mp4") || EndsWith(n, ".mov") || EndsWith(n, ".mkv")
  }

  lemma LowerAppend(a: string, b: string)
    ensures Lower(a + b) == Lower(a) + Lower(b)
  {
    forall i | 0 <= i < |a + b|
      ensures Lower(a + b)[i] == (Lower(a) + Lower(b))[i]
    {
      if i < |a| {
        assert (a + b)[i] == a[i];
      } else {
        assert (a + b)[i] == b[i - |a|];
      }
    }
  }

  /** An upper-case extension counts: `NAME.MP4` plays as video. */
  lemma UpperCaseVideo(base: string)
    ensures IsVideo(base + ".MP4")
  {
    LowerAppend(base, ".MP4");
    assert Lower(".MP4") == ".mp4";
    var n := Lower(base + ".MP4");
    assert n[|n| - 4..] == ".mp4";
  }

  /** The mock recording plays as video. */
  lemma MockIsVideo()
    ensures IsVideo(MockName)
  {
    assert Lower(MockName) == MockName;
    assert MockName[|MockName| - 5..] == ".webm";
  }

  // ------------------------------------------------------------ the page

  /** The listing's answer: its items (possibly missing), or a failure. */
  datatype ListOutcome = Listed(items: Option<seq<RawItem>>) | ListFailed

  class Page {
    var items: seq<Item>
    var loading: bool
    var error: Option<string>
    var query: string

    constructor ()
      ensures items == [] && loading && error.None? && query == ""
    {
      items := [];
      loading := true;
      error := None;
      query := "";
    }

    /** `fetchItems`: the mapped listing (`res?.items || []`), or the mock item when listing fails; never an error. */
    method FetchItems(outcome: ListOutcome, now: int)
      modifies this
      ensures outcome.Listed? ==> items == Map(if outcome.items.Some? then outcome.items.value else [], ItemOf)
      ensures outcome.ListFailed? ==> items == [MockItem(now)]
      ensures !loading && error.None? && query == old(query)
    {
      loading := true;
      error := None;
      if outcome.Listed? {
        items := Map(if outcome.items.Some? then outcome.items.value else [], ItemOf);
      } else {
        items := [MockItem(now)];
      }
      loading := false;
    }

    method SetQuery(text: string)
      modifies this
      ensures query == text && items == old(items) && loading == old(loading) && error == old(error)
    {
      query := text;
    }
  }
}
