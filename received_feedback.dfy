/** The received-feedback page (src/pages/ReceivedFeedback.tsx): the list,
    the category filter over it, the per-category counts, and marking an
    item read once the server has accepted it. */
module ReceivedFeedback {
  import opened Wrappers
  import opened Text
  import opened Lists
  import opened Api
  import opened Categories

  datatype Party = Party(id: int, name: string)

  /** `Feedback` of src/types/simple.ts. */
  datatype Feedback = Feedback(
    id: int,
    content: string,
    category: Category,
    isAnonymous: bool,
    isRead: bool,
    reactionsCount: int,
    createdAt: string,
    updatedAt: string,
    sender: Option<Party>,
    recipient: Option<Party>)

  function CategoryTest(sel: CategoryFilter): Feedback -> bool {
    (f: Feedback) => sel.AnyCategory? || f.category == sel.c
  }

  /** The filter effect: the whole list for 'all', else the items of the
      selected category. */
  function FilterByCategory(fs: seq<Feedback>, sel: CategoryFilter): seq<Feedback> {
    if sel.AnyCategory? then fs else Filter(fs, CategoryTest(sel))
  }

  /** 'all' shows everything; a category shows exactly its items, in their
      original order. */
  lemma FilterByCategoryExact(fs: seq<Feedback>, sel: CategoryFilter)
    ensures sel.AnyCategory? ==> FilterByCategory(fs, sel) == fs
    ensures sel.OnlyCategory? ==> forall f :: f in FilterByCategory(fs, sel) <==> f in fs && f.category == sel.c
    ensures IsSubsequence(FilterByCategory(fs, sel), fs)
  {
    FilterIsSubsequence(fs, CategoryTest(sel));
    if sel.AnyCategory? {
      FilterKeepsAll(fs, CategoryTest(sel));
    }
  }

  /** `feedbacks.filter(f => f.category === category).length`. */
  function CategoryCount(fs: seq<Feedback>, c: Category): nat {
    |FilterByCategory(fs, OnlyCategory(c))|
  }

  /** Every item has one of the four categories, so the four counts add up
      to the "all" count. */
  lemma {:induction false} CategoryCountsCover(fs: seq<Feedback>)
    ensures CategoryCount(fs, Gratitude) + CategoryCount(fs, Admiration)
          + CategoryCount(fs, Appreciation) + CategoryCount(fs, Respect) == |fs|
  {
    if fs != [] {
      CategoryCountsCover(fs[1..]);
      forall c | c in AllCategories
        ensures CategoryCount(fs, c) == (if fs[0].category == c then 1 else 0) + CategoryCount(fs[1..], c)
      {
        assert FilterByCategory(fs, OnlyCategory(c))
          == (if fs[0].category == c then [fs[0]] else []) + FilterByCategory(fs[1..], OnlyCategory(c));
      }
    }
  }

  function HasId(id: int): Feedback -> bool {
    (f: Feedback) => f.id == id
  }

  function SetRead(): Feedback -> Feedback {
    (f: Feedback) => f.(isRead := true)
  }

  /** `prev.map(f => f.id === feedbackId ? { ...f, isRead: true } : f)`. */
  function MarkRead(fs: seq<Feedback>, id: int): (r: seq<Feedback>)
    ensures |r| == |fs|
    ensures forall i :: 0 <= i < |fs| ==> r[i] == if fs[i].id == id then fs[i].(isRead := true) else fs[i]
  {
    UpdateWhere(fs, HasId(id), SetRead())
  }

  /** After marking, every item with that id is read and keeps everything
      else; other items are untouched; marking again changes nothing. */
  lemma MarkReadProperties(fs: seq<Feedback>, id: int)
    ensures forall i :: 0 <= i < |fs| && fs[i].id == id ==> MarkRead(fs, id)[i].isRead
    ensures forall i :: 0 <= i < |fs| ==> MarkRead(fs, id)[i].id == fs[i].id && MarkRead(fs, id)[i].category == fs[i].category
    ensures forall i :: 0 <= i < |fs| && fs[i].id != id ==> MarkRead(fs, id)[i] == fs[i]
    ensures MarkRead(MarkRead(fs, id), id) == MarkRead(fs, id)
  {
    UpdateWhereIdempotent(fs, HasId(id), SetRead());
  }

  /** Marking an item read changes no category count. */
  lemma {:induction false} MarkReadKeepsCounts(fs: seq<Feedback>, id: int, c: Category)
    ensures CategoryCount(MarkRead(fs, id), c) == CategoryCount(fs, c)
  {
    if fs != [] {
      MarkReadKeepsCounts(fs[1..], id, c);
      var m := MarkRead(fs, id);
      assert m[1..] == MarkRead(fs[1..], id);
      assert FilterByCategory(m, OnlyCategory(c))
        == (if m[0].category == c then [m[0]] else []) + FilterByCategory(m[1..], OnlyCategory(c));
      assert FilterByCategory(fs, OnlyCategory(c))
        == (if fs[0].category == c then [fs[0]] else []) + FilterByCategory(fs[1..], OnlyCategory(c));
    }
  }

  /** The endpoint `markAsRead` patches. */
  function MarkReadEndpoint(id: int): string {
    "/feedbacks/" + IntToDecimal(id) + "/mark_read"
  }

  class ReceivedFeedbackPage {
    const api: ApiClient
    var feedbacks: seq<Feedback>
    var filteredFeedbacks: seq<Feedback>
    var selectedCategory: CategoryFilter
    var selectedFeedback: Option<Feedback>

    constructor (api: ApiClient)
      ensures this.api == api
      ensures feedbacks == [] && filteredFeedbacks == [] && selectedCategory == AnyCategory && selectedFeedback == None
    {
      this.api := api;
      feedbacks := [];
      filteredFeedbacks := [];
      selectedCategory := AnyCategory;
      selectedFeedback := None;
    }

    /** The effect on `[selectedCategory, feedbacks]`. */
    method ApplyFilter()
      modifies this
      ensures filteredFeedbacks == FilterByCategory(feedbacks, selectedCategory)
      ensures feedbacks == old(feedbacks) && selectedCategory == old(selectedCategory) && selectedFeedback == old(selectedFeedback)
    {
      if selectedCategory == AnyCategory {
        filteredFeedbacks := feedbacks;
      } else {
        filteredFeedbacks := Filter(feedbacks, CategoryTest(selectedCategory));
      }
    }

    /** `markAsRead(id)`: PATCH with no body; the list changes only once the
        request has succeeded, and a failure leaves it as it was. */
    method MarkAsRead(id: int, outcome: HttpOutcome<Json>) returns (req: HttpRequest)
      modifies this
      ensures req == api.Prepared(MarkReadEndpoint(id), RequestOptions(Some(Patch), None, None))
      ensures outcome.Ok? ==> feedbacks == MarkRead(old(feedbacks), id)
      ensures !outcome.Ok? ==> feedbacks == old(feedbacks)
      ensures filteredFeedbacks == old(filteredFeedbacks) && selectedCategory == old(selectedCategory)
      ensures selectedFeedback == old(selectedFeedback)
    {
      var r;
      req, r := api.PatchJson(MarkReadEndpoint(id), None, outcome);
      if r.Success? {
        feedbacks := MarkRead(feedbacks, id);
      }
    }

    /** `openFeedbackDetail(f)`: select the item, and ask for it to be marked
        read only when it is unread. */
    method OpenFeedbackDetail(f: Feedback, outcome: HttpOutcome<Json>) returns (req: Option<HttpRequest>)
      modifies this
      ensures selectedFeedback == Some(f)
      ensures req.Some? <==> !f.isRead
      ensures req.Some? ==> req.value == api.Prepared(MarkReadEndpoint(f.id), RequestOptions(Some(Patch), None, None))
      ensures !f.isRead && outcome.Ok? ==> feedbacks == MarkRead(old(feedbacks), f.id)
      ensures f.isRead || !outcome.Ok? ==> feedbacks == old(feedbacks)
      ensures filteredFeedbacks == old(filteredFeedbacks) && selectedCategory == old(selectedCategory)
    {
      selectedFeedback := Some(f);
      if !f.isRead {
        var r := MarkAsRead(f.id, outcome);
        req := Some(r);
      } else {
        req := None;
      }
    }
  }
}
