/**
 * The page model of the reading screen: it copies a snapshot of the
 * application state, resumes the stored reading progress, answers whether an
 * archive is known, and hands the prefetch service the page ids in the order
 * they should be fetched.
 *
 * The prefetch order puts the current page and everything after it first,
 * then the pages before it, nearest first.
 */
module PageModel {
  import opened Wrappers
  import opened ViewModels

  /** `s` in reverse order. */
  function Reverse<T>(s: seq<T>): (r: seq<T>)
    ensures |r| == |s|
    decreases |s|
  {
    if s == [] then [] else Reverse(s[1..]) + [s[0]]
  }

  /** Element `k` of the reversal is element `|s| - 1 - k` of `s`. */
  lemma {:induction false} ReverseAt<T>(s: seq<T>, k: int)
    requires 0 <= k < |s|
    ensures |Reverse(s)| == |s|
    ensures Reverse(s)[k] == s[|s| - 1 - k]
    decreases |s|
  {
    if k < |s| - 1 {
      ReverseAt(s[1..], k);
    }
  }

  /** Reversal keeps every element as often as it occurs. */
  lemma {:induction false} ReverseMultiset<T>(s: seq<T>)
    ensures multiset(Reverse(s)) == multiset(s)
    decreases |s|
  {
    if s != [] {
      ReverseMultiset(s[1..]);
      assert s == [s[0]] + s[1..];
    }
  }

  /**
   * `prefetchImages`: the ids from the current index onwards, followed by the
   * ids before it in reverse. Slicing outside the list traps, hence the
   * precondition.
   */
  function PrefetchOrder(ids: seq<string>, current: int): (r: seq<string>)
    requires 0 <= current <= |ids|
    ensures |r| == |ids|
    ensures current < |ids| ==> r[0] == ids[current]
  {
    ids[current..] + Reverse(ids[..current])
  }

  /** The prefetch order is a permutation of the ids: every id occurs in it as often as in the list. */
  lemma PrefetchPermutation(ids: seq<string>, current: int)
    requires 0 <= current <= |ids|
    ensures multiset(PrefetchOrder(ids, current)) == multiset(ids)
  {
    ReverseMultiset(ids[..current]);
    assert ids == ids[..current] + ids[current..];
  }

  /**
   * Where each id lands: position `k` holds `ids[current + k]` while the
   * pages from the current one last, and `ids[|ids| - 1 - k]` after that,
   * so the page just before the current one comes right after the last page
   * and the first page comes last.
   */
  lemma PrefetchAt(ids: seq<string>, current: int, k: int)
    requires 0 <= current <= |ids|
    requires 0 <= k < |ids|
    ensures k < |ids| - current ==> PrefetchOrder(ids, current)[k] == ids[current + k]
    ensures k >= |ids| - current ==> PrefetchOrder(ids, current)[k] == ids[|ids| - 1 - k]
  {
    if k >= |ids| - current {
      ReverseAt(ids[..current], k - (|ids| - current));
    }
  }

  /** The two named positions: the page before the current one, and the first page. */
  lemma PrefetchTail(ids: seq<string>, current: int)
    requires 0 < current <= |ids|
    ensures PrefetchOrder(ids, current)[|ids| - current] == ids[current - 1]
    ensures PrefetchOrder(ids, current)[|ids| - 1] == ids[0]
  {
    PrefetchAt(ids, current, |ids| - current);
    PrefetchAt(ids, current, |ids| - 1);
  }

  /** At the first page the order is the list itself; past the last page it is the list reversed. */
  lemma PrefetchBoundaries(ids: seq<string>)
    ensures PrefetchOrder(ids, 0) == ids
    ensures PrefetchOrder(ids, |ids|) == Reverse(ids)
  {
    assert ids[0..] == ids;
    assert ids[..|ids|] == ids;
  }

  /** Seven pages, current index 3. */
  lemma PrefetchSevenPages(p0: string, p1: string, p2: string, p3: string,
                           p4: string, p5: string, p6: string)
    ensures PrefetchOrder([p0, p1, p2, p3, p4, p5, p6], 3) == [p3, p4, p5, p6, p2, p1, p0]
  {
    var ids := [p0, p1, p2, p3, p4, p5, p6];
    var expected := [p3, p4, p5, p6, p2, p1, p0];
    var r := PrefetchOrder(ids, 3);
    PrefetchAt(ids, 3, 0);
    PrefetchAt(ids, 3, 1);
    PrefetchAt(ids, 3, 2);
    PrefetchAt(ids, 3, 3);
    PrefetchAt(ids, 3, 4);
    PrefetchAt(ids, 3, 5);
    PrefetchAt(ids, 3, 6);
    assert r == expected;
  }

  /**
   * The page model. The position is an integer: the source keeps it as a
   * floating-point number that only ever holds whole values.
   */
  class ArchivePageModel {
    var currentIndex: int
    var controlUiHidden: bool

    var loading: bool
    var archiveItems: map<string, ArchiveItem>
    var archivePages: map<string, seq<string>>
    var errorCode: Option<ErrorCode>

    /** Every id list handed to the prefetch service, in order. */
    ghost var preloads: seq<seq<string>>
    /** Every archive id whose new flag the model asked the server to clear, in order. */
    ghost var clearRequests: seq<string>

    /** A new model: position 0, controls hidden, nothing loaded. */
    constructor ()
      ensures currentIndex == 0 && controlUiHidden
      ensures !loading && archiveItems == map[] && archivePages == map[] && errorCode == None
      ensures preloads == [] && clearRequests == []
    {
      currentIndex := 0;
      controlUiHidden := true;
      loading := false;
      archiveItems := map[];
      archivePages := map[];
      errorCode := None;
      preloads := [];
      clearRequests := [];
    }

    /**
     * `load(state:progress:)`: copy the snapshot and resume the stored
     * progress if the model has not moved yet.
     */
    method Load(state: AppState, progress: int)
      modifies this
      ensures loading == state.page.loading
      ensures archiveItems == state.archive.archiveItems
      ensures archivePages == state.page.archivePages
      ensures errorCode == state.page.errorCode
      ensures old(currentIndex) == 0 ==> currentIndex == progress
      ensures old(currentIndex) != 0 ==> currentIndex == old(currentIndex)
      ensures controlUiHidden == old(controlUiHidden)
      ensures preloads == old(preloads) && clearRequests == old(clearRequests)
    {
      loading := state.page.loading;
      archiveItems := state.archive.archiveItems;
      archivePages := state.page.archivePages;
      errorCode := state.page.errorCode;
      if currentIndex == 0 {
        currentIndex := progress;
      }
    }

    /** `verifyArchiveExists(id)`: whether the snapshot knows the archive. */
    function VerifyArchiveExists(id: string): (r: bool)
      reads this
      ensures r <==> id in archiveItems.Keys
    {
      id in archiveItems
    }

    /** `prefetchImages(ids)`: hand the ids to the prefetch service in prefetch order. */
    method PrefetchImages(ids: seq<string>)
      requires 0 <= currentIndex <= |ids|
      modifies this`preloads
      ensures preloads == old(preloads) + [PrefetchOrder(ids, currentIndex)]
    {
      var firstHalf := ids[..currentIndex];
      var secondHalf := ids[currentIndex..];
      firstHalf := Reverse(firstHalf);
      preloads := preloads + [secondHalf + firstHalf];
    }

    /** `clearNewFlag(id)`: ask the server to clear the new flag; its answer is ignored. */
    method ClearNewFlag(id: string)
      modifies this`clearRequests
      ensures clearRequests == old(clearRequests) + [id]
    {
      clearRequests := clearRequests + [id];
    }
  }
}
