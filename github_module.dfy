/**
 * The GitHub module's overlay state machine and its merge of fetched data
 * (internal/modules/github/module.go). Time is an integer number of
 * milliseconds given by the caller; the fetch results are parameters.
 */
module GitHub {
  import opened Wrappers
  import opened Resources
  import opened Events
  import opened GitHubRender

  datatype OverlayType = OverlayNone | OverlayMyPRs | OverlayReviewRequested

  /** The overlay stays up five seconds after the last press or page turn. */
  const OverlayTimeout: int := 5000

  /**
   * What a key shows: the two summary buttons, the image `renderPRKey` draws
   * for a pull request (RenderPRKey says what is on it), or an empty key.
   */
  datatype KeyView = StatsView(button: StatsButton) | ReviewView(total: int) | PRKeyImage(pr: PRInfo) | EmptyView

  /** The pull request behind key `id` (1..8) on page `page`, if any. */
  function PRForKey(list: seq<PRInfo>, page: int, id: KeyId): (r: Option<PRInfo>)
    ensures r.Some? <==> 0 <= page * ItemsPerPage + id - 1 < |list|
    ensures r.Some? ==> r.value == list[page * ItemsPerPage + id - 1]
  {
    var index := page * ItemsPerPage + id - 1;
    if 0 <= index < |list| then Some(list[index]) else None
  }

  /** What overlay key `i + 1` shows on page `page`. */
  function OverlayKeyView(list: seq<PRInfo>, page: nat, i: nat): KeyView {
    var index := page * ItemsPerPage + i;
    if index < |list| then PRKeyImage(list[index]) else EmptyView
  }

  /** Turning Dial4: one page on, one page back, clamped to the existing pages. */
  function PageAfterRotation(page: int, delta: Int8, totalPages: nat): (p: int)
    requires totalPages >= 1
    ensures delta == 0 ==> p == page
    ensures delta > 0 ==> p <= totalPages - 1 && (p == page + 1 || (p == totalPages - 1 && page + 1 >= totalPages))
    ensures delta < 0 ==> p >= 0 && (p == page - 1 || (p == 0 && page < 1))
  {
    if delta > 0 then (if page + 1 >= totalPages then totalPages - 1 else page + 1)
    else if delta < 0 then (if page - 1 < 0 then 0 else page - 1)
    else page
  }

  /** Pages stay in range: from a page that exists, any turn lands on a page that exists. */
  lemma {:induction false} RotationStaysOnExistingPage(page: int, delta: Int8, totalPages: nat)
    requires totalPages >= 1 && 0 <= page < totalPages
    ensures 0 <= PageAfterRotation(page, delta, totalPages) < totalPages
    ensures delta > 0 && page < totalPages - 1 ==> PageAfterRotation(page, delta, totalPages) == page + 1
    ensures delta < 0 && page > 0 ==> PageAfterRotation(page, delta, totalPages) == page - 1
  {
  }

  function CountCIFailed(prs: seq<PRInfo>): nat {
    if prs == [] then 0
    else CountCIFailed(prs[..|prs| - 1]) + (if prs[|prs| - 1].ci == CIFailed then 1 else 0)
  }

  function CountDrafts(prs: seq<PRInfo>): nat {
    if prs == [] then 0
    else CountDrafts(prs[..|prs| - 1]) + (if prs[|prs| - 1].isDraft then 1 else 0)
  }

  /** The counting loop of `fetchStats`. */
  method TallyPRList(prs: seq<PRInfo>) returns (ciFailed: nat, drafts: nat)
    ensures ciFailed == CountCIFailed(prs) && drafts == CountDrafts(prs)
  {
    ciFailed, drafts := 0, 0;
    for i := 0 to |prs|
      invariant ciFailed == CountCIFailed(prs[..i]) && drafts == CountDrafts(prs[..i])
    {
      assert prs[..i + 1][..i] == prs[..i];
      if prs[i].ci == CIFailed {
        ciFailed := ciFailed + 1;
      }
      if prs[i].isDraft {
        drafts := drafts + 1;
      }
    }
    assert prs[..|prs|] == prs;
  }

  /** The counts add up over concatenation and never exceed the list's length. */
  lemma {:induction false} CountsAdd(a: seq<PRInfo>, b: seq<PRInfo>)
    ensures CountCIFailed(a + b) == CountCIFailed(a) + CountCIFailed(b)
    ensures CountDrafts(a + b) == CountDrafts(a) + CountDrafts(b)
    ensures CountCIFailed(a) <= |a| && CountDrafts(a) <= |a|
  {
    if b == [] {
      assert a + b == a;
      CountsBounded(a);
    } else {
      var init := b[..|b| - 1];
      assert (a + b)[..|a + b| - 1] == a + init;
      CountsAdd(a, init);
    }
  }

  lemma {:induction false} CountsBounded(a: seq<PRInfo>)
    ensures CountCIFailed(a) <= |a| && CountDrafts(a) <= |a|
  {
    if a != [] {
      CountsBounded(a[..|a| - 1]);
    }
  }

  /**
   * The list kept after a fetch, as written: `GetMyPRList` yields a nil slice
   * both on error and when the search finds nothing, and only a non-nil
   * slice replaces the stored one.
   */
  function ListAfterFetchAsWritten(current: seq<PRInfo>, fetched: Option<seq<PRInfo>>): seq<PRInfo> {
    if fetched.Some? && fetched.value != [] then fetched.value else current
  }

  /** As written, a successful fetch that finds no pull requests leaves the old list on the overlay. */
  lemma StaleListAfterEmptyFetch()
    ensures var pr := PRInfo("Fix it", "owner/repo", 1, Waiting, "https://example.org/1", false, CIOther);
      ListAfterFetchAsWritten([pr], Some([])) == [pr] != []
  {
  }

  /** The list kept after a fetch: the fetched one on success, the old one on error. */
  function ListAfterFetch(current: seq<PRInfo>, fetched: Option<seq<PRInfo>>): (r: seq<PRInfo>)
    ensures fetched.Some? ==> r == fetched.value
    ensures fetched.None? ==> r == current
  {
    if fetched.Some? then fetched.value else current
  }

  /** The two merges disagree exactly when a successful fetch finds nothing while a list is shown. */
  lemma AsWrittenDiffersOnlyOnEmptyFetch(current: seq<PRInfo>, fetched: Option<seq<PRInfo>>)
    ensures ListAfterFetchAsWritten(current, fetched) != ListAfterFetch(current, fetched)
      <==> fetched == Some([]) && current != []
  {
  }

  class GitHubModule {
    var enabled: bool
    var keys: seq<KeyId>
    var stats: PRStats
    var prList: seq<PRInfo>
    var reviewStats: ReviewStats
    var reviewPRList: seq<PRInfo>
    var overlayType: OverlayType
    var overlayExpiry: int
    var currentPage: int
    var browsed: seq<string>   // the URLs handed to the browser, in order

    /** The page never goes below zero. */
    ghost predicate Valid()
      reads this
    {
      currentPage >= 0
    }

    /** New: disabled, no keys, no data, no overlay. */
    constructor ()
      ensures Valid() && !enabled && keys == [] && prList == [] && reviewPRList == []
      ensures stats == PRStats(0, 0, 0, 0, 0) && reviewStats == ReviewStats(0)
      ensures overlayType == OverlayNone && overlayExpiry == 0 && currentPage == 0 && browsed == []
    {
      enabled, keys := false, [];
      stats, prList, reviewStats, reviewPRList := PRStats(0, 0, 0, 0, 0), [], ReviewStats(0), [];
      overlayType, overlayExpiry, currentPage := OverlayNone, 0, 0;
      browsed := [];
    }

    /**
     * Init keeps the grant's keys. Without a GitHub client the module stays
     * disabled and Init still succeeds; with one it is enabled, and Init
     * fails exactly when the embedded fonts do not load (`fontsOk` false),
     * after the module was enabled.
     */
    method Init(res: Resources, clientAvailable: bool, fontsOk: bool) returns (err: bool)
      modifies this`keys, this`enabled
      ensures keys == res.keys && enabled == clientAvailable
      ensures err <==> clientAvailable && !fontsOk
    {
      keys := res.keys;
      if !clientAvailable {
        enabled := false;
        return false;
      }
      enabled := true;
      err := !fontsOk;
    }

    /** The list the current overlay pages through. */
    function SelectedList(): seq<PRInfo>
      reads this
    {
      if overlayType == OverlayReviewRequested then reviewPRList else prList
    }

    /** A press opens the review overlay on the second key and the own-PRs overlay on any other, at page one. */
    method HandleKey(id: KeyId, event: KeyEvent, now: int) returns (err: bool)
      requires Valid()
      modifies this`overlayType, this`overlayExpiry, this`currentPage
      ensures Valid() && !err
      ensures !event.pressed ==>
        overlayType == old(overlayType) && overlayExpiry == old(overlayExpiry) && currentPage == old(currentPage)
      ensures event.pressed ==>
        && overlayType == (if |keys| > 1 && id == keys[1] then OverlayReviewRequested else OverlayMyPRs)
        && overlayExpiry == now + OverlayTimeout
        && currentPage == 0
    {
      if !event.pressed {
        return false;
      }
      if |keys| > 1 && id == keys[1] {
        overlayType := OverlayReviewRequested;
      } else {
        overlayType := OverlayMyPRs;
      }
      overlayExpiry := now + OverlayTimeout;
      currentPage := 0;
      err := false;
    }

    /** Active while an overlay is set and `now` is not after its expiry; an expired overlay is switched off. */
    method IsOverlayActive(now: int) returns (active: bool)
      modifies this`overlayType
      ensures active <==> old(overlayType) != OverlayNone && now <= overlayExpiry
      ensures overlayType == if active then old(overlayType) else OverlayNone
    {
      if overlayType == OverlayNone {
        return false;
      }
      if now > overlayExpiry {
        overlayType := OverlayNone;
        return false;
      }
      return true;
    }

    /** Dial4 turns pages (and restarts the timer) or, on release, closes the overlay; other dials do nothing. */
    method HandleOverlayDial(id: DialId, event: DialEvent, now: int) returns (err: bool)
      requires Valid()
      modifies this`overlayType, this`overlayExpiry, this`currentPage
      ensures Valid() && !err
      ensures id != Dial4 || event.kind == DialPress ==>
        overlayType == old(overlayType) && overlayExpiry == old(overlayExpiry) && currentPage == old(currentPage)
      ensures id == Dial4 && event.kind == DialRotate ==>
        && currentPage == PageAfterRotation(old(currentPage), event.delta, TotalPages(|SelectedList()|))
        && overlayExpiry == now + OverlayTimeout
        && overlayType == old(overlayType)
      ensures id == Dial4 && event.kind == DialRelease ==>
        overlayType == OverlayNone && overlayExpiry == old(overlayExpiry) && currentPage == old(currentPage)
    {
      if id != Dial4 {
        return false;
      }
      var list := if overlayType == OverlayReviewRequested then reviewPRList else prList;
      var totalPages := (|list| + ItemsPerPage - 1) / ItemsPerPage;
      if totalPages == 0 {
        totalPages := 1;
      }
      match event.kind {
        case DialRotate =>
          if event.delta > 0 {
            currentPage := currentPage + 1;
            if currentPage >= totalPages {
              currentPage := totalPages - 1;
            }
          } else if event.delta < 0 {
            currentPage := currentPage - 1;
            if currentPage < 0 {
              currentPage := 0;
            }
          }
          overlayExpiry := now + OverlayTimeout;
        case DialRelease =>
          overlayType := OverlayNone;
        case DialPress =>
      }
      err := false;
    }

    /** A press on key `id` opens the URL of the pull request shown there, if there is one with a URL. */
    method HandleOverlayKey(id: KeyId, event: KeyEvent) returns (err: bool)
      modifies this`browsed
      ensures !err
      ensures var pr := PRForKey(SelectedList(), currentPage, id);
        browsed == old(browsed) + (if event.pressed && pr.Some? && pr.value.url != "" then [pr.value.url] else [])
    {
      if !event.pressed {
        return false;
      }
      var list := if overlayType == OverlayReviewRequested then reviewPRList else prList;
      var index := currentPage * ItemsPerPage + id - 1;
      if 0 <= index < |list| {
        var pr := list[index];
        if pr.url != "" {
          browsed := browsed + [pr.url];
        }
      }
      err := false;
    }

    /** All eight keys: the current page's pull requests, then empty keys. */
    method RenderOverlayKeys() returns (views: map<KeyId, KeyView>)
      requires Valid()
      ensures forall k :: k in views <==> k in AllKeys
      ensures forall i :: 0 <= i < 8 ==> views[AllKeys[i]] == OverlayKeyView(SelectedList(), currentPage, i)
    {
      var list := if overlayType == OverlayReviewRequested then reviewPRList else prList;
      views := PageKeys(list, currentPage);
    }

    /** Nothing while disabled; otherwise the stats button on the first key and the review button on the second. */
    function RenderKeys(): (views: Option<map<KeyId, KeyView>>)
      reads this
      ensures views.Some? <==> enabled
      ensures views.Some? ==> forall k :: k in views.value <==> k in keys[..if |keys| < 2 then |keys| else 2]
      ensures views.Some? && |keys| > 1 ==> views.value[keys[1]] == ReviewView(reviewStats.total)
      ensures views.Some? && |keys| > 0 && (|keys| == 1 || keys[0] != keys[1]) ==>
        views.value[keys[0]] == StatsView(RenderPRStatsButton(stats))
    {
      if !enabled then None
      else
        var first := if |keys| > 0 then map[keys[0] := StatsView(RenderPRStatsButton(stats))] else map[];
        Some(if |keys| > 1 then first[keys[1] := ReviewView(reviewStats.total)] else first)
    }

    /**
     * The merge step of `fetchStats`. Nothing changes when the stats query
     * fails; otherwise the stats are stored with the failed-CI and draft
     * counts of the fetched list added, the review count is stored as
     * returned, and the lists are replaced as described by ListAfterFetch.
     * That is the corrected merge: a list parameter is `None` only when its
     * fetch failed. As written, a search that finds nothing also yields Go's
     * nil and keeps the old list (ListAfterFetchAsWritten).
     */
    method FetchStats(fetchedStats: Option<PRStats>, fetchedList: Option<seq<PRInfo>>,
                      fetchedReview: ReviewStats, fetchedReviewList: Option<seq<PRInfo>>)
      modifies this`stats, this`prList, this`reviewStats, this`reviewPRList
      ensures fetchedStats.None? ==>
        stats == old(stats) && prList == old(prList) && reviewStats == old(reviewStats) && reviewPRList == old(reviewPRList)
      ensures fetchedStats.Some? ==>
        var listed := fetchedList.GetOr([]);
        && stats == fetchedStats.value.(ciFailed := fetchedStats.value.ciFailed + CountCIFailed(listed),
                                        draft := fetchedStats.value.draft + CountDrafts(listed))
        && prList == ListAfterFetch(old(prList), fetchedList)
        && reviewStats == fetchedReview
        && reviewPRList == ListAfterFetch(old(reviewPRList), fetchedReviewList)
    {
      if fetchedStats.None? {
        return;
      }
      var s := fetchedStats.value;
      var listed := if fetchedList.Some? then fetchedList.value else [];
      var ciFailed, drafts := TallyPRList(listed);
      stats := s.(ciFailed := s.ciFailed + ciFailed, draft := s.draft + drafts);
      if fetchedList.Some? {
        prList := fetchedList.value;
      }
      reviewStats := fetchedReview;
      if fetchedReviewList.Some? {
        reviewPRList := fetchedReviewList.value;
      }
    }
  }

  /** The loop of `RenderOverlayKeys` over Key1..Key8. */
  method PageKeys(list: seq<PRInfo>, page: nat) returns (views: map<KeyId, KeyView>)
    ensures forall k :: k in views <==> k in AllKeys
    ensures forall i :: 0 <= i < 8 ==> views[AllKeys[i]] == OverlayKeyView(list, page, i)
  {
    views := map[];
    var start := page * ItemsPerPage;
    for i := 0 to 8
      invariant forall k :: k in views <==> 1 <= k <= i
      invariant forall j :: 0 <= j < i ==> views[j + 1] == OverlayKeyView(list, page, j)
    {
      var index := start + i;
      if index < |list| {
        views := views[i + 1 := PRKeyImage(list[index])];
      } else {
        views := views[i + 1 := EmptyView];
      }
    }
    IdentifierRanges();
  }

  /** The key the user presses opens the pull request the overlay shows on that key. */
  lemma KeyOpensWhatItShows(list: seq<PRInfo>, page: nat, i: nat)
    requires i < 8
    ensures var pr := PRForKey(list, page, AllKeys[i]);
      && (pr.Some? <==> OverlayKeyView(list, page, i).PRKeyImage?)
      && (pr.Some? ==> OverlayKeyView(list, page, i) == PRKeyImage(pr.value))
  {
    assert AllKeys[i] == i + 1;
  }

  /**
   * A press at 0 opens the overlay until 5000; a page turn at 3000 extends it
   * to 8000; it is still up at 6000, gone at 9000, and stays gone.
   */
  method OverlayExpiryScenario() returns (at3000: bool, at6000: bool, at9000: bool, later: bool)
    ensures at3000 && at6000 && !at9000 && !later
  {
    var m := new GitHubModule();
    var e := m.Init(Resources([Key3, Key4], Geometry.ZeroRect, []), true, true);
    e := m.HandleKey(Key3, KeyEvent(true, 0), 0);
    at3000 := m.IsOverlayActive(3000);
    e := m.HandleOverlayDial(Dial4, Rotation(1), 3000);
    at6000 := m.IsOverlayActive(6000);
    at9000 := m.IsOverlayActive(9000);
    later := m.IsOverlayActive(8000);
  }
}
