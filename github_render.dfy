/**
 * The text, counting and colour rules behind the GitHub module's key and strip
 * images (internal/modules/github/render.go). Pixels are not modelled: a view
 * records what is drawn (rows, labels, colours, lines of text), not where each
 * pixel goes.
 */
module GitHubRender {
  import opened Text

  /** A pull request's review state. */
  datatype PRStatus = Waiting | Approved | Changes

  /** A pull request's CI state: failed, passed, or anything else (pending, none). */
  datatype CIStatus = CIFailed | CIPassed | CIOther

  datatype PRInfo = PRInfo(
    title: string,
    repo: string,
    number: int,
    status: PRStatus,
    url: string,
    isDraft: bool,
    ci: CIStatus)

  /** Counts for the user's own open pull requests. */
  datatype PRStats = PRStats(
    waitingForReview: int,
    approved: int,
    changesRequested: int,
    ciFailed: int,
    draft: int)

  /** The number of pull requests awaiting the user's review. */
  datatype ReviewStats = ReviewStats(total: int)

  datatype Colour = KeyBg | White | Green | Yellow | Orange | Red | DimGray

  /** The background tints of an overlay key. */
  datatype Background = DraftBg | CIFailedBg | ApprovedBg | ChangesBg | WaitingBg

  const ItemsPerPage: nat := 8

  /** Pages needed for `n` pull requests, eight per page; at least one. */
  function TotalPages(n: nat): (p: nat)
    ensures p >= 1
    ensures n == 0 ==> p == 1
    ensures n > 0 ==> (p - 1) * ItemsPerPage < n <= p * ItemsPerPage
  {
    var pages := (n + ItemsPerPage - 1) / ItemsPerPage;
    if pages == 0 then 1 else pages
  }

  // ---------------------------------------------------------------------
  // Word wrapping

  /** An over-long word cut to `max - 1` bytes and a full stop. */
  function Truncated(word: string, max: nat): (t: string)
    requires 1 <= max < |word|
    ensures |t| == max && t[..max - 1] == word[..max - 1] && t[max - 1] == '.'
  {
    word[..max - 1] + "."
  }

  /** One iteration of wrapText's loop: the finished lines and the line being filled. */
  function WrapStep(lines: seq<string>, cur: string, word: string, max: nat): (seq<string>, string)
    requires max >= 1
  {
    if |cur| == 0 then
      if |word| > max then (lines + [Truncated(word, max)], cur) else (lines, word)
    else if |cur| + 1 + |word| <= max then (lines, cur + " " + word)
    else (lines + [cur], if |word| > max then Truncated(word, max) else word)
  }

  /** The loop's state after the given words. */
  function WrapFold(words: seq<string>, max: nat): (seq<string>, string)
    requires max >= 1
  {
    if words == [] then ([], "")
    else
      var (lines, cur) := WrapFold(words[..|words| - 1], max);
      WrapStep(lines, cur, words[|words| - 1], max)
  }

  /** The finished lines, plus the current line when it is not empty. */
  function Flush(st: (seq<string>, string)): seq<string> {
    if |st.1| > 0 then st.0 + [st.1] else st.0
  }

  /** `wrapText`: text that fits is one line; otherwise its words are filled greedily. */
  function WrapLines(text: string, max: nat): seq<string>
    requires max >= 1
  {
    if |text| <= max then [text] else Flush(WrapFold(Fields(text), max))
  }

  /** The loop of `wrapText` over the words of `text`. */
  method WrapText(text: string, max: nat) returns (lines: seq<string>)
    requires max >= 1
    ensures lines == WrapLines(text, max)
  {
    if |text| <= max {
      return [text];
    }
    var words := Fields(text);
    lines := [];
    var cur := "";
    for i := 0 to |words|
      invariant (lines, cur) == WrapFold(words[..i], max)
    {
      assert words[..i + 1][..i] == words[..i];
      var word := words[i];
      if |cur| == 0 {
        if |word| > max {
          lines := lines + [word[..max - 1] + "."];
          continue;
        }
        cur := word;
      } else if |cur| + 1 + |word| <= max {
        cur := cur + " " + word;
      } else {
        lines := lines + [cur];
        if |word| > max {
          cur := word[..max - 1] + ".";
        } else {
          cur := word;
        }
      }
    }
    assert words[..|words|] == words;
    if |cur| > 0 {
      lines := lines + [cur];
    }
  }

  predicate LinesFit(lines: seq<string>, max: nat) {
    forall i :: 0 <= i < |lines| ==> 0 < |lines[i]| <= max
  }

  lemma {:induction false} WrapFoldFits(words: seq<string>, max: nat)
    requires max >= 1
    ensures LinesFit(WrapFold(words, max).0, max) && |WrapFold(words, max).1| <= max
  {
    if words != [] {
      WrapFoldFits(words[..|words| - 1], max);
    }
  }

  /**
   * Every line fits: none is longer than `max`, and when the text had to be
   * wrapped none is empty. Text that fits is returned as its only line.
   */
  lemma WrapLinesFit(text: string, max: nat)
    requires max >= 1
    ensures |text| <= max ==> WrapLines(text, max) == [text]
    ensures forall i :: 0 <= i < |WrapLines(text, max)| ==> |WrapLines(text, max)[i]| <= max
    ensures |text| > max ==> LinesFit(WrapLines(text, max), max)
  {
    if |text| > max {
      WrapFoldFits(Fields(text), max);
    }
  }

  predicate NoLongWord(words: seq<string>, max: nat) {
    forall i :: 0 <= i < |words| ==> |words[i]| <= max
  }

  /** One word that fits, added by the loop, adds a space and the word to the joined lines. */
  lemma WrapStepKeepsJoin(lines: seq<string>, cur: string, w: string, max: nat)
    requires 1 <= |w| <= max && (cur == [] ==> lines == [])
    ensures WrapStep(lines, cur, w, max).1 != []
    ensures cur == [] ==> Join(Flush(WrapStep(lines, cur, w, max))) == w
    ensures cur != [] ==> Join(Flush(WrapStep(lines, cur, w, max))) == Join(Flush((lines, cur))) + " " + w
  {
    var st := WrapStep(lines, cur, w, max);
    if cur == [] {
      assert st == ([], w);
      assert Flush(st) == [w];
    } else if |cur| + 1 + |w| <= max {
      assert st == (lines, cur + " " + w);
      assert Flush((lines, cur)) == lines + [cur];
      assert Join(Flush(st)) == Join(lines + [cur]) + " " + w by {
        assert Flush(st) == lines + [cur + " " + w];
        JoinGlueLast(lines, cur, w);
        JoinSnoc(lines + [cur], w);
      }
    } else {
      assert st == (lines + [cur], w);
      assert Flush((lines, cur)) == lines + [cur];
      assert Join(Flush(st)) == Join(lines + [cur]) + " " + w by {
        assert Flush(st) == (lines + [cur]) + [w];
        JoinSnoc(lines + [cur], w);
      }
    }
  }

  lemma {:induction false} WrapFoldKeepsWords(words: seq<string>, max: nat)
    requires max >= 1 && NoLongWord(words, max)
    requires forall i :: 0 <= i < |words| ==> words[i] != []
    ensures Join(Flush(WrapFold(words, max))) == Join(words)
    ensures (WrapFold(words, max).1 == []) <==> words == []
    ensures WrapFold(words, max).1 == [] ==> WrapFold(words, max).0 == []
  {
    if words != [] {
      var init, w := words[..|words| - 1], words[|words| - 1];
      assert NoLongWord(init, max) && forall i :: 0 <= i < |init| ==> init[i] != [] by {
        forall i | 0 <= i < |init| ensures |init[i]| <= max && init[i] != [] {
          assert init[i] == words[i];
        }
      }
      WrapFoldKeepsWords(init, max);
      var st := WrapFold(init, max);
      assert WrapFold(words, max) == WrapStep(st.0, st.1, w, max);
      WrapStepKeepsJoin(st.0, st.1, w, max);
      if init == [] {
        assert words == [w];
      } else {
        assert words == init + [w];
        JoinSnoc(init, w);
      }
    }
  }

  /**
   * When no word is longer than `max`, wrapping only chooses where the line
   * breaks go: joining the lines with single spaces gives the words joined
   * with single spaces.
   */
  lemma WrapLinesKeepText(text: string, max: nat)
    requires max >= 1 && |text| > max && NoLongWord(Fields(text), max)
    ensures Join(WrapLines(text, max)) == Join(Fields(text))
  {
    WrapFoldKeepsWords(Fields(text), max);
  }

  lemma {:induction false} WrapFoldKeepsTruncations(words: seq<string>, max: nat)
    requires max >= 1
    ensures forall k :: 0 <= k < |words| && |words[k]| > max ==> Truncated(words[k], max) in Flush(WrapFold(words, max))
  {
    if words != [] {
      var init := words[..|words| - 1];
      var w := words[|words| - 1];
      WrapFoldKeepsTruncations(init, max);
      var (lines, cur) := WrapFold(init, max);
      forall k | 0 <= k < |words| && |words[k]| > max
        ensures Truncated(words[k], max) in Flush(WrapFold(words, max))
      {
        var t := Truncated(words[k], max);
        if k < |init| {
          assert words[k] == init[k];
          assert t in Flush((lines, cur));
          if |cur| > 0 && |cur| + 1 + |w| <= max {
            assert t != cur;
            assert t in lines;
          }
        }
      }
    }
  }

  /** An over-long word shows up as its first `max - 1` bytes and a full stop. */
  lemma WrapLinesTruncateLongWords(text: string, max: nat, word: string)
    requires max >= 1 && |text| > max
    requires word in Fields(text) && |word| > max
    ensures Truncated(word, max) in WrapLines(text, max)
  {
    WrapFoldKeepsTruncations(Fields(text), max);
  }

  // ---------------------------------------------------------------------
  // Repository names

  /** The part of `owner/repo` after the last slash; the whole text without one. */
  function RepoPart(repo: string): (r: string)
    ensures '/' !in r
    ensures '/' !in repo ==> r == repo
    ensures '/' in repo ==> exists i :: 0 <= i < |repo| && repo[i] == '/' && r == repo[i + 1..]
  {
    var i := LastIndexOf(repo, '/');
    if i >= 0 then repo[i + 1..] else repo
  }

  /** A name longer than ten bytes becomes its first nine bytes and a full stop. */
  function Abbreviate(name: string): (r: string)
    ensures |r| <= 10
    ensures |name| <= 10 ==> r == name
    ensures |name| > 10 ==> |r| == 10 && r[..9] == name[..9] && r[9] == '.'
  {
    if |name| > 10 then name[..9] + "." else name
  }

  /** The repository label of an overlay key. */
  function ShortRepo(repo: string): string {
    Abbreviate(RepoPart(repo))
  }

  // ---------------------------------------------------------------------
  // The stats button

  datatype StatRow = StatRow(y: int, caption: string, count: int, colour: Colour)

  /** What the "my pull requests" key shows: the outbox icon or not, then labelled count rows. */
  datatype StatsButton = StatsButton(sendIcon: bool, rows: seq<StatRow>)

  /** Waiting pull requests other than drafts, never below zero. */
  function WaitCount(s: PRStats): (w: int)
    ensures w >= 0 && w >= s.waitingForReview - s.draft
    ensures w == 0 || w == s.waitingForReview - s.draft
  {
    var w := s.waitingForReview - s.draft;
    if w < 0 then 0 else w
  }

  /**
   * `renderPRStatsButton`: CI failures and drafts take the icon's place at the
   * top (both: two rows), then the Wait, OK and Chg rows.
   */
  function RenderPRStatsButton(s: PRStats): (b: StatsButton)
    ensures b.sendIcon <==> s.ciFailed <= 0 && s.draft <= 0
    ensures |b.rows| == 3 + (if s.ciFailed > 0 then 1 else 0) + (if s.draft > 0 then 1 else 0)
    ensures s.ciFailed > 0 ==> b.rows[0] == StatRow(if s.draft > 0 then 10 else 14, "Fail", s.ciFailed, Red)
    ensures s.draft > 0 ==> b.rows[|b.rows| - 4] == StatRow(if s.ciFailed > 0 then 22 else 14, "Draft", s.draft, DimGray)
    ensures var top := if s.ciFailed > 0 && s.draft > 0 then 36 else 28;
      && b.rows[|b.rows| - 3] == StatRow(top, "Wait", WaitCount(s), Yellow)
      && b.rows[|b.rows| - 2] == StatRow(top + 14, "OK", s.approved, Green)
      && b.rows[|b.rows| - 1] == StatRow(top + 28, "Chg", s.changesRequested, Orange)
  {
    var (head, rowY) :=
      if s.ciFailed > 0 && s.draft > 0 then
        ([StatRow(10, "Fail", s.ciFailed, Red), StatRow(22, "Draft", s.draft, DimGray)], 36)
      else if s.ciFailed > 0 then ([StatRow(14, "Fail", s.ciFailed, Red)], 28)
      else if s.draft > 0 then ([StatRow(14, "Draft", s.draft, DimGray)], 28)
      else ([], 28);
    StatsButton(head == [], head + [
      StatRow(rowY, "Wait", WaitCount(s), Yellow),
      StatRow(rowY + 14, "OK", s.approved, Green),
      StatRow(rowY + 28, "Chg", s.changesRequested, Orange)])
  }

  // ---------------------------------------------------------------------
  // An overlay key

  /** `renderPRKey`'s background: draft, then failed CI, then review state. */
  function BackgroundOf(pr: PRInfo): (bg: Background)
    ensures bg == DraftBg <==> pr.isDraft
    ensures bg == CIFailedBg <==> !pr.isDraft && pr.ci == CIFailed
    ensures bg == ApprovedBg <==> !pr.isDraft && pr.ci != CIFailed && pr.status == Approved
    ensures bg == ChangesBg <==> !pr.isDraft && pr.ci != CIFailed && pr.status == Changes
    ensures bg == WaitingBg <==> !pr.isDraft && pr.ci != CIFailed && pr.status == Waiting
  {
    if pr.isDraft then DraftBg
    else if pr.ci == CIFailed then CIFailedBg
    else match pr.status
      case Approved => ApprovedBg
      case Changes => ChangesBg
      case Waiting => WaitingBg
  }

  /** The review-state colour of the number and of the bar; drafts are grey whatever their review state. */
  function StatusColour(pr: PRInfo): (c: Colour)
    ensures c == DimGray <==> pr.isDraft
    ensures !pr.isDraft ==> (c == Green <==> pr.status == Approved) && (c == Orange <==> pr.status == Changes)
    ensures c in {DimGray, Green, Orange, Yellow}
  {
    if pr.isDraft then DimGray
    else match pr.status
      case Approved => Green
      case Changes => Orange
      case Waiting => Yellow
  }

  /** The bar is red exactly when CI failed, otherwise it takes the status colour. */
  function BarColour(pr: PRInfo): (c: Colour)
    ensures c == Red <==> pr.ci == CIFailed
    ensures pr.ci != CIFailed ==> c == StatusColour(pr)
  {
    if pr.ci == CIFailed then Red else StatusColour(pr)
  }

  /** The mark beside the number: "X" for failed CI, "+" for passed, nothing otherwise. */
  function CIMark(ci: CIStatus): (mark: string)
    ensures ci == CIFailed <==> mark == "X"
    ensures ci == CIPassed <==> mark == "+"
    ensures ci == CIOther <==> mark == ""
  {
    match ci
    case CIFailed => "X"
    case CIPassed => "+"
    case CIOther => ""
  }

  datatype PRKeyView = PRKeyView(
    background: Background,
    statusColour: Colour,
    barColour: Colour,
    number: int,
    ciMark: string,
    repo: string,
    titleLines: seq<string>)

  const TitleWidth: nat := 11
  const TitleLines: nat := 3

  /** What an overlay key shows for one pull request. */
  function RenderPRKey(pr: PRInfo): (v: PRKeyView)
    ensures v.number == pr.number && v.repo == ShortRepo(pr.repo) && |v.repo| <= 10
    ensures v.background == BackgroundOf(pr) && v.statusColour == StatusColour(pr)
    ensures v.barColour == BarColour(pr) && v.ciMark == CIMark(pr.ci)
    ensures |v.titleLines| == if |WrapLines(pr.title, TitleWidth)| > TitleLines then TitleLines else |WrapLines(pr.title, TitleWidth)|
    ensures forall i :: 0 <= i < |v.titleLines| ==> |v.titleLines[i]| <= TitleWidth
    ensures v.titleLines == WrapLines(pr.title, TitleWidth)[..|v.titleLines|]
  {
    var lines := WrapLines(pr.title, TitleWidth);
    var shown := if |lines| > TitleLines then lines[..TitleLines] else lines;
    assert forall i :: 0 <= i < |shown| ==> |shown[i]| <= TitleWidth by {
      WrapLinesFit(pr.title, TitleWidth);
    }
    PRKeyView(BackgroundOf(pr), StatusColour(pr), BarColour(pr), pr.number, CIMark(pr.ci), ShortRepo(pr.repo), shown)
  }

  // ---------------------------------------------------------------------
  // The repository summary on the overlay strip

  /** The one bucket a pull request is counted in. */
  datatype Bucket = DraftBucket | WaitingBucket | ApprovedBucket | ChangesBucket

  function BucketOf(pr: PRInfo): (b: Bucket)
    ensures b == DraftBucket <==> pr.isDraft
    ensures !pr.isDraft ==>
      (b == ApprovedBucket <==> pr.status == Approved) && (b == ChangesBucket <==> pr.status == Changes)
  {
    if pr.isDraft then DraftBucket
    else match pr.status
      case Approved => ApprovedBucket
      case Changes => ChangesBucket
      case Waiting => WaitingBucket
  }

  datatype RepoStats = RepoStats(draft: nat, waiting: nat, approved: nat, changes: nat)
  {
    function Bump(b: Bucket): RepoStats {
      match b
      case DraftBucket => this.(draft := draft + 1)
      case WaitingBucket => this.(waiting := waiting + 1)
      case ApprovedBucket => this.(approved := approved + 1)
      case ChangesBucket => this.(changes := changes + 1)
    }

    function Total(): nat { draft + waiting + approved + changes }
  }

  const NoStats := RepoStats(0, 0, 0, 0)

  function RepoNames(prs: seq<PRInfo>): seq<string> {
    seq(|prs|, i requires 0 <= i < |prs| => RepoPart(prs[i].repo))
  }

  /** The names in order of first appearance, each once. */
  function Dedup(names: seq<string>): seq<string> {
    if names == [] then []
    else
      var init := Dedup(names[..|names| - 1]);
      if names[|names| - 1] in names[..|names| - 1] then init else init + [names[|names| - 1]]
  }

  /** The counts of the pull requests of one repository, by bucket. */
  function TallyOf(prs: seq<PRInfo>, name: string): RepoStats {
    if prs == [] then NoStats
    else
      var last := prs[|prs| - 1];
      var t := TallyOf(prs[..|prs| - 1], name);
      if RepoPart(last.repo) == name then t.Bump(BucketOf(last)) else t
  }

  predicate NoDup(xs: seq<string>) {
    forall i, j :: 0 <= i < j < |xs| ==> xs[i] != xs[j]
  }

  /** `repoOrder` lists every repository once and nothing else. */
  lemma {:induction false} DedupListsEachOnce(names: seq<string>)
    ensures NoDup(Dedup(names))
    ensures forall x :: x in Dedup(names) <==> x in names
  {
    if names != [] {
      var init := names[..|names| - 1];
      DedupListsEachOnce(init);
      assert names == init + [names[|names| - 1]];
    }
  }

  /** Reading one more pull request appends its repository to the order when it is new. */
  lemma DedupStep(prs: seq<PRInfo>, i: nat)
    requires i < |prs|
    ensures var name := RepoPart(prs[i].repo);
      Dedup(RepoNames(prs[..i + 1])) == Dedup(RepoNames(prs[..i])) + (if name in Dedup(RepoNames(prs[..i])) then [] else [name])
  {
    var before, after := RepoNames(prs[..i]), RepoNames(prs[..i + 1]);
    var name := RepoPart(prs[i].repo);
    assert after[..|after| - 1] == before && after[|after| - 1] == name;
    assert name in before <==> name in Dedup(before) by {
      DedupListsEachOnce(before);
    }
  }

  /** Reading one more pull request bumps one bucket of its own repository's tally and no other. */
  lemma TallyStep(prs: seq<PRInfo>, i: nat)
    requires i < |prs|
    ensures forall r :: TallyOf(prs[..i + 1], r) == if r == RepoPart(prs[i].repo) then TallyOf(prs[..i], r).Bump(BucketOf(prs[i])) else TallyOf(prs[..i], r)
  {
    assert prs[..i + 1][..i] == prs[..i];
  }

  /** The grouping of `prs` so far: first-seen repository order, and every tally, zero for unseen repositories. */
  ghost predicate Grouped(ps: seq<PRInfo>, order: seq<string>, stats: map<string, RepoStats>) {
    && order == Dedup(RepoNames(ps))
    && (forall r :: r in stats <==> r in order)
    && Tallied(ps, stats)
  }

  /** Every stored tally is the repository's tally, and every repository without one has none. */
  ghost predicate Tallied(ps: seq<PRInfo>, stats: map<string, RepoStats>) {
    && (forall r :: r in stats ==> stats[r] == TallyOf(ps, r))
    && (forall r :: r !in stats ==> TallyOf(ps, r) == NoStats)
  }

  lemma TalliedStep(prs: seq<PRInfo>, i: nat, stats: map<string, RepoStats>)
    requires i < |prs| && Tallied(prs[..i], stats)
    ensures var repo := RepoPart(prs[i].repo);
      var seeded := if repo in stats then stats else stats[repo := NoStats];
      Tallied(prs[..i + 1], seeded[repo := seeded[repo].Bump(BucketOf(prs[i]))])
  {
    TallyStep(prs, i);
    var repo := RepoPart(prs[i].repo);
    var b := BucketOf(prs[i]);
    if repo in stats {
      var stats' := stats[repo := stats[repo].Bump(b)];
      forall r | r in stats'
        ensures stats'[r] == TallyOf(prs[..i + 1], r)
      {
      }
    } else {
      var stats' := stats[repo := NoStats.Bump(b)];
      forall r | r in stats'
        ensures stats'[r] == TallyOf(prs[..i + 1], r)
      {
      }
    }
  }

  /** One more pull request: its repository is appended when new, and its tally bumped. */
  lemma GroupedStep(prs: seq<PRInfo>, i: nat, order: seq<string>, stats: map<string, RepoStats>)
    requires i < |prs| && Grouped(prs[..i], order, stats)
    ensures var repo := RepoPart(prs[i].repo);
      var order' := if repo in stats then order else order + [repo];
      var seeded := if repo in stats then stats else stats[repo := NoStats];
      Grouped(prs[..i + 1], order', seeded[repo := seeded[repo].Bump(BucketOf(prs[i]))])
  {
    DedupStep(prs, i);
    TalliedStep(prs, i, stats);
  }

  /** The grouping loop of `drawRepoSummary`. */
  method GroupByRepo(prs: seq<PRInfo>) returns (order: seq<string>, stats: map<string, RepoStats>)
    ensures order == Dedup(RepoNames(prs))
    ensures forall r :: r in stats <==> r in order
    ensures forall r :: r in stats ==> stats[r] == TallyOf(prs, r)
  {
    order, stats := [], map[];
    for i := 0 to |prs|
      invariant Grouped(prs[..i], order, stats)
    {
      var pr := prs[i];
      var repo := RepoPart(pr.repo);
      GroupedStep(prs, i, order, stats);
      if repo !in stats {
        stats := stats[repo := NoStats];
        order := order + [repo];
      }
      stats := stats[repo := stats[repo].Bump(BucketOf(pr))];
    }
    assert prs[..|prs|] == prs;
  }

  function SumTotals(order: seq<string>, prs: seq<PRInfo>): nat {
    if order == [] then 0 else SumTotals(order[..|order| - 1], prs) + TallyOf(prs, order[|order| - 1]).Total()
  }

  lemma {:induction false} SumTotalsStep(order: seq<string>, prs: seq<PRInfo>, pr: PRInfo)
    requires NoDup(order)
    ensures SumTotals(order, prs + [pr]) == SumTotals(order, prs) + (if RepoPart(pr.repo) in order then 1 else 0)
  {
    assert (prs + [pr])[..|prs|] == prs;
    if order != [] {
      var init := order[..|order| - 1];
      assert NoDup(init);
      SumTotalsStep(init, prs, pr);
      assert order == init + [order[|order| - 1]];
      assert order[|order| - 1] !in init;
    }
  }

  lemma {:induction false} TallyOfAbsent(prs: seq<PRInfo>, name: string)
    requires name !in RepoNames(prs)
    ensures TallyOf(prs, name) == NoStats
  {
    if prs != [] {
      assert RepoNames(prs[..|prs| - 1]) == RepoNames(prs)[..|prs| - 1];
      assert RepoNames(prs)[|prs| - 1] == RepoPart(prs[|prs| - 1].repo);
      TallyOfAbsent(prs[..|prs| - 1], name);
    }
  }

  /** Every pull request is counted exactly once: the repositories' totals add up to the list's length. */
  lemma {:induction false} TotalsCoverList(prs: seq<PRInfo>)
    ensures SumTotals(Dedup(RepoNames(prs)), prs) == |prs|
  {
    if prs != [] {
      var init := prs[..|prs| - 1];
      var pr := prs[|prs| - 1];
      var names := RepoNames(prs);
      assert prs == init + [pr];
      assert names[..|names| - 1] == RepoNames(init);
      TotalsCoverList(init);
      DedupListsEachOnce(RepoNames(init));
      var order := Dedup(RepoNames(init));
      SumTotalsStep(order, init, pr);
      if RepoPart(pr.repo) !in RepoNames(init) {
        TallyOfAbsent(init, RepoPart(pr.repo));
        assert Dedup(names) == order + [RepoPart(pr.repo)];
        assert (order + [RepoPart(pr.repo)])[..|order|] == order;
      }
    }
  }

  /** At most five dots per bucket; a "+" when there are more. */
  datatype DotRun = DotRun(dots: nat, more: bool)

  function Dots(count: nat): (d: DotRun)
    ensures d.dots <= 5 && d.dots <= count
    ensures d.more <==> count > 5
    ensures !d.more ==> d.dots == count
  {
    if count > 5 then DotRun(5, true) else DotRun(count, false)
  }

  /** One repository on the strip: its label, grid cell and dot runs. */
  datatype RepoCell = RepoCell(caption: string, x: int, y: int, draft: DotRun, waiting: DotRun, approved: DotRun, changes: DotRun)

  const MaxRepos: nat := 6

  function Cell(i: nat, name: string, t: RepoStats): RepoCell {
    RepoCell(Abbreviate(name), 15 + (i % 3) * 195, 30 + (i / 3) * 40,
             Dots(t.draft), Dots(t.waiting), Dots(t.approved), Dots(t.changes))
  }

  /** The first six repositories, three per row. */
  function SummaryCells(order: seq<string>, prs: seq<PRInfo>): (cells: seq<RepoCell>)
    ensures |cells| == if |order| < MaxRepos then |order| else MaxRepos
    ensures forall i :: 0 <= i < |cells| ==> cells[i].caption == Abbreviate(order[i])
  {
    var n := if |order| < MaxRepos then |order| else MaxRepos;
    seq(n, i requires 0 <= i < n => Cell(i, order[i], TallyOf(prs, order[i])))
  }

  /** No two shown repositories share a grid cell. */
  lemma SummaryCellsDistinct(order: seq<string>, prs: seq<PRInfo>)
    ensures var cells := SummaryCells(order, prs);
      forall i, j :: 0 <= i < j < |cells| ==> (cells[i].x, cells[i].y) != (cells[j].x, cells[j].y)
  {
    var cells := SummaryCells(order, prs);
    forall i, j | 0 <= i < j < |cells|
      ensures (cells[i].x, cells[i].y) != (cells[j].x, cells[j].y)
    {
      assert cells[i] == Cell(i, order[i], TallyOf(prs, order[i]));
      assert cells[j] == Cell(j, order[j], TallyOf(prs, order[j]));
      assert i == (i / 3) * 3 + i % 3 && j == (j / 3) * 3 + j % 3;
    }
  }

  /** "<page>/<pages>" with the page counted from one. */
  function PageIndicator(currentPage: nat, n: nat): string {
    NatToString(currentPage + 1) + "/" + NatToString(TotalPages(n))
  }

  /** The indicator reads back as the one-based page and the page count. */
  lemma PageIndicatorReadsBack(currentPage: nat, n: nat)
    ensures var s := PageIndicator(currentPage, n);
      var i := |NatToString(currentPage + 1)|;
      && 0 < i < |s| && s[i] == '/' && '/' !in s[..i] && '/' !in s[i + 1..]
      && DigitsValue(s[..i]) == currentPage + 1
      && DigitsValue(s[i + 1..]) == TotalPages(n)
  {
    var a := NatToString(currentPage + 1);
    var b := NatToString(TotalPages(n));
    var s := PageIndicator(currentPage, n);
    assert s[..|a|] == a;
    assert s[|a| + 1..] == b;
    NatToStringValue(currentPage + 1);
    NatToStringValue(TotalPages(n));
  }

  /** What the overlay strip shows: "No PRs" or the repository summary, and the page indicator. */
  datatype OverlayStrip = OverlayStrip(noPRs: bool, summary: seq<RepoCell>, page: string)

  /** `renderOverlayStripWithPRs`. */
  method RenderOverlayStripWithPRs(prs: seq<PRInfo>, currentPage: nat) returns (strip: OverlayStrip)
    ensures strip.noPRs <==> prs == []
    ensures strip.summary == if prs == [] then [] else SummaryCells(Dedup(RepoNames(prs)), prs)
    ensures strip.page == PageIndicator(currentPage, |prs|)
  {
    var page := NatToString(currentPage + 1) + "/" + NatToString(TotalPages(|prs|));
    if prs == [] {
      return OverlayStrip(true, [], page);
    }
    var order, stats := GroupByRepo(prs);
    var n := if |order| < MaxRepos then |order| else MaxRepos;
    var cells := seq(n, i requires 0 <= i < n => Cell(i, order[i], stats[order[i]]));
    assert cells == SummaryCells(order, prs);
    strip := OverlayStrip(false, cells, page);
  }
}
